/**
 * `PromiseMonitor`: a registry of the promises still running. `monitor`
 * registers a promise with optional information; the promise's `finally`
 * callback removes it once it settles. The registry is a `Map`, listed in
 * insertion order.
 */
module PromiseMonitors {
  import opened Js

  /** The record kept for each running promise. */
  datatype MonitoredObject<P, I> = MonitoredObject(promise: P, promiseInfo: Option<I>)

  /** `s` without the occurrences of `x`, the rest in order. */
  function Without<P(==, !new)>(s: seq<P>, x: P): (r: seq<P>)
    ensures x !in r && (forall y :: y in r <==> y in s && y != x)
    ensures |r| <= |s|
  {
    if s == [] then []
    else (if s[0] == x then [] else [s[0]]) + Without(s[1..], x)
  }

  /** No element occurs twice. */
  ghost predicate Distinct<P>(s: seq<P>)
  {
    forall i, j :: 0 <= i < j < |s| ==> s[i] != s[j]
  }

  lemma {:induction false} WithoutDistinct<P(!new)>(s: seq<P>, x: P)
    requires Distinct(s)
    ensures Distinct(Without(s, x))
    decreases |s|
  {
    if s != [] {
      assert Distinct(s[1..]) by {
        forall i, j | 0 <= i < j < |s[1..]| ensures s[1..][i] != s[1..][j] {
          assert s[1..][i] == s[i + 1] && s[1..][j] == s[j + 1];
        }
      }
      WithoutDistinct(s[1..], x);
      var rest := Without(s[1..], x);
      if s[0] != x {
        assert s[0] !in s[1..] by {
          forall k | 0 <= k < |s[1..]| ensures s[1..][k] != s[0] {
            assert s[1..][k] == s[k + 1];
          }
        }
        assert s[0] !in rest;
        var r := [s[0]] + rest;
        forall i, j | 0 <= i < j < |r| ensures r[i] != r[j] {
          if i == 0 {
            assert r[j] == rest[j - 1];
          } else {
            assert r[i] == rest[i - 1] && r[j] == rest[j - 1];
          }
        }
      }
    }
  }

  /** The elements of a sequence without repetitions are as many as its length. */
  lemma {:induction false} DistinctCardinality<P(!new)>(s: seq<P>)
    requires Distinct(s)
    ensures |set x | x in s| == |s|
    decreases |s|
  {
    if s != [] {
      assert Distinct(s[1..]) by {
        forall i, j | 0 <= i < j < |s[1..]| ensures s[1..][i] != s[1..][j] {
          assert s[1..][i] == s[i + 1] && s[1..][j] == s[j + 1];
        }
      }
      DistinctCardinality(s[1..]);
      assert s[0] !in s[1..] by {
        forall k | 0 <= k < |s[1..]| ensures s[1..][k] != s[0] {
          assert s[1..][k] == s[k + 1];
        }
      }
      assert (set x | x in s) == (set x | x in s[1..]) + {s[0]};
    }
  }

  class PromiseMonitor<P(==, !new), I> {
    var runningPromises: map<P, MonitoredObject<P, I>>
    /** The keys of `runningPromises` in insertion order, as the `Map` lists them. */
    var order: seq<P>

    /** Each running promise is listed once, and its record names it. */
    ghost predicate Valid()
      reads this
    {
      && Distinct(order)
      && (forall p :: p in runningPromises <==> p in order)
      && (forall p :: p in runningPromises ==> runningPromises[p].promise == p)
    }

    constructor()
      ensures Valid() && runningPromises == map[] && order == []
    {
      runningPromises := map[];
      order := [];
    }

    /**
     * `monitor(promise, promiseInfo)`: registers the promise, replacing the
     * information (and keeping the position) of a promise already registered,
     * and returns the same promise.
     */
    method Monitor(promise: P, promiseInfo: Option<I>) returns (r: P)
      requires Valid()
      modifies this
      ensures Valid() && r == promise
      ensures runningPromises == old(runningPromises)[promise := MonitoredObject(promise, promiseInfo)]
      ensures order == if promise in old(order) then old(order) else old(order) + [promise]
    {
      if promise !in order {
        order := order + [promise];
      }
      runningPromises := runningPromises[promise := MonitoredObject(promise, promiseInfo)];
      r := promise;
    }

    /** The `finally` callback of a monitored promise: it settled, so its entry is deleted. */
    method Settle(promise: P)
      requires Valid()
      modifies this
      ensures Valid()
      ensures runningPromises == old(runningPromises) - {promise}
      ensures order == Without(old(order), promise)
    {
      WithoutDistinct(order, promise);
      runningPromises := runningPromises - {promise};
      order := Without(order, promise);
    }

    /** `getRunningPromises()`: the running promises, in insertion order. */
    method GetRunningPromises() returns (r: seq<P>)
      requires Valid()
      ensures Distinct(r) && (forall p :: p in r <==> p in runningPromises)
      ensures r == order
    {
      r := order;
    }

    /** `getRunningPromisesWithInfo()`: each running promise paired with its record. */
    method GetRunningPromisesWithInfo() returns (r: seq<(P, MonitoredObject<P, I>)>)
      requires Valid()
      ensures |r| == |order|
      ensures forall i :: 0 <= i < |r| ==> r[i].0 == order[i] && r[i].0 in runningPromises && r[i].1 == runningPromises[r[i].0]
      ensures forall i :: 0 <= i < |r| ==> r[i].1.promise == r[i].0
    {
      r := seq(|order|, i requires 0 <= i < |order| && order[i] in runningPromises reads this => (order[i], runningPromises[order[i]]));
    }

    /** `getRunningPromisesCount()`: the size of the registry, which is the number of promises listed. */
    method GetRunningPromisesCount() returns (n: nat)
      requires Valid()
      ensures n == |runningPromises| && n == |order|
    {
      DistinctCardinality(order);
      assert runningPromises.Keys == set x | x in order;
      n := |runningPromises|;
    }
  }

  /**
   * Monitoring the same promise twice leaves one entry with the second
   * information; once it settles, nothing is running.
   */
  method MonitorTwiceThenSettle<P(==, !new), I>(promise: P, first: Option<I>, second: Option<I>)
      returns (countWhileRunning: nat, info: Option<I>, countAfter: nat)
    ensures countWhileRunning == 1 && info == second && countAfter == 0
  {
    var m := new PromiseMonitor<P, I>();
    var _ := m.Monitor(promise, first);
    var _ := m.Monitor(promise, second);
    countWhileRunning := m.GetRunningPromisesCount();
    var entries := m.GetRunningPromisesWithInfo();
    info := entries[0].1.promiseInfo;
    m.Settle(promise);
    countAfter := m.GetRunningPromisesCount();
  }
}
