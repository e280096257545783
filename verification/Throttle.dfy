/** The per-workspace write throttle: a sliding window over the times of the writes it granted. */
module Throttle {
  type UUID = nat
  type Time = int

  /** The times after the cutoff, in order. */
  function After(times: seq<Time>, cutoff: Time): seq<Time> {
    if times == [] then []
    else After(times[..|times| - 1], cutoff) + (if times[|times| - 1] > cutoff then [times[|times| - 1]] else [])
  }

  /** Compaction in place: what is kept moves to the front of the same array. */
  method Compact(times: array<Time>, n: nat, cutoff: Time) returns (kept: nat)
    requires n <= times.Length
    modifies times
    ensures kept <= n && times[..kept] == After(old(times[..n]), cutoff)
    ensures times[n..] == old(times[n..])
  {
    kept := 0;
    for i := 0 to n
      invariant kept <= i
      invariant times[..kept] == After(old(times[..i]), cutoff)
      invariant times[i..] == old(times[i..])
    {
      var ts := times[i];
      assert ts == old(times[i..])[0] == old(times[i]);
      assert old(times[..i + 1])[..i] == old(times[..i]);
      if ts > cutoff {
        times[kept] := ts;
        kept := kept + 1;
      }
    }
  }

  /** One decision: the granted times kept, and the answer. */
  function Decide(hits: seq<Time>, window: Time, limit: int, now: Time): (seq<Time>, bool) {
    var kept := After(hits, now - window);
    if |kept| >= limit then (kept, false) else (kept + [now], true)
  }

  class Throttler {
    const window: Time
    const limit: int
    // a workspace's slice: its backing array, and how much of it is in use
    var backing: map<UUID, array<Time>>
    var used: map<UUID, nat>
    ghost var times: map<UUID, seq<Time>>

    /** Each workspace has its own backing array, holding the times kept for it. */
    ghost predicate Valid()
      reads this, backing.Values
    {
      && limit > 0
      && times.Keys == backing.Keys == used.Keys
      && (forall x | x in backing :: used[x] <= backing[x].Length && backing[x][..used[x]] == times[x])
      && (forall x, y | x in backing && y in backing && x != y :: backing[x] != backing[y])
    }

    constructor (limit: int, window: Time)
      ensures Valid() && times == map[]
      ensures this.window == window && this.limit == if limit <= 0 then 100 else limit
    {
      this.window := window;
      this.limit := if limit <= 0 then 100 else limit;
      backing, used, times := map[], map[], map[];
    }

    method Allow(ws: UUID, now: Time) returns (ok: bool)
      requires Valid()
      modifies this, backing.Values
      ensures Valid()
      ensures ws in backing && backing == old(backing)[ws := backing[ws]]
      ensures fresh(backing[ws]) || (ws in old(backing) && backing[ws] == old(backing)[ws])
      ensures var was := if ws in old(times) then old(times)[ws] else [];
              var (kept, granted) := Decide(was, window, limit, now);
              ok == granted && times == old(times)[ws := kept]
    {
      hide Decide;
      var data, n := new Time[0], 0;
      if ws in backing {
        data, n := backing[ws], used[ws];
      }
      ghost var mine := data;
      data, n, ok := Renew(data, n, now);
      forall x | x in backing && x != ws ensures used[x] <= backing[x].Length && backing[x][..used[x]] == times[x] && backing[x] != data {
        assert backing[x] != mine;
      }
      Put(ws, data, n);
    }

    /** hits[ws] = data[:n] */
    method Put(ws: UUID, data: array<Time>, n: nat)
      requires limit > 0 && times.Keys == backing.Keys == used.Keys && n <= data.Length
      requires forall x | x in backing && x != ws ::
                 used[x] <= backing[x].Length && backing[x][..used[x]] == times[x] && backing[x] != data
      requires forall x, y | x in backing && y in backing && x != y :: backing[x] != backing[y]
      modifies this
      ensures Valid() && backing == old(backing)[ws := data] && times == old(times)[ws := data[..n]]
    {
      backing := backing[ws := data];
      used := used[ws := n];
      times := times[ws := data[..n]];
    }

    /** The decision on one workspace's slice: compact in place, then refuse, or append the new grant. */
    method Renew(data: array<Time>, n: nat, now: Time) returns (data': array<Time>, n': nat, ok: bool)
      requires n <= data.Length
      modifies data
      ensures n' <= data'.Length && (data' == data || fresh(data'))
      ensures (data'[..n'], ok) == Decide(old(data[..n]), window, limit, now)
    {
      var kept := Compact(data, n, now - window);
      if kept >= limit {
        return data, kept, false;
      }
      data' := Append(data, kept, now);
      return data', kept + 1, true;
    }
  }

  /** append: in place while there is capacity, else into a larger array with the same front. */
  method Append(data: array<Time>, n: nat, t: Time) returns (result: array<Time>)
    requires n <= data.Length
    modifies data
    ensures result == data || fresh(result)
    ensures n < result.Length && result[..n + 1] == old(data[..n]) + [t]
  {
    result := data;
    if n == data.Length {
      result := new Time[2 * n + 1];
      for i := 0 to n
        invariant result[..i] == data[..i] && data[..] == old(data[..])
      {
        result[i] := data[i];
      }
    }
    result[n] := t;
    assert result[..n + 1] == result[..n] + [t];
  }

  // ---------------------------------------------------------------- every run

  /** The kept times after a run of calls, and the times at which calls were granted. */
  function Run(window: Time, limit: int, calls: seq<Time>): (seq<Time>, seq<Time>) {
    if calls == [] then ([], [])
    else
      var now := calls[|calls| - 1];
      var (hits, granted) := Run(window, limit, calls[..|calls| - 1]);
      var (kept, ok) := Decide(hits, window, limit, now);
      (kept, if ok then granted + [now] else granted)
  }

  predicate Ordered(times: seq<Time>) {
    forall i, j | 0 <= i <= j < |times| :: times[i] <= times[j]
  }

  lemma {:induction false} AfterAppend(a: seq<Time>, x: Time, cutoff: Time)
    ensures After(a + [x], cutoff) == After(a, cutoff) + (if x > cutoff then [x] else [])
  {
    assert (a + [x])[..|a|] == a;
  }

  /** Filtering twice is filtering by the later cutoff. */
  lemma {:induction false} AfterAfter(a: seq<Time>, c: Time, d: Time)
    requires c <= d
    ensures After(After(a, c), d) == After(a, d)
  {
    if a != [] {
      var init, x := a[..|a| - 1], a[|a| - 1];
      AfterAfter(init, c, d);
      AfterAppend(After(init, c), x, d);
      assert After(a, c) == if x > c then After(init, c) + [x] else After(init, c);
    }
  }

  /**
   * With a clock that does not go back, what the throttle keeps after a call at time t is exactly the
   * granted times in (t - window, t]: compaction drops no live grant and keeps no dead one.
   */
  lemma {:induction false} KeptAreTheLiveGrants(window: Time, limit: int, calls: seq<Time>)
    requires Ordered(calls) && calls != [] && window > 0
    ensures var t := calls[|calls| - 1];
            Run(window, limit, calls).0 == After(Run(window, limit, calls).1, t - window)
  {
    hide Ordered, After;
    var n := |calls| - 1;
    var now := calls[n];
    var (hits, granted) := Run(window, limit, calls[..n]);
    if n > 0 {
      OrderedPrefix(calls, n);
      KeptAreTheLiveGrants(window, limit, calls[..n]);
      AfterAfter(granted, calls[..n][n - 1] - window, now - window);
    }
    AfterAppend(granted, now, now - window);
  }

  lemma OrderedPrefix(calls: seq<Time>, n: nat)
    requires Ordered(calls) && 0 < n < |calls|
    ensures Ordered(calls[..n]) && calls[..n][n - 1] <= calls[n]
  {
  }

  function In(times: seq<Time>, low: Time, high: Time): nat {
    if times == [] then 0
    else In(times[..|times| - 1], low, high) + (if low < times[|times| - 1] <= high then 1 else 0)
  }

  lemma {:induction false} InIsAfter(times: seq<Time>, low: Time, high: Time)
    requires forall i | 0 <= i < |times| :: times[i] <= high
    ensures In(times, low, high) == |After(times, low)|
  {
    if times != [] { InIsAfter(times[..|times| - 1], low, high); }
  }

  lemma {:induction false} GrantsAreCalls(window: Time, limit: int, calls: seq<Time>, t: Time)
    requires forall i | 0 <= i < |calls| :: calls[i] <= t
    ensures forall i | 0 <= i < |Run(window, limit, calls).1| :: Run(window, limit, calls).1[i] <= t
  {
    if calls != [] { GrantsAreCalls(window, limit, calls[..|calls| - 1], t); }
  }

  /**
   * With a clock that does not go back, a call at t is granted exactly if fewer than limit grants so
   * far lie in (t - window, t]; the grants then grow by t, and otherwise stay as they were.
   */
  lemma GrantedIff(window: Time, limit: int, calls: seq<Time>)
    requires Ordered(calls) && calls != [] && window > 0
    ensures var t, before := calls[|calls| - 1], Run(window, limit, calls[..|calls| - 1]).1;
            Run(window, limit, calls).1 == if In(before, t - window, t) < limit then before + [t] else before
  {
    hide Ordered, After, In;
    var n := |calls| - 1;
    var t := calls[n];
    var (hits, granted) := Run(window, limit, calls[..n]);
    if n > 0 {
      OrderedPrefix(calls, n);
      KeptAreTheLiveGrants(window, limit, calls[..n]);
      AfterAfter(granted, calls[..n][n - 1] - window, t - window);
      OrderedBelow(calls, n);
    }
    GrantsAreCalls(window, limit, calls[..n], t);
    InIsAfter(granted, t - window, t);
  }

  lemma OrderedBelow(calls: seq<Time>, n: nat)
    requires Ordered(calls) && n < |calls|
    ensures forall i | 0 <= i < n :: calls[..n][i] <= calls[n]
  {
  }

  /** Over the whole run, no interval (t - window, t] holds more than limit grants. */
  lemma {:induction false} NeverOverTheLimit(window: Time, limit: nat, calls: seq<Time>, t: Time)
    requires Ordered(calls) && window > 0
    ensures In(Run(window, limit, calls).1, t - window, t) <= limit
  {
    hide Ordered;
    if calls != [] {
      var n := |calls| - 1;
      var now := calls[n];
      if n > 0 { OrderedPrefix(calls, n); } else { assert calls[..0] == []; assert Ordered(calls[..0]) by { EmptyOrdered(); } }
      NeverOverTheLimit(window, limit, calls[..n], t);
      var (hits, granted) := Run(window, limit, calls[..n]);
      var (kept, ok) := Decide(hits, window, limit, now);
      if ok && t - window < now <= t {
        LastGrant(window, limit, calls, t);
      }
    }
  }

  lemma EmptyOrdered()
    ensures Ordered([])
  {
  }

  /** The newest grant is in the interval: then the grants there are among those just kept. */
  lemma LastGrant(window: Time, limit: nat, calls: seq<Time>, t: Time)
    requires Ordered(calls) && calls != [] && window > 0
    requires calls[|calls| - 1] <= t && Decide(Run(window, limit, calls[..|calls| - 1]).0, window, limit, calls[|calls| - 1]).1
    ensures In(Run(window, limit, calls).1, t - window, t) <= limit
  {
    var now := calls[|calls| - 1];
    var granted := Run(window, limit, calls).1;
    KeptAreTheLiveGrants(window, limit, calls);
    GrantsAreCalls(window, limit, calls, t);
    InIsAfter(granted, t - window, t);
    AfterAfter(granted, now - window, t - window);
    AfterShorter(After(granted, now - window), t - window);
  }

  lemma {:induction false} AfterShorter(a: seq<Time>, c: Time)
    ensures |After(a, c)| <= |a|
  {
    if a != [] { AfterShorter(a[..|a| - 1], c); }
  }
}
