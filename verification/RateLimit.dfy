/** The fixed-window rate limiter and its bounded table of windows. */
module RateLimit {
  import opened Sets
  import opened BoundedTables

  const MAX_KEYS := 65536
  const SWEEP_BATCH := 4096
  const SWEEP_THRESHOLD := MAX_KEYS - SWEEP_BATCH

  datatype Rule = Rule(window: int, max: int)

  datatype Entry = Entry(start: Time, count: int, window: int)
  {
    predicate Elapsed(now: Time) {
      now - start >= window
    }
  }

  type Windows = map<string, Entry>

  function StartOf(windows: Windows): map<string, Time> {
    map k | k in windows :: windows[k].start
  }

  function Running(windows: Windows, now: Time): Windows {
    map k | k in windows && !windows[k].Elapsed(now) :: windows[k]
  }

  /** What a sweep leaves: the running windows, or all but a batch of the oldest of them. */
  ghost predicate Swept(windows: Windows, now: Time, left: Windows) {
    if |Running(windows, now)| < SWEEP_THRESHOLD then left == Running(windows, now)
    else exists gone :: OldestOf(StartOf(Running(windows, now)), SWEEP_BATCH, gone) && left == Without(Running(windows, now), gone)
  }

  /** A call for a key whose window is known: the window afterwards, and the answer. */
  function Counted(e: Entry, rule: Rule, now: Time): (Entry, bool) {
    if e.Elapsed(now) then (Entry(now, 1, rule.window), true)
    else if e.count >= rule.max then (e, false)
    else (e.(count := e.count + 1), true)
  }

  class RateLimiter {
    var windows: Windows
    var lastSweep: Time
    const sweepInterval: int

    ghost predicate Valid()
      reads this
    {
      |windows| <= SWEEP_THRESHOLD
    }

    constructor (now: Time, sweepInterval: int)
      ensures Valid() && windows == map[] && lastSweep == now && this.sweepInterval == sweepInterval
    {
      windows, lastSweep, this.sweepInterval := map[], now, sweepInterval;
    }

    /** Only a new key can grow the table, and it sweeps first when it is time or the table is near its bound. */
    method Allow(key: string, rule: Rule, now: Time) returns (ok: bool, ghost left: Windows)
      requires Valid()
      modifies this
      ensures Valid()
      // A known key: a new window if its own is over, one more call in it up to the maximum, or a refusal.
      ensures key in old(windows) ==>
                var w := old(windows)[key];
                && lastSweep == old(lastSweep)
                && if now - w.start >= w.window then ok && windows == old(windows)[key := Entry(now, 1, rule.window)]
                   else if w.count < rule.max then ok && windows == old(windows)[key := Entry(w.start, w.count + 1, w.window)]
                   else !ok && windows == old(windows)
      ensures key in old(windows) ==> (windows[key], ok) == Counted(old(windows)[key], rule, now)
      ensures key !in old(windows) ==>
                var sweeps := now - old(lastSweep) >= sweepInterval || |old(windows)| >= SWEEP_THRESHOLD;
                && ok && windows == left[key := Entry(now, 1, rule.window)]
                && (if sweeps then Swept(old(windows), now, left) else left == old(windows))
                && lastSweep == (if sweeps then now else old(lastSweep))
                && (forall k | k in windows && k != key :: k in old(windows) && windows[k] == old(windows)[k])
                && (forall k | k in windows && k != key && sweeps :: now - windows[k].start < windows[k].window)
    {
      left := windows;
      if key !in windows {
        if now - lastSweep >= sweepInterval || |windows| >= SWEEP_THRESHOLD {
          lastSweep := now;
          Sweep(now);
          left := windows;
        }
        OneMore(windows, key, Entry(now, 1, rule.window));
        windows := windows[key := Entry(now, 1, rule.window)];
        return true, left;
      }
      var w := windows[key];
      OneMore(windows, key, Counted(w, rule, now).0);
      if now - w.start >= w.window {
        windows := windows[key := Entry(now, 1, rule.window)];
        return true, left;
      }
      if w.count >= rule.max {
        assert windows == windows[key := w];
        return false, left;
      }
      windows := windows[key := w.(count := w.count + 1)];
      ok := true;
    }

    method DropElapsed(now: Time)
      requires Valid()
      modifies this`windows
      ensures windows == Running(old(windows), now) && |windows| <= |old(windows)|
      ensures |windows| == |old(windows)| ==> windows == old(windows)
    {
      var left := windows.Keys;
      while left != {}
        invariant left <= windows.Keys <= old(windows).Keys
        invariant forall k | k in windows :: windows[k] == old(windows)[k]
        invariant forall k | k in old(windows) :: k in windows <==> k in left || k in Running(old(windows), now)
        decreases left
      {
        var k :| k in left;
        left := left - {k};
        if now - windows[k].start >= windows[k].window {
          windows := windows - {k};
        }
      }
      assert windows == Running(old(windows), now);
      FewerKeys(windows, old(windows));
      SameSize(windows, old(windows));
    }

    /** Drops elapsed windows, and under pressure the oldest running ones; leaves room for one more key. */
    method Sweep(now: Time)
      requires Valid()
      modifies this`windows
      ensures |windows| < SWEEP_THRESHOLD && Swept(old(windows), now, windows)
      ensures forall k | k in windows :: k in old(windows) && windows[k] == old(windows)[k] && now - windows[k].start < windows[k].window
      // A running window goes only from a full table, with 4095 others, and none of them younger than one that stays.
      ensures forall h | h in old(windows) && now - old(windows)[h].start < old(windows)[h].window && h !in windows ::
                && |old(windows)| == 61440 && |windows| == 61440 - 4096
                && forall k | k in windows :: old(windows)[h].start <= windows[k].start
    {
      hide OldestOf;
      DropElapsed(now);
      if |windows| < SWEEP_THRESHOLD {
        return;
      }
      ghost var before := windows;
      var oldest := SelectOldest(StartOf(windows), SWEEP_BATCH);
      for i := 0 to |oldest|
        invariant windows == Without(before, oldest[..i])
      {
        assert oldest[..i + 1] == oldest[..i] + [oldest[i]];
        windows := windows - {oldest[i]};
      }
      assert oldest[..|oldest|] == oldest;
      DeletedSize(before, StartOf(before), SWEEP_BATCH, oldest);
      OldestGone(StartOf(before), SWEEP_BATCH, oldest);
    }
  }

  /** A part of a table as large as the table is the table. */
  lemma SameSize(part: Windows, whole: Windows)
    requires part.Keys <= whole.Keys && forall k | k in part :: part[k] == whole[k]
    ensures |part| == |whole| ==> part == whole
  {
    assert |part| == |part.Keys| && |whole| == |whole.Keys|;
    if k :| k in whole && k !in part { ProperSubsetSize(part.Keys, whole.Keys, k); }
  }

  // ---------------------------------------------------------------- one window

  /** How many of a run of calls, at the given times, are let through, starting from the window e. */
  function Granted(e: Entry, rule: Rule, times: seq<Time>): nat
    decreases |times|
  {
    if times == [] then 0
    else
      var (e', ok) := Counted(e, rule, times[0]);
      (if ok then 1 else 0) + Granted(e', rule, times[1..])
  }

  function Allowance(e: Entry, rule: Rule): int {
    if e.count >= rule.max then 0 else rule.max - e.count
  }

  /** While a window runs, its calls are let through until the rule's maximum is reached, and then none is. */
  lemma {:induction false} WindowIsCapped(e: Entry, rule: Rule, times: seq<Time>)
    requires forall i | 0 <= i < |times| :: !e.Elapsed(times[i])
    ensures Granted(e, rule, times) == if |times| <= Allowance(e, rule) then |times| else Allowance(e, rule)
    decreases |times|
  {
    if times != [] {
      var e' := Counted(e, rule, times[0]).0;
      assert forall i | 0 <= i < |times[1..]| :: times[1..][i] == times[i + 1];
      WindowIsCapped(e', rule, times[1..]);
    }
  }
}
