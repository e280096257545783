/**
 * The selection both bounded in-memory tables evict by: the n oldest entries of a map, found in one
 * pass over whatever order the map's iteration happens to take.
 */
module BoundedTables {
  import opened Sets

  type Time = int

  /** min(n, |stamp|) different keys, none newer than a key left out. */
  ghost predicate OldestOf(stamp: map<string, Time>, n: nat, oldest: seq<string>) {
    && |oldest| == (if |stamp| <= n then |stamp| else n)
    && (forall i | 0 <= i < |oldest| :: oldest[i] in stamp)
    && (forall i, j | 0 <= i < j < |oldest| :: oldest[i] != oldest[j])
    && (forall i, k | 0 <= i < |oldest| && k in stamp && k !in oldest :: stamp[oldest[i]] <= stamp[k])
  }

  /** The candidates kept after the keys in done have been seen. */
  ghost predicate Candidates(stamp: map<string, Time>, done: set<string>, n: nat, oldest: seq<string>) {
    && |oldest| == (if |done| <= n then |done| else n)
    && (forall i | 0 <= i < |oldest| :: oldest[i] in done && oldest[i] in stamp)
    && (forall i, j | 0 <= i < j < |oldest| :: oldest[i] != oldest[j])
    && (forall i, k | 0 <= i < |oldest| && k in done && k in stamp && k !in oldest :: stamp[oldest[i]] <= stamp[k])
  }

  method SelectOldest(stamp: map<string, Time>, n: nat) returns (oldest: seq<string>)
    ensures OldestOf(stamp, n, oldest)
  {
    oldest := [];
    if n == 0 || |stamp| == 0 {
      return;
    }
    var left := stamp.Keys;
    ghost var done: set<string> := {};
    while left != {}
      invariant left !! done && left + done == stamp.Keys
      invariant Candidates(stamp, done, n, oldest)
      decreases left
    {
      var h :| h in left;
      left := left - {h};
      if |oldest| < n {
        Grown(stamp, done, n, oldest, h);
        oldest := oldest + [h];
      } else {
        var newest := Newest(stamp, oldest);
        Replaced(stamp, done, n, oldest, h, newest);
        if stamp[h] < stamp[oldest[newest]] { oldest := oldest[newest := h]; }
      }
      done := done + {h};
    }
    assert done == stamp.Keys;
    assert |done| == |stamp|;
  }

  /** The position of the newest candidate. */
  method Newest(stamp: map<string, Time>, oldest: seq<string>) returns (newest: nat)
    requires |oldest| > 0 && forall i | 0 <= i < |oldest| :: oldest[i] in stamp
    ensures newest < |oldest| && forall k | 0 <= k < |oldest| :: stamp[oldest[k]] <= stamp[oldest[newest]]
  {
    newest := 0;
    for i := 1 to |oldest|
      invariant newest < |oldest|
      invariant forall k | 0 <= k < i :: stamp[oldest[k]] <= stamp[oldest[newest]]
    {
      if stamp[oldest[i]] > stamp[oldest[newest]] { newest := i; }
    }
  }

  lemma Grown(stamp: map<string, Time>, done: set<string>, n: nat, oldest: seq<string>, h: string)
    requires Candidates(stamp, done, n, oldest) && |oldest| < n && h in stamp && h !in done
    ensures Candidates(stamp, done + {h}, n, oldest + [h])
  {
    AllSeen(done, oldest);
  }

  /** As long as there is room, every key seen is a candidate. */
  lemma AllSeen(done: set<string>, oldest: seq<string>)
    requires |oldest| == |done| && (forall i | 0 <= i < |oldest| :: oldest[i] in done)
    requires forall i, j | 0 <= i < j < |oldest| :: oldest[i] != oldest[j]
    ensures forall k | k in done :: k in oldest
  {
    var seen := set i | 0 <= i < |oldest| :: oldest[i];
    DistinctSize(oldest);
    forall k | k in done ensures k in oldest {
      if k !in oldest { ProperSubsetSize(seen, done, k); }
    }
  }

  lemma {:induction false} DistinctSize(s: seq<string>)
    requires forall i, j | 0 <= i < j < |s| :: s[i] != s[j]
    ensures |set i | 0 <= i < |s| :: s[i]| == |s|
  {
    if s != [] {
      var init := s[..|s| - 1];
      DistinctSize(init);
      assert (set i | 0 <= i < |s| :: s[i]) == (set i | 0 <= i < |init| :: init[i]) + {s[|s| - 1]};
    }
  }

  lemma Replaced(stamp: map<string, Time>, done: set<string>, n: nat, oldest: seq<string>, h: string, newest: nat)
    requires Candidates(stamp, done, n, oldest) && |oldest| >= n > 0 && h in stamp && h !in done && newest < |oldest|
    requires forall k | 0 <= k < |oldest| :: stamp[oldest[k]] <= stamp[oldest[newest]]
    ensures Candidates(stamp, done + {h}, n, if stamp[h] < stamp[oldest[newest]] then oldest[newest := h] else oldest)
  {
    var oldest' := if stamp[h] < stamp[oldest[newest]] then oldest[newest := h] else oldest;
    forall i, k | 0 <= i < |oldest'| && k in done + {h} && k in stamp && k !in oldest' ensures stamp[oldest'[i]] <= stamp[k] {
      assert stamp[oldest'[i]] <= stamp[oldest[newest]];
      OnlyOneReplaced(oldest, newest, h, k);
      if k in done && k !in oldest { assert stamp[oldest[newest]] <= stamp[k] && stamp[oldest[i]] <= stamp[k]; }
    }
  }

  lemma OnlyOneReplaced(oldest: seq<string>, newest: nat, h: string, k: string)
    requires newest < |oldest|
    ensures k in oldest && k != oldest[newest] ==> k in oldest[newest := h]
  {
    if k in oldest && k != oldest[newest] {
      var j :| 0 <= j < |oldest| && oldest[j] == k;
      assert oldest[newest := h][j] == k;
    }
  }

  /** What is left of a table when the selected keys are deleted. */
  function Without<V>(table: map<string, V>, gone: seq<string>): map<string, V> {
    map k | k in table && k !in gone :: table[k]
  }

  /** Deleting a selection leaves exactly the rest: min(n, |table|) entries fewer. */
  lemma DeletedSize<V>(table: map<string, V>, stamp: map<string, Time>, n: nat, oldest: seq<string>)
    requires stamp.Keys == table.Keys && OldestOf(stamp, n, oldest)
    ensures |Without(table, oldest)| + |oldest| == |table|
  {
    var gone := set i | 0 <= i < |oldest| :: oldest[i];
    DistinctSize(oldest);
    assert Without(table, oldest).Keys == table.Keys - gone;
    assert |table.Keys - gone| == |table.Keys| - |gone| by { assert gone <= table.Keys; assert table.Keys == (table.Keys - gone) + gone; }
    assert |stamp| == |stamp.Keys| && |table| == |table.Keys|;
  }

  lemma OldestGone(stamp: map<string, Time>, n: nat, oldest: seq<string>)
    requires OldestOf(stamp, n, oldest)
    ensures forall h, k | h in oldest && k in stamp && k !in oldest :: h in stamp && stamp[h] <= stamp[k]
  {
    forall h, k | h in oldest && k in stamp && k !in oldest ensures h in stamp && stamp[h] <= stamp[k] {
      var i :| 0 <= i < |oldest| && oldest[i] == h;
    }
  }

  lemma FewerKeys<V, W>(a: map<string, V>, b: map<string, W>)
    requires a.Keys <= b.Keys
    ensures |a| <= |b|
  {
    SubsetSize(a.Keys, b.Keys);
    assert |a| == |a.Keys| && |b| == |b.Keys|;
  }

  lemma OneMore<V>(table: map<string, V>, key: string, v: V)
    ensures |table[key := v]| == if key in table then |table| else |table| + 1
  {
    assert table[key := v].Keys == table.Keys + {key};
    assert |table| == |table.Keys| && |table[key := v]| == |table[key := v].Keys|;
  }
}
