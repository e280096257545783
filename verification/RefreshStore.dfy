/**
 * The in-memory token table, bounded by eviction, and the token service over it. Undisturbed, each
 * call of the service performs the actions of the rotation protocol, with an eviction where the table
 * makes room.
 */
module RefreshStore {
  import opened Wrappers
  import BoundedTables
  import opened RefreshProtocol

  const MAX_RECORDS := 65536
  const EVICT_BATCH := 4096
  const SWEEP_THRESHOLD := MAX_RECORDS - EVICT_BATCH

  /** The records whose expiry has not passed. */
  function Unexpired(tokens: Tokens, now: Time): Tokens {
    map h | h in tokens && !(now > tokens[h].expires) :: tokens[h]
  }

  function CreatedAt(tokens: Tokens): map<string, Time> {
    map h | h in tokens :: tokens[h].created
  }

  /** What a save of rt may leave of the records there: all, the unexpired, or all but a batch of the oldest of those. */
  ghost predicate MakesRoom(tokens: Tokens, rt: Token, now: Time, left: Tokens) {
    if rt.id in tokens || |tokens| < SWEEP_THRESHOLD then left == tokens
    else if |Unexpired(tokens, now)| < SWEEP_THRESHOLD then left == Unexpired(tokens, now)
    else exists gone :: BoundedTables.OldestOf(CreatedAt(Unexpired(tokens, now)), EVICT_BATCH, gone)
                        && left == BoundedTables.Without(Unexpired(tokens, now), gone)
  }

  /** Making room takes only whole records away. */
  lemma RoomIsEviction(tokens: Tokens, rt: Token, now: Time, left: Tokens)
    requires MakesRoom(tokens, rt, now, left)
    ensures left.Keys <= tokens.Keys && left == tokens - (tokens.Keys - left.Keys)
  {
    hide BoundedTables.OldestOf;
  }

  class MemoryRefreshStore {
    var byHash: Tokens

    ghost predicate Valid()
      reads this
    {
      |byHash| <= SWEEP_THRESHOLD
    }

    constructor ()
      ensures Valid() && byHash == map[]
    {
      byHash := map[];
    }

    /** Stores a copy; a table near its bound makes room first, and never grows past the sweep threshold. */
    method Save(rt: Token, now: Time) returns (ok: bool, ghost left: Tokens)
      requires Valid()
      modifies this
      ensures Valid()
      ensures ok == (rt.id != "")
      ensures !ok ==> byHash == old(byHash)
      ensures ok ==> MakesRoom(old(byHash), rt, now, left) && byHash == left[rt.id := rt]
      // Below the threshold, or for a token already there, nothing goes; else the expired go, and live ones only if none was.
      ensures ok && (|old(byHash)| < 61440 || rt.id in old(byHash)) ==> byHash == old(byHash)[rt.id := rt]
      ensures ok ==> forall h | h in old(byHash) && h !in byHash ::
                       now > old(byHash)[h].expires
                       || (|byHash| == 61440 - 4096 + 1 && forall k | k in byHash && k != rt.id :: old(byHash)[h].created <= byHash[k].created)
    {
      left := byHash;
      if rt.id == "" {
        return false, left;
      }
      if rt.id !in byHash && |byHash| >= SWEEP_THRESHOLD {
        EvictExpired(now);
        if |byHash| >= SWEEP_THRESHOLD {
          EvictOldest(EVICT_BATCH);
        }
      }
      left := byHash;
      BoundedTables.OneMore(byHash, rt.id, rt);
      byHash := byHash[rt.id := rt];
      ok := true;
    }

    method Get(h: string) returns (rt: Option<Token>)
      ensures rt == if h in byHash then Some(byHash[h]) else None
    {
      if h !in byHash {
        return None;
      }
      return Some(byHash[h]);
    }

    method Revoke(h: string)
      requires Valid()
      modifies this
      ensures Valid() && byHash == Revoked(old(byHash), h)
      ensures byHash == if h in old(byHash) then old(byHash)[h := old(byHash)[h].(revoked := true)] else old(byHash)
    {
      if h in byHash {
        BoundedTables.OneMore(byHash, h, byHash[h].(revoked := true));
        byHash := byHash[h := byHash[h].(revoked := true)];
      }
    }

    method RevokeFamily(family: string)
      requires Valid()
      modifies this
      ensures Valid() && byHash == FamilyRevoked(old(byHash), family)
      ensures byHash.Keys == old(byHash).Keys
      ensures forall h | h in byHash ::
                byHash[h] == if family != "" && old(byHash)[h].family == family then old(byHash)[h].(revoked := true) else old(byHash)[h]
    {
      if family == "" {
        return;
      }
      var left := byHash.Keys;
      while left != {}
        invariant left <= byHash.Keys && byHash.Keys == old(byHash).Keys
        invariant forall h | h in byHash :: byHash[h] == if h in left then old(byHash)[h] else FamilyRevoked(old(byHash), family)[h]
        decreases left
      {
        var h :| h in left;
        left := left - {h};
        if byHash[h].family == family {
          byHash := byHash[h := byHash[h].(revoked := true)];
        }
      }
      BoundedTables.FewerKeys(byHash, old(byHash));
    }

    method EvictExpired(now: Time)
      requires Valid()
      modifies this
      ensures Valid() && byHash == Unexpired(old(byHash), now)
      ensures forall h :: h in byHash <==> h in old(byHash) && now <= old(byHash)[h].expires
      ensures forall h | h in byHash :: byHash[h] == old(byHash)[h]
    {
      var left := byHash.Keys;
      while left != {}
        invariant left <= byHash.Keys <= old(byHash).Keys
        invariant forall h | h in byHash :: byHash[h] == old(byHash)[h]
        invariant forall h | h in old(byHash) :: h in byHash <==> h in left || h in Unexpired(old(byHash), now)
        decreases left
      {
        var h :| h in left;
        left := left - {h};
        if now > byHash[h].expires {
          byHash := byHash - {h};
        }
      }
      assert byHash == Unexpired(old(byHash), now);
      BoundedTables.FewerKeys(byHash, old(byHash));
    }

    /** Removes exactly min(n, size) records, none created after a survivor, whatever order the map iterates in. */
    method EvictOldest(n: nat)
      requires Valid()
      modifies this
      ensures Valid() && |byHash| == |old(byHash)| - (if |old(byHash)| <= n then |old(byHash)| else n)
      ensures exists gone :: BoundedTables.OldestOf(CreatedAt(old(byHash)), n, gone) && byHash == BoundedTables.Without(old(byHash), gone)
      ensures forall h, k | h in old(byHash) && h !in byHash && k in byHash :: old(byHash)[h].created <= byHash[k].created
    {
      hide BoundedTables.OldestOf;
      if n == 0 || |byHash| == 0 {
        NothingSelected(byHash, n);
        return;
      }
      ghost var before := byHash;
      var oldest := BoundedTables.SelectOldest(CreatedAt(byHash), n);
      for i := 0 to |oldest|
        invariant byHash == BoundedTables.Without(before, oldest[..i])
      {
        assert oldest[..i + 1] == oldest[..i] + [oldest[i]];
        byHash := byHash - {oldest[i]};
      }
      assert oldest[..|oldest|] == oldest;
      BoundedTables.DeletedSize(before, CreatedAt(before), n, oldest);
      BoundedTables.OldestGone(CreatedAt(before), n, oldest);
    }
  }

  lemma NothingSelected(tokens: Tokens, n: nat)
    requires n == 0 || |tokens| == 0
    ensures BoundedTables.OldestOf(CreatedAt(tokens), n, []) && tokens == BoundedTables.Without(tokens, [])
  {
    assert CreatedAt(tokens).Keys == tokens.Keys;
    assert |CreatedAt(tokens)| == |CreatedAt(tokens).Keys| && |tokens| == |tokens.Keys|;
  }

  // ---------------------------------------------------------------- the service

  class JWTService {
    const refreshStore: MemoryRefreshStore

    constructor (refreshStore: MemoryRefreshStore)
      ensures this.refreshStore == refreshStore
    {
      this.refreshStore := refreshStore;
    }

    /** A login starts a family named after its first token. The id is drawn at random: never drawn before. */
    method IssueRefreshToken(user: string, id: string, now: Time, ghost s: System) returns (token: Option<string>, ghost gone: set<string>)
      requires refreshStore.Valid() && s.tokens == refreshStore.byHash && id != "" && id !in s.issued
      modifies refreshStore
      ensures refreshStore.Valid() && token == Some(id)
      ensures refreshStore.byHash == Step(Step(s, Evict(gone)), Login(id, user, now)).tokens
      ensures id in refreshStore.byHash && refreshStore.byHash[id] == Token(id, id, user, now, now + 2592000, false, false)
    {
      token, gone := IssueInFamily(user, id, id, now);
    }

    method IssueInFamily(user: string, id: string, family: string, now: Time) returns (token: Option<string>, ghost gone: set<string>)
      requires refreshStore.Valid() && id != ""
      modifies refreshStore
      ensures refreshStore.Valid() && token == Some(id)
      ensures refreshStore.byHash == (old(refreshStore.byHash) - gone)[id := NewToken(id, family, user, now)]
    {
      hide MakesRoom;
      var rt := Token(id, family, user, now, now + TTL, false, false);
      var ok;
      ghost var left;
      ok, left := refreshStore.Save(rt, now);
      RoomIsEviction(old(refreshStore.byHash), rt, now, left);
      gone := old(refreshStore.byHash).Keys - left.Keys;
      if !ok {
        return None, gone;
      }
      return Some(id), gone;
    }

    /**
     * Rotation. valid: the presented token's signature, issuer and audience were accepted; user: the
     * identity it names. Undisturbed it is a look, and for a live unexpired token a mark and a grant,
     * with an eviction in between when the table was full.
     */
    method Refresh(presented: string, valid: bool, user: string, id: string, now: Time, ghost s: System, ghost p: nat)
      returns (token: Option<string>, ghost gone: set<string>)
      requires refreshStore.Valid() && s.tokens == refreshStore.byHash && ProcOf(s, p) == Idle
      requires id != "" && id !in s.issued && Inv(s)
      modifies refreshStore
      ensures refreshStore.Valid()
      // Exchanged exactly if it is held, neither used nor revoked, and not past its expiry.
      ensures token == if valid && presented in old(refreshStore.byHash) && !old(refreshStore.byHash)[presented].used
                          && !old(refreshStore.byHash)[presented].revoked && now <= old(refreshStore.byHash)[presented].expires
                       then Some(id) else None
      // The successor is the user's, in the same family, for thirty days; the token presented is spent, if it is still held.
      ensures token.Some? ==>
                && id in refreshStore.byHash
                && refreshStore.byHash[id] == Token(id, old(refreshStore.byHash)[presented].family, user, now, now + 2592000, false, false)
                && (presented in refreshStore.byHash ==> refreshStore.byHash[presented].used && refreshStore.byHash[presented].revoked)
      ensures !valid ==> refreshStore.byHash == old(refreshStore.byHash)
      ensures valid && token.None? ==> refreshStore.byHash == Step(s, Look(p, presented, now)).tokens
      ensures token.Some? ==>
                refreshStore.byHash
                == Step(Step(Step(Step(s, Look(p, presented, now)), Mark(p)), Evict(gone)), Grant(p, id, user, now)).tokens
    {
      hide FamilyRevoked, Inv, MakesRoom, Step;
      RefreshUnfolds(s, p, presented, id, user, now);
      gone := {};
      if !valid {
        return None, gone;
      }
      var got := refreshStore.Get(presented);
      if got.None? {
        return None, gone;
      }
      var rt := got.value;
      if rt.used || rt.revoked {
        if rt.used {
          refreshStore.RevokeFamily(rt.family);
        }
        return None, gone;
      }
      if now > rt.expires {
        return None, gone;
      }
      ghost var s2 := Step(Step(s, Look(p, presented, now)), Mark(p));
      var family := rt.family;
      rt := rt.(used := true);
      rt := rt.(revoked := true);
      var ok;
      ghost var left;
      ok, left := refreshStore.Save(rt, now);
      if !ok {
        return None, gone;
      }
      KnownKeepsAll(old(refreshStore.byHash), rt, now, left);
      assert refreshStore.byHash == s2.tokens;
      if family == "" {
        family := rt.id;
      }
      token, gone := IssueInFamily(user, id, family, now);
    }

    /** The actions of a refresh nobody interrupts, unfolded. */
    lemma RefreshUnfolds(s: System, p: nat, presented: string, id: string, user: string, now: Time)
      requires Inv(s) && ProcOf(s, p) == Idle && id != "" && id !in s.issued
      ensures var t := if presented in s.tokens then Some(s.tokens[presented]) else None;
              var s1 := Step(s, Look(p, presented, now));
              if t.Some? && Exchangeable(s.tokens, presented, now)
              then var marked := t.value.(used := true, revoked := true);
                   && t.value.family != "" && presented != id && t.value.id == presented && presented != ""
                   && Step(s1, Mark(p)).tokens == s.tokens[presented := marked]
                   && forall gone :: Step(Step(Step(s1, Mark(p)), Evict(gone)), Grant(p, id, user, now)).tokens
                                     == (s.tokens[presented := marked] - gone)[id := NewToken(id, Heir(marked), user, now)]
              else s1.tokens == if t.Some? && t.value.used then FamilyRevoked(s.tokens, t.value.family) else s.tokens
    {
      hide FamilyRevoked, OneLive;
    }

    lemma KnownKeepsAll(tokens: Tokens, rt: Token, now: Time, left: Tokens)
      requires rt.id in tokens && MakesRoom(tokens, rt, now, left)
      ensures left == tokens
    {
    }

    method VerifyRefreshToken(presented: string, now: Time) returns (ok: bool)
      ensures ok <==> presented in refreshStore.byHash && !refreshStore.byHash[presented].used
                      && !refreshStore.byHash[presented].revoked && now < refreshStore.byHash[presented].expires
    {
      var got := refreshStore.Get(presented);
      if got.None? {
        return false;
      }
      return !got.value.revoked && !got.value.used && now < got.value.expires;
    }

    method RevokeRefreshToken(presented: string, ghost s: System)
      requires refreshStore.Valid() && s.tokens == refreshStore.byHash
      modifies refreshStore
      ensures refreshStore.Valid() && refreshStore.byHash == Step(s, Logout(presented)).tokens
    {
      refreshStore.Revoke(presented);
    }
  }

  /** The table holds the token, unused, unrevoked and not past its expiry. */
  predicate Exchangeable(tokens: Tokens, id: string, now: Time) {
    id in tokens && tokens[id].Live() && !(now > tokens[id].expires)
  }
}
