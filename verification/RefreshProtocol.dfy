/**
 * Refresh-token rotation by families (section 10.4 of RFC 6749, section 4.14.2 of RFC 9700). A
 * refresh looks its token up, marks it used, and grants a successor: three transactions on the token
 * table, and other requests may run in between. A token, its hash and its id are one name here: ids
 * are random and every token carries its own, so hashing keeps them apart.
 */
module RefreshProtocol {
  type Time = int

  datatype Token = Token(id: string, family: string, user: string, created: Time, expires: Time, revoked: bool, used: bool)
  {
    /** Neither used nor revoked: still exchangeable. */
    predicate Live() {
      !used && !revoked
    }
  }

  type Tokens = map<string, Token>

  datatype Refresher =
    | Idle
    | Looked(t: Token)   // looked up, found live
    | Marked(t: Token)   // marked used, successor not yet granted

  /** issued: every id ever drawn, with the family it was drawn for. exchanged: the tokens marked used by a refresh, in order. */
  datatype System = System(tokens: Tokens, procs: map<nat, Refresher>, issued: map<string, string>, exchanged: seq<string>)

  const START := System(map[], map[], map[], [])

  /** Thirty days, in seconds. */
  const TTL := 30 * 24 * 60 * 60

  datatype Action =
    | Login(id: string, user: string, now: Time)
    | Look(p: nat, id: string, now: Time)
    | Mark(p: nat)
    | Grant(p: nat, id: string, user: string, now: Time)
    | Logout(id: string)
    | Evict(gone: set<string>)
    | Crash(p: nat)

  function ProcOf(s: System, p: nat): Refresher {
    if p in s.procs then s.procs[p] else Idle
  }

  function NewToken(id: string, family: string, user: string, now: Time): Token {
    Token(id, family, user, now, now + TTL, false, false)
  }

  function Revoked(tokens: Tokens, id: string): Tokens {
    if id in tokens then tokens[id := tokens[id].(revoked := true)] else tokens
  }

  function FamilyRevoked(tokens: Tokens, family: string): Tokens {
    if family == "" then tokens
    else map h | h in tokens :: if tokens[h].family == family then tokens[h].(revoked := true) else tokens[h]
  }

  /** The successor stays in the family; a token from before families started one with its own id. */
  function Heir(t: Token): string {
    if t.family == "" then t.id else t.family
  }

  /** An action that is not enabled changes nothing. Reuse is detected, and the family revoked, at the look. */
  function Step(s: System, a: Action): System {
    match a
    case Login(id, user, now) =>
      if id == "" || id in s.issued then s
      else s.(tokens := s.tokens[id := NewToken(id, id, user, now)], issued := s.issued[id := id])
    case Look(p, id, now) =>
      if ProcOf(s, p) != Idle || id !in s.tokens then s
      else
        var t := s.tokens[id];
        if t.used then s.(tokens := FamilyRevoked(s.tokens, t.family))
        else if t.revoked || now > t.expires then s
        else s.(procs := s.procs[p := Looked(t)])
    case Mark(p) =>
      if !ProcOf(s, p).Looked? then s
      else
        var t := ProcOf(s, p).t.(used := true, revoked := true);
        s.(tokens := s.tokens[t.id := t], procs := s.procs[p := Marked(t)], exchanged := s.exchanged + [t.id])
    case Grant(p, id, user, now) =>
      if !ProcOf(s, p).Marked? || id == "" || id in s.issued then s
      else s.(tokens := s.tokens[id := NewToken(id, Heir(ProcOf(s, p).t), user, now)],
              procs := s.procs[p := Idle], issued := s.issued[id := Heir(ProcOf(s, p).t)])
    case Logout(id) =>
      s.(tokens := Revoked(s.tokens, id))
    case Evict(gone) =>
      s.(tokens := s.tokens - gone)
    case Crash(p) =>
      s.(procs := s.procs[p := Idle])
  }

  function Run(s: System, acts: seq<Action>): System {
    if acts == [] then s else Step(Run(s, acts[..|acts| - 1]), acts[|acts| - 1])
  }

  function At(acts: seq<Action>, i: nat): System
    requires i <= |acts|
  {
    Run(START, acts[..i])
  }

  // ---------------------------------------------------------------- overlapping refreshes

  /** A refresh is under way in this family. */
  predicate Busy(s: System, family: string) {
    exists p | p in s.procs :: !s.procs[p].Idle? && s.procs[p].t.family == family
  }

  /** The look starts a refresh: by an idle process, at a token that is held, live and not past its expiry. */
  predicate StartsRefresh(s: System, a: Action) {
    a.Look? && ProcOf(s, a.p) == Idle && a.id in s.tokens && s.tokens[a.id].Live() && a.now <= s.tokens[a.id].expires
  }

  /** No refresh of a family starts while another of the same family is under way. */
  predicate SerialStep(s: System, a: Action) {
    StartsRefresh(s, a) ==> !Busy(s, s.tokens[a.id].family)
  }

  predicate SerialUpTo(acts: seq<Action>, n: nat)
    requires n <= |acts|
  {
    forall i | 0 <= i < n :: SerialStep(At(acts, i), acts[i])
  }

  predicate SerialRun(acts: seq<Action>) {
    SerialUpTo(acts, |acts|)
  }

  /** The same of a continuation from s. */
  predicate SerialFrom(s: System, ext: seq<Action>) {
    forall i | 0 <= i < |ext| :: SerialStep(Run(s, ext[..i]), ext[i])
  }

  /** Refreshes under way may finish, but none starts and no token is presented. */
  predicate Lookless(ext: seq<Action>) {
    forall i | 0 <= i < |ext| :: !ext[i].Look?
  }

  // ---------------------------------------------------------------- the invariant

  /** The copy or row names the family its id was drawn for. */
  predicate Genuine(s: System, t: Token) {
    t.id != "" && t.id in s.issued && s.issued[t.id] == t.family && t.family in s.issued && t.family != ""
  }

  predicate TokenOk(s: System, id: string, t: Token) {
    && t.id == id && Genuine(s, t)
    && (t.used ==> t.revoked)
    && (id in s.exchanged ==> t.used)
  }

  predicate ProcOk(s: System, q: Refresher) {
    match q
    case Idle => true
    case Looked(t) => Genuine(s, t) && t.id !in s.exchanged
    case Marked(t) => Genuine(s, t) && t.id in s.exchanged
  }

  /** Live tokens of one family are one token; while a refresh is under way it is the one looked up, or none. */
  ghost predicate OneLive(s: System) {
    && (forall a, b | a in s.tokens && b in s.tokens && s.tokens[a].Live() && s.tokens[b].Live()
                      && s.tokens[a].family == s.tokens[b].family :: a == b)
    && (forall p, a | p in s.procs && a in s.tokens && s.tokens[a].Live() && !s.procs[p].Idle?
                      && s.procs[p].t.family == s.tokens[a].family :: s.procs[p].Looked? && s.procs[p].t.id == a)
    && (forall p, q | p in s.procs && q in s.procs && !s.procs[p].Idle? && !s.procs[q].Idle?
                      && s.procs[p].t.family == s.procs[q].t.family :: p == q)
  }

  ghost predicate Distinct(ids: seq<string>) {
    forall i, j | 0 <= i < j < |ids| :: ids[i] != ids[j]
  }

  ghost predicate Inv(s: System) {
    && (forall id | id in s.tokens :: TokenOk(s, id, s.tokens[id]))
    && (forall p | p in s.procs :: ProcOk(s, s.procs[p]))
    && (forall id | id in s.exchanged :: id in s.issued)
    && OneLive(s)
    && Distinct(s.exchanged)
  }

  lemma LoginKeepsInv(s: System, id: string, user: string, now: Time)
    requires Inv(s)
    ensures Inv(Step(s, Login(id, user, now)))
  {
  }

  lemma LookKeepsInv(s: System, p: nat, id: string, now: Time)
    requires Inv(s) && SerialStep(s, Look(p, id, now))
    ensures Inv(Step(s, Look(p, id, now)))
  {
    hide OneLive, FamilyRevoked;
    if id in s.tokens && s.tokens[id].used { RevokeKeepsInv(s, s.tokens[id].family); }
    if StartsRefresh(s, Look(p, id, now)) { LookKeepsOneLive(s, p, id); }
  }

  lemma LookKeepsOneLive(s: System, p: nat, id: string)
    requires Inv(s) && id in s.tokens && s.tokens[id].Live() && !Busy(s, s.tokens[id].family)
    ensures OneLive(s.(procs := s.procs[p := Looked(s.tokens[id])]))
  {
  }

  lemma RevokeKeepsInv(s: System, family: string)
    requires Inv(s)
    ensures Inv(s.(tokens := FamilyRevoked(s.tokens, family)))
  {
  }

  lemma MarkKeepsInv(s: System, p: nat)
    requires Inv(s)
    ensures Inv(Step(s, Mark(p)))
  {
  }

  lemma GrantKeepsInv(s: System, p: nat, id: string, user: string, now: Time)
    requires Inv(s)
    ensures Inv(Step(s, Grant(p, id, user, now)))
  {
    hide OneLive;
    if ProcOf(s, p).Marked? && id !in s.issued { GrantKeepsOneLive(s, p, id, user, now); }
  }

  lemma GrantKeepsOneLive(s: System, p: nat, id: string, user: string, now: Time)
    requires Inv(s) && ProcOf(s, p).Marked? && id !in s.issued
    ensures OneLive(Step(s, Grant(p, id, user, now)))
  {
    hide Distinct;
  }

  lemma LogoutKeepsInv(s: System, id: string)
    requires Inv(s)
    ensures Inv(Step(s, Logout(id)))
  {
  }

  lemma EvictKeepsInv(s: System, gone: set<string>)
    requires Inv(s)
    ensures Inv(Step(s, Evict(gone)))
  {
  }

  lemma CrashKeepsInv(s: System, p: nat)
    requires Inv(s)
    ensures Inv(Step(s, Crash(p)))
  {
  }

  lemma StepKeepsInv(s: System, a: Action)
    requires Inv(s) && SerialStep(s, a)
    ensures Inv(Step(s, a))
  {
    hide Inv, Step;
    match a
    case Login(id, user, now) => LoginKeepsInv(s, id, user, now);
    case Look(p, id, now) => LookKeepsInv(s, p, id, now);
    case Mark(p) => MarkKeepsInv(s, p);
    case Grant(p, id, user, now) => GrantKeepsInv(s, p, id, user, now);
    case Logout(id) => LogoutKeepsInv(s, id);
    case Evict(gone) => EvictKeepsInv(s, gone);
    case Crash(p) => CrashKeepsInv(s, p);
  }

  lemma {:induction false} Reachable(acts: seq<Action>, n: nat)
    requires n <= |acts| && SerialUpTo(acts, n)
    ensures Inv(At(acts, n))
    decreases n
  {
    hide Inv, Step;
    if n == 0 {
      StartInv();
    } else {
      Reachable(acts, n - 1);
      Unrolled(acts, n - 1);
      StepKeepsInv(At(acts, n - 1), acts[n - 1]);
    }
  }

  lemma StartInv()
    ensures Inv(START)
  {
  }

  lemma Unrolled(acts: seq<Action>, i: nat)
    requires i < |acts|
    ensures At(acts, i + 1) == Step(At(acts, i), acts[i])
  {
    hide Step;
    assert acts[..i + 1][..i] == acts[..i];
  }

  // ---------------------------------------------------------------- what every serial run keeps

  /** Whatever has been evicted: a family never has two tokens that could still be exchanged. */
  lemma OneLiveTokenPerFamily(acts: seq<Action>, n: nat, a: string, b: string)
    requires SerialRun(acts) && n <= |acts|
    requires a in At(acts, n).tokens && b in At(acts, n).tokens
    requires At(acts, n).tokens[a].Live() && At(acts, n).tokens[b].Live() && At(acts, n).tokens[a].family == At(acts, n).tokens[b].family
    ensures a == b
  {
    Reachable(acts, n);
  }

  lemma NoTokenIsExchangedTwice(acts: seq<Action>, n: nat)
    requires SerialRun(acts) && n <= |acts|
    ensures Distinct(At(acts, n).exchanged)
  {
    Reachable(acts, n);
  }

  /** The action at i grants a new token of the family. */
  predicate Yields(acts: seq<Action>, i: nat, family: string)
    requires i < |acts|
  {
    exists id | id in At(acts, i + 1).tokens :: id !in At(acts, i).tokens && At(acts, i + 1).tokens[id].Live()
                                                && At(acts, i + 1).tokens[id].family == family
  }

  /** Nothing of the family can be exchanged any more. */
  ghost predicate Dead(s: System, family: string) {
    && family in s.issued
    && (forall id | id in s.tokens && s.tokens[id].family == family :: !s.tokens[id].Live())
    && !Busy(s, family)
  }

  lemma DeadStaysDead(s: System, a: Action, family: string)
    requires Inv(s) && Dead(s, family)
    ensures Dead(Step(s, a), family)
  {
    hide OneLive;
  }

  lemma ReuseKills(s: System, p: nat, id: string, now: Time)
    requires Inv(s) && id in s.tokens && s.tokens[id].used && !Busy(s, s.tokens[id].family) && ProcOf(s, p) == Idle
    ensures Dead(Step(s, Look(p, id, now)), s.tokens[id].family)
  {
    hide OneLive;
  }

  /**
   * Once a used token that the table still holds is presented again, while no refresh of its family is
   * under way, the family is dead: at every later moment of the run none of its tokens can be
   * exchanged, and no step yields a new one.
   */
  lemma {:induction false} ReuseEndsTheFamily(acts: seq<Action>, i: nat, j: nat)
    requires SerialRun(acts) && i < j <= |acts| && acts[i].Look? && ProcOf(At(acts, i), acts[i].p) == Idle
    requires acts[i].id in At(acts, i).tokens && At(acts, i).tokens[acts[i].id].used
    requires !Busy(At(acts, i), At(acts, i).tokens[acts[i].id].family)
    ensures var f := At(acts, i).tokens[acts[i].id].family;
            Dead(At(acts, j), f) && (j < |acts| ==> !Yields(acts, j, f))
    decreases j
  {
    hide Inv, Step, Dead, At;
    var f := At(acts, i).tokens[acts[i].id].family;
    Reachable(acts, j - 1);
    Unrolled(acts, j - 1);
    if j == i + 1 {
      ReuseKills(At(acts, i), acts[i].p, acts[i].id, acts[i].now);
    } else {
      ReuseEndsTheFamily(acts, i, j - 1);
      DeadStaysDead(At(acts, j - 1), acts[j - 1], f);
    }
    if j < |acts| {
      Reachable(acts, j);
      Unrolled(acts, j);
      DeadStaysDead(At(acts, j), acts[j], f);
      DeadYieldsNothing(acts, j, f);
    }
  }

  lemma DeadYieldsNothing(acts: seq<Action>, j: nat, family: string)
    requires j < |acts| && Dead(At(acts, j + 1), family)
    ensures !Yields(acts, j, family)
  {
    hide At;
  }

  // ---------------------------------------------------------------- exactly when refreshes keep their promises

  lemma RunMore(s: System, ext: seq<Action>, a: Action)
    ensures Run(s, ext + [a]) == Step(Run(s, ext), a)
  {
    hide Step;
    assert (ext + [a])[..|ext|] == ext;
  }

  lemma {:induction false} LooklessKeepsInv(s: System, ext: seq<Action>)
    requires Inv(s) && Lookless(ext)
    ensures Inv(Run(s, ext))
  {
    hide Inv, Step, Busy;
    if ext != [] {
      LooklessKeepsInv(s, ext[..|ext| - 1]);
      StepKeepsInv(Run(s, ext[..|ext| - 1]), ext[|ext| - 1]);
    }
  }

  /** No family has two live tokens. */
  ghost predicate AtMostOneLive(tokens: Tokens) {
    forall a, b | a in tokens && b in tokens && tokens[a].Live() && tokens[b].Live() && tokens[a].family == tokens[b].family :: a == b
  }

  /** At every moment of the run, however the refreshes then under way finish, no token is exchanged twice. */
  ghost predicate ExchangesOnce(acts: seq<Action>) {
    forall n: nat, ext | n <= |acts| && Lookless(ext) :: Distinct(Run(At(acts, n), ext).exchanged)
  }

  /** At every moment of the run, however the refreshes then under way finish, no family has two live tokens. */
  ghost predicate KeepsOneLive(acts: seq<Action>) {
    forall n: nat, ext | n <= |acts| && Lookless(ext) :: AtMostOneLive(Run(At(acts, n), ext).tokens)
  }

  /**
   * The lookup and the write that marks a token used are two transactions. Rotation keeps its two
   * promises exactly in the runs in which no refresh of a family starts while another is under way.
   */
  lemma PromisesKeptIffSerial(acts: seq<Action>)
    ensures SerialRun(acts) <==> ExchangesOnce(acts)
    ensures SerialRun(acts) <==> KeepsOneLive(acts)
  {
    hide Inv, At, SerialStep, Distinct, AtMostOneLive;
    if SerialUpTo(acts, |acts|) {
      forall n: nat, ext | n <= |acts| && Lookless(ext)
        ensures Distinct(Run(At(acts, n), ext).exchanged) && AtMostOneLive(Run(At(acts, n), ext).tokens)
      {
        Reachable(acts, n);
        LooklessKeepsInv(At(acts, n), ext);
        InvKeepsPromises(Run(At(acts, n), ext));
      }
    }
    if ExchangesOnce(acts) || KeepsOneLive(acts) { SafeIsSerial(acts, |acts|); }
  }

  lemma InvKeepsPromises(s: System)
    requires Inv(s)
    ensures Distinct(s.exchanged) && AtMostOneLive(s.tokens)
  {
  }

  lemma {:induction false} SafeIsSerial(acts: seq<Action>, n: nat)
    requires n <= |acts| && (ExchangesOnce(acts) || KeepsOneLive(acts))
    ensures SerialUpTo(acts, n)
  {
    hide Inv, At, SerialStep, ExchangesOnce, KeepsOneLive;
    if n > 0 {
      SafeIsSerial(acts, n - 1);
      Reachable(acts, n - 1);
      if !SerialStep(At(acts, n - 1), acts[n - 1]) {
        OverlapBreaks(acts, n - 1);
        assert false;
      }
    }
  }

  lemma OverlapBreaks(acts: seq<Action>, i: nat)
    requires i < |acts| && Inv(At(acts, i)) && !SerialStep(At(acts, i), acts[i])
    ensures !ExchangesOnce(acts) && !KeepsOneLive(acts)
  {
    hide Inv, At, Step;
    Unrolled(acts, i);
    var ext := OverlapForksTheFamily(At(acts, i), acts[i]);
    assert i + 1 <= |acts| && Lookless(ext);
    assert !Distinct(Run(At(acts, i + 1), ext).exchanged);
    assert !AtMostOneLive(Run(At(acts, i + 1), ext).tokens);
  }

  /** From any state where a refresh starts on a family that has one under way, both can finish and fork it. */
  lemma OverlapForksTheFamily(s: System, a: Action) returns (ext: seq<Action>)
    requires Inv(s) && StartsRefresh(s, a) && Busy(s, s.tokens[a.id].family)
    ensures Lookless(ext)
    ensures !Distinct(Run(Step(s, a), ext).exchanged) && !AtMostOneLive(Run(Step(s, a), ext).tokens)
  {
    hide Inv, Step;
    var p := Overlapped(s, a.id);
    var x, y := TwoFresh(s.issued.Keys);
    var s1 := Step(s, a);
    ext := [Mark(p), Mark(a.p), Grant(p, x, "", 0), Grant(a.p, y, "", 0)];
    assert ext == ([Mark(p), Mark(a.p), Grant(p, x, "", 0)] + [Grant(a.p, y, "", 0)]);
    assert [Mark(p), Mark(a.p), Grant(p, x, "", 0)] == [Mark(p), Mark(a.p)] + [Grant(p, x, "", 0)];
    assert [Mark(p), Mark(a.p)] == [Mark(p)] + [Mark(a.p)] && [Mark(p)] == [] + [Mark(p)];
    RunMore(s1, [], Mark(p));
    RunMore(s1, [Mark(p)], Mark(a.p));
    RunMore(s1, [Mark(p), Mark(a.p)], Grant(p, x, "", 0));
    RunMore(s1, [Mark(p), Mark(a.p), Grant(p, x, "", 0)], Grant(a.p, y, "", 0));
    Fork(s, p, a.p, a.id, a.now, x, y);
  }

  /** Whoever is refreshing the family of a live token has looked that token up. */
  lemma Overlapped(s: System, id: string) returns (p: nat)
    requires Inv(s) && id in s.tokens && s.tokens[id].Live() && Busy(s, s.tokens[id].family)
    ensures ProcOf(s, p).Looked? && ProcOf(s, p).t.id == id == s.tokens[id].id && ProcOf(s, p).t.family == s.tokens[id].family != ""
  {
    p :| p in s.procs && !s.procs[p].Idle? && s.procs[p].t.family == s.tokens[id].family;
    assert TokenOk(s, id, s.tokens[id]);
  }

  lemma Fork(s: System, p: nat, q: nat, id: string, now: Time, x: string, y: string)
    requires p != q && StartsRefresh(s, Look(q, id, now)) && s.tokens[id].id == id && s.tokens[id].family != ""
    requires ProcOf(s, p).Looked? && ProcOf(s, p).t.id == id && ProcOf(s, p).t.family == s.tokens[id].family
    requires x != y && x != "" && y != "" && x !in s.issued && y !in s.issued
    ensures var s2 := Step(Step(s, Look(q, id, now)), Mark(p));
            var s' := Step(Step(Step(s2, Mark(q)), Grant(p, x, "", 0)), Grant(q, y, "", 0));
            !Distinct(s'.exchanged) && !AtMostOneLive(s'.tokens)
  {
    hide FamilyRevoked;
    var s1 := Step(s, Look(q, id, now));
    assert s1.procs == s.procs[q := Looked(s.tokens[id])];
    var s3 := Step(Step(s1, Mark(p)), Mark(q));
    assert s3.exchanged == s.exchanged + [id] + [id];
    assert s3.exchanged[|s.exchanged|] == s3.exchanged[|s.exchanged| + 1];
    assert s3.issued == s.issued;
    var s' := Step(Step(s3, Grant(p, x, "", 0)), Grant(q, y, "", 0));
    assert x in s'.tokens && y in s'.tokens && s'.tokens[x].Live() && s'.tokens[y].Live() && s'.tokens[x].family == s'.tokens[y].family;
  }

  /** Ids never run out. */
  lemma TwoFresh(used: set<string>) returns (x: string, y: string)
    ensures x != y && x != "" && y != "" && x !in used && y !in used
  {
    var n := Longer(used);
    x, y := seq(n + 1, _ => 'a'), seq(n + 2, _ => 'a');
    assert |x| == n + 1 && |y| == n + 2;
  }

  lemma {:induction false} Longer(used: set<string>) returns (n: nat)
    ensures forall u | u in used :: |u| <= n
    decreases |used|
  {
    n := 0;
    if used != {} {
      var u :| u in used;
      n := Longer(used - {u});
      if n < |u| { n := |u|; }
    }
  }

  // ---------------------------------------------------------------- exactly when reuse ends a family

  ghost predicate NoneLive(tokens: Tokens, family: string) {
    forall id | id in tokens && tokens[id].family == family :: !tokens[id].Live()
  }

  /**
   * Presenting a used token ends its family, on every serial continuation, exactly when no refresh of
   * the family was under way: one that was can still be granted its successor afterwards.
   */
  lemma ReuseEndsTheFamilyIff(acts: seq<Action>, q: nat, id: string, now: Time)
    requires SerialRun(acts) && ProcOf(Run(START, acts), q) == Idle
    requires id in Run(START, acts).tokens && Run(START, acts).tokens[id].used
    ensures var s := Run(START, acts);
            var s1, f := Step(s, Look(q, id, now)), s.tokens[id].family;
            !Busy(s, f) <==> forall ext | SerialFrom(s1, ext) :: NoneLive(Run(s1, ext).tokens, f)
  {
    hide Inv, Step, Dead, NoneLive, SerialFrom, Busy;
    assert acts[..|acts|] == acts;
    Reachable(acts, |acts|);
    var s := Run(START, acts);
    var s1, f := Step(s, Look(q, id, now)), s.tokens[id].family;
    if Busy(s, f) {
      var ext := LateGrantOutlivesReuse(s, q, id, now);
      assert SerialFrom(s1, ext) && !NoneLive(Run(s1, ext).tokens, f);
    } else {
      ReuseKills(s, q, id, now);
      StepKeepsInv(s, Look(q, id, now)) by { assert !StartsRefresh(s, Look(q, id, now)); }
      forall ext | SerialFrom(s1, ext) ensures NoneLive(Run(s1, ext).tokens, f) {
        DeadForever(s1, ext, f);
        DeadHasNoneLive(Run(s1, ext), f);
      }
    }
  }

  lemma DeadHasNoneLive(s: System, family: string)
    requires Dead(s, family)
    ensures NoneLive(s.tokens, family)
  {
  }

  lemma {:induction false} DeadForever(s: System, ext: seq<Action>, family: string)
    requires Inv(s) && Dead(s, family) && SerialFrom(s, ext)
    ensures Inv(Run(s, ext)) && Dead(Run(s, ext), family)
  {
    hide Inv, Step, Dead, SerialStep;
    if ext != [] {
      var n := |ext| - 1;
      assert forall i | 0 <= i < n :: ext[..n][..i] == ext[..i];
      DeadForever(s, ext[..n], family);
      assert SerialStep(Run(s, ext[..n]), ext[n]);
      StepKeepsInv(Run(s, ext[..n]), ext[n]);
      DeadStaysDead(Run(s, ext[..n]), ext[n], family);
    }
  }

  /** Whether it has marked its token yet or not, a refresh under way outlives the revocation of its family. */
  lemma LateGrantOutlivesReuse(s: System, q: nat, id: string, now: Time) returns (ext: seq<Action>)
    requires Inv(s) && ProcOf(s, q) == Idle && id in s.tokens && s.tokens[id].used && Busy(s, s.tokens[id].family)
    ensures var s1 := Step(s, Look(q, id, now));
            SerialFrom(s1, ext) && !NoneLive(Run(s1, ext).tokens, s.tokens[id].family)
  {
    hide Step, OneLive;
    var s1, f := Step(s, Look(q, id, now)), s.tokens[id].family;
    var p :| p in s.procs && !s.procs[p].Idle? && s.procs[p].t.family == f;
    assert TokenOk(s, id, s.tokens[id]);
    var x, y := TwoFresh(s.issued.Keys);
    LateGrant(s, p, q, id, now, x);
    if s.procs[p].Looked? {
      ext := [Mark(p), Grant(p, x, "", 0)];
      assert ext == ([] + [Mark(p)]) + [Grant(p, x, "", 0)];
      RunMore(s1, [], Mark(p));
      RunMore(s1, [] + [Mark(p)], Grant(p, x, "", 0));
    } else {
      ext := [Grant(p, x, "", 0)];
      assert ext == [] + [Grant(p, x, "", 0)];
      RunMore(s1, [], Grant(p, x, "", 0));
    }
  }

  lemma LateGrant(s: System, p: nat, q: nat, id: string, now: Time, x: string)
    requires ProcOf(s, q) == Idle && id in s.tokens && s.tokens[id].used && x != "" && x !in s.issued
    requires !ProcOf(s, p).Idle? && ProcOf(s, p).t.family == s.tokens[id].family != ""
    ensures var s1, f := Step(s, Look(q, id, now)), s.tokens[id].family;
            && (ProcOf(s, p).Looked? ==> !NoneLive(Step(Step(s1, Mark(p)), Grant(p, x, "", 0)).tokens, f))
            && (ProcOf(s, p).Marked? ==> !NoneLive(Step(s1, Grant(p, x, "", 0)).tokens, f))
  {
    hide FamilyRevoked;
    var s1 := Step(s, Look(q, id, now));
    var s2 := if ProcOf(s, p).Looked? then Step(s1, Mark(p)) else s1;
    var s3 := Step(s2, Grant(p, x, "", 0));
    assert x in s3.tokens && s3.tokens[x].family == s.tokens[id].family && s3.tokens[x].Live();
  }

  /** Both overlaps are reachable: two looks at a first token, and a look at it once it is used. */
  lemma OverlapsHappen()
    ensures var s := Step(Step(START, Login("a", "u", 0)), Look(0, "a", 1));
            "a" in s.tokens && s.tokens["a"].Live() && ProcOf(s, 0) == Looked(s.tokens["a"]) && ProcOf(s, 1) == Idle
    ensures var s := Step(Step(START, Login("a", "u", 0)), Look(0, "a", 1));
            var s' := Step(Step(Step(s, Mark(0)), Grant(0, "b", "u", 1)), Look(0, "b", 2));
            "a" in s'.tokens && s'.tokens["a"].used && ProcOf(s', 0).Looked? && ProcOf(s', 0).t.family == s'.tokens["a"].family
  {
  }
}
