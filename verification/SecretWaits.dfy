/** What each call to the secret store gives its caller (internal/secret/secret.go): a Get finds what is
    there, a Set is found by those after it, and a Wait that a Set wakes returns what was Set. */
module SecretWaits {
  import opened SecretRuns
  import opened SecretStore
  import opened Wrappers

  /** The step a takes s to m. */
  predicate Steps(s: Sys, a: Action, m: Sys) { WellShaped(s.g) && Enabled(s, a) && m == Apply(s, a) }

  lemma Run1(s: Sys, a: Action, s': Sys)
    requires Steps(s, a, s')
    ensures IsRun(s, [a], s')
  {
    assert [a][1..] == [];
  }

  lemma Run2(s: Sys, a: Action, m: Sys, b: Action, s': Sys)
    requires Steps(s, a, m) && Steps(m, b, s')
    ensures IsRun(s, [a, b], s')
  {
    Run1(m, b, s');
    assert [a, b][1..] == [b];
  }

  lemma Run3(s: Sys, a: Action, m: Sys, b: Action, n: Sys, c: Action, s': Sys)
    requires Steps(s, a, m) && Steps(m, b, n) && Steps(n, c, s')
    ensures IsRun(s, [a, b, c], s')
  {
    Run2(m, b, n, c, s');
    assert [a, b, c][1..] == [b, c];
  }

  lemma Run4(s: Sys, a: Action, m: Sys, b: Action, n: Sys, c: Action, o: Sys, d: Action, s': Sys)
    requires Steps(s, a, m) && Steps(m, b, n) && Steps(n, c, o) && Steps(o, d, s')
    ensures IsRun(s, [a, b, c, d], s')
  {
    Run3(m, b, n, c, o, d, s');
    assert [a, b, c, d][1..] == [b, c, d];
  }

  // ----- A call by itself -----

  /** A Get, and the check that opens a Wait, return the cached value at once. */
  lemma CachedIsReturned(s: Sys, t: Tid, p: Path)
    requires WellShaped(s.g) && t !in s.threads && p in s.g.cache
    ensures IsRun(s, [CallGet(t, p)], s.(returned := s.returned + [(p, s.g.cache[p])]))
    ensures IsRun(s, [CallWait(t, p)], s.(returned := s.returned + [(p, s.g.cache[p])]))
  {
    var s' := s.(returned := s.returned + [(p, s.g.cache[p])]);
    assert s.threads - {t} == s.threads;
    Run1(s, CallGet(t, p), s');
    Run1(s, CallWait(t, p), s');
  }

  lemma GetMisses(s: Sys, t: Tid, p: Path)
    requires WellShaped(s.g) && t !in s.threads && p !in s.g.cache
    ensures Steps(s, CallGet(t, p), Goto(s, t, Reading(p, ForCaller)))
    ensures Steps(s, CallWait(t, p), Goto(s, t, Reading(p, BeforeWait)))
  {
  }

  lemma FoundAfter(s: Sys, t: Tid, pc: Pc, p: Path, why: Purpose, r: Option<string>)
    ensures Found(Goto(s, t, pc), t, p, why, r) == Found(s, t, p, why, r)
  {
    assert s.threads[t := pc] - {t} == s.threads - {t};
    match why
    case AfterWake(ch) => assert s.threads[t := pc][t := Removing(p, ch, r)] == s.threads[t := Removing(p, ch, r)];
    case BeforeWait => assert s.threads[t := pc][t := Registering(p)] == s.threads[t := Registering(p)];
    case _ =>
  }

  lemma Reads(s: Sys, t: Tid, p: Path, why: Purpose, ok: bool)
    requires WellShaped(s.g)
    ensures ok && p in s.keyring ==> Steps(Goto(s, t, Reading(p, why)), ReadKeyring(t, ok),
                                           Goto(s, t, Filling(p, s.keyring[p], why)))
    ensures !(ok && p in s.keyring) ==>
      Steps(Goto(s, t, Reading(p, why)), ReadKeyring(t, ok), Found(s, t, p, why, None))
  {
    FoundAfter(s, t, Reading(p, why), p, why, None);
    assert forall v ::
      Goto(s, t, Reading(p, why)).threads[t := Filling(p, v, why)] == s.threads[t := Filling(p, v, why)];
  }

  lemma Fills(s: Sys, t: Tid, p: Path, v: string, why: Purpose)
    requires WellShaped(s.g)
    ensures Steps(Goto(s, t, Filling(p, v, why)), Fill(t), Found(s.(g := FillCache(s.g, p, v)), t, p, why, Some(v)))
  {
    FoundAfter(s.(g := FillCache(s.g, p, v)), t, Filling(p, v, why), p, why, Some(v));
  }

  /** Without a cached value a Get returns what a readable keyring holds, and caches it; else nothing. */
  lemma KeyringIsAsked(s: Sys, t: Tid, p: Path, ok: bool)
    requires WellShaped(s.g) && t !in s.threads && p !in s.g.cache
    ensures if ok && p in s.keyring
      then IsRun(s, [CallGet(t, p), ReadKeyring(t, ok), Fill(t)],
                 s.(g := s.g.(cache := s.g.cache[p := s.keyring[p]]), returned := s.returned + [(p, s.keyring[p])]))
      else IsRun(s, [CallGet(t, p), ReadKeyring(t, ok)], s)
  {
    var a, b, c := CallGet(t, p), ReadKeyring(t, ok), Fill(t);
    var m := Goto(s, t, Reading(p, ForCaller));
    GetMisses(s, t, p);
    Reads(s, t, p, ForCaller, ok);
    assert s.threads - {t} == s.threads;
    if ok && p in s.keyring {
      var v := s.keyring[p];
      var n := Goto(s, t, Filling(p, v, ForCaller));
      Fills(s, t, p, v, ForCaller);
      Run3(s, a, m, b, n, c, Found(s.(g := FillCache(s.g, p, v)), t, p, ForCaller, Some(v)));
    } else {
      Run2(s, a, m, b, s);
    }
  }

  lemma Joins(s: Sys, t: Tid, p: Path, spare: nat)
    requires WellShaped(s.g)
    ensures var m := Goto(s, t, Registering(p));
      var ch := Chan(t, s.next);
      var s' := Goto(s.(g := Register(s.g, p, ch, spare), next := s.next + 1), t, Blocked(p, ch));
      && Steps(m, JoinWaiters(t, spare), s') && WellShaped(s'.g) && Listed(s'.g, p) == Listed(s.g, p) + [ch]
  {
    var m := Goto(s, t, Registering(p));
    var ch := Chan(t, s.next);
    assert m.threads[t := Blocked(p, ch)] == s.threads[t := Blocked(p, ch)];
    RegisterLists(s.g, p, ch, spare);
  }

  /** A Wait that finds neither is listed behind the others, on an open channel of its own. */
  lemma WaitLinesUp(s: Sys, t: Tid, p: Path, spare: nat) returns (s': Sys)
    requires Inv(s) && t !in s.threads && p !in s.g.cache && p !in s.keyring
    ensures IsRun(s, [CallWait(t, p), ReadKeyring(t, true), JoinWaiters(t, spare)], s')
    ensures WellShaped(s'.g) && Listed(s'.g, p) == Listed(s.g, p) + [Chan(t, s.next)]
    ensures s'.threads == s.threads[t := Blocked(p, Chan(t, s.next))] && Chan(t, s.next) !in s'.closed
    ensures s'.returned == s.returned
  {
    var ch := Chan(t, s.next);
    s' := Goto(s.(g := Register(s.g, p, ch, spare), next := s.next + 1), t, Blocked(p, ch));
    GetMisses(s, t, p);
    Reads(s, t, p, BeforeWait, true);
    Joins(s, t, p, spare);
    Run3(s, CallWait(t, p), Goto(s, t, Reading(p, BeforeWait)), ReadKeyring(t, true), Goto(s, t, Registering(p)),
         JoinWaiters(t, spare), s');
    assert PendingOnce(Abstract(s));
  }

  /** What a Wait leaves behind when it returns: its channel is off its list, and the call is over. */
  lemma Leaves(s: Sys, t: Tid, p: Path, ch: Chan, r: Option<string>) returns (s': Sys)
    requires WellShaped(s.g)
    ensures Steps(Goto(s, t, Removing(p, ch, r)), LeaveWait(t), s') && WellShaped(s'.g)
    ensures t !in s'.threads && Listed(s'.g, p) == Without(Listed(s.g, p), ch)
    ensures s'.returned == s.returned + if r.Some? then [(p, r.value)] else []
  {
    s' := Apply(Goto(s, t, Removing(p, ch, r)), LeaveWait(t));
    RemoveLists(s.g, p, ch);
  }

  lemma Wakes(s: Sys, t: Tid, p: Path, ch: Chan)
    requires WellShaped(s.g) && t in s.threads && s.threads[t] == Blocked(p, ch) && ch in s.closed
    ensures Steps(s, Woken(t), if p in s.g.cache then Goto(s, t, Removing(p, ch, Some(s.g.cache[p])))
                               else Goto(s, t, Reading(p, AfterWake(ch))))
  {
  }

  /** A woken Wait returns the cached value, and is off its list. */
  lemma WokenReturnsCached(s: Sys, t: Tid, p: Path, ch: Chan) returns (s': Sys)
    requires WellShaped(s.g) && t in s.threads && s.threads[t] == Blocked(p, ch) && ch in s.closed && p in s.g.cache
    ensures IsRun(s, [Woken(t), LeaveWait(t)], s') && t !in s'.threads
    ensures WellShaped(s'.g) && Listed(s'.g, p) == Without(Listed(s.g, p), ch)
    ensures s'.returned == s.returned + [(p, s.g.cache[p])]
  {
    var r := Some(s.g.cache[p]);
    Wakes(s, t, p, ch);
    s' := Leaves(s, t, p, ch, r);
    Run2(s, Woken(t), Goto(s, t, Removing(p, ch, r)), LeaveWait(t), s');
  }

  /** Without a cached value it returns what a readable keyring holds. */
  lemma WokenReadsKeyring(s: Sys, t: Tid, p: Path, ch: Chan) returns (s': Sys)
    requires WellShaped(s.g) && t in s.threads && s.threads[t] == Blocked(p, ch) && ch in s.closed
    requires p !in s.g.cache && p in s.keyring
    ensures IsRun(s, [Woken(t), ReadKeyring(t, true), Fill(t), LeaveWait(t)], s') && t !in s'.threads
    ensures s'.returned == s.returned + [(p, s.keyring[p])]
  {
    var v := s.keyring[p];
    var filled := s.(g := FillCache(s.g, p, v));
    Wakes(s, t, p, ch);
    Reads(s, t, p, AfterWake(ch), true);
    Fills(s, t, p, v, AfterWake(ch));
    s' := Leaves(filled, t, p, ch, Some(v));
    Run4(s, Woken(t), Goto(s, t, Reading(p, AfterWake(ch))), ReadKeyring(t, true),
         Goto(s, t, Filling(p, v, AfterWake(ch))), Fill(t), Goto(filled, t, Removing(p, ch, Some(v))), LeaveWait(t),
         s');
  }

  /** With neither, or with an unreadable keyring, it returns nothing. */
  lemma WokenFindsNothing(s: Sys, t: Tid, p: Path, ch: Chan, ok: bool) returns (s': Sys)
    requires WellShaped(s.g) && t in s.threads && s.threads[t] == Blocked(p, ch) && ch in s.closed
    requires p !in s.g.cache && !(ok && p in s.keyring)
    ensures IsRun(s, [Woken(t), ReadKeyring(t, ok), LeaveWait(t)], s') && t !in s'.threads
    ensures s'.returned == s.returned
  {
    Wakes(s, t, p, ch);
    Reads(s, t, p, AfterWake(ch), ok);
    s' := Leaves(s, t, p, ch, None);
    Run3(s, Woken(t), Goto(s, t, Reading(p, AfterWake(ch))), ReadKeyring(t, ok), Goto(s, t, Removing(p, ch, None)),
         LeaveWait(t), s');
  }

  /** A Wait whose context ends returns nothing. */
  lemma CancelledReturnsNothing(s: Sys, t: Tid, p: Path, ch: Chan) returns (s': Sys)
    requires WellShaped(s.g) && t in s.threads && s.threads[t] == Blocked(p, ch)
    ensures IsRun(s, [Cancelled(t), LeaveWait(t)], s') && t !in s'.threads && s'.returned == s.returned
    ensures WellShaped(s'.g) && Listed(s'.g, p) == Without(Listed(s.g, p), ch)
  {
    s' := Leaves(s, t, p, ch, None);
    Run2(s, Cancelled(t), Goto(s, t, Removing(p, ch, None)), LeaveWait(t), s');
  }

  /** From its critical section on a Set is found by any Get that then looks, and by the keyring once it
      has ended with persistence; it leaves nobody listed. */
  lemma SetIsFound(s: Sys, t: Tid, u: Tid, p: Path, v: string)
    requires Inv(s) && t !in s.threads && u !in s.threads && u != t
    ensures var m := Apply(s, CallSet(t, p, v));
      && WellShaped(m.g) && Listed(m.g, p) == []
      && IsRun(m, [CallGet(u, p)], m.(returned := m.returned + [(p, v)]))
  {
    StepKeeps(s, CallSet(t, p, v));
    CachedIsReturned(Apply(s, CallSet(t, p, v)), u, p);
  }

  lemma EndedSetIsKept(s: Sys, t: Tid, persist: bool, ok: bool)
    requires WellShaped(s.g) && Enabled(s, FinishSet(t, persist, ok))
    ensures var m := Apply(s, FinishSet(t, persist, ok));
      var (p, v) := (s.threads[t].p, s.threads[t].v);
      && m.keyring == (if persist && ok then s.keyring[p := v] else s.keyring)
      && m.g == s.g && m.threads == s.threads - {t}
  {
  }

  /** A Delete drops the value from the cache when it begins, and from the keyring when it ends. */
  lemma DeleteTakesBoth(s: Sys, t: Tid, p: Path, ok: bool)
    requires WellShaped(s.g) && t !in s.threads
    ensures IsRun(s, [CallDelete(t, p), FinishDelete(t, ok)],
                  s.(g := s.g.(cache := s.g.cache - {p}), keyring := if ok then s.keyring - {p} else s.keyring))
  {
    var m := Apply(s, CallDelete(t, p));
    assert m.threads - {t} == s.threads;
    Run2(s, CallDelete(t, p), m, FinishDelete(t, ok), Apply(m, FinishDelete(t, ok)));
  }

  // ----- What a woken Wait is certain to return -----

  /** A Delete of p, a Set of p to something else, or the end of the waiting call's context. */
  predicate Disturbs(a: Action, p: Path, v: string, u: Tid) {
    (a.CallDelete? && a.p == p) || (a.CallSet? && a.p == p && a.v != v) || a == Cancelled(u)
  }

  predicate Undisturbed(acts: seq<Action>, p: Path, v: string, u: Tid) { forall a <- acts :: !Disturbs(a, p, v, u) }

  /** A Get of p that has missed the cache and could fill it with another value. */
  predicate MayFill(pc: Pc, p: Path, v: string) {
    (pc.Reading? && pc.p == p) || (pc.Filling? && pc.p == p && pc.v != v)
  }

  predicate NoneMayFill(s: Sys, p: Path, v: string) {
    forall x | x in s.threads :: !MayFill(s.threads[x], p, v)
  }

  /** v is cached for p and nobody is about to replace it. */
  ghost predicate Calm(s: Sys, p: Path, v: string) {
    p in s.g.cache && s.g.cache[p] == v && NoneMayFill(s, p, v)
  }

  predicate Waits(s: Sys, u: Tid, p: Path, ch: Chan, v: string) {
    u in s.threads && (s.threads[u] == Blocked(p, ch) || s.threads[u] == Removing(p, ch, Some(v)))
  }

  lemma FoundCalm(s: Sys, t: Tid, q: Path, why: Purpose, r: Option<string>, p: Path, v: string)
    requires Calm(s, p, v)
    ensures Calm(Found(s, t, q, why, r), p, v)
  {
  }

  lemma CalmStep(s: Sys, a: Action, p: Path, v: string, u: Tid)
    requires WellShaped(s.g) && Enabled(s, a) && Calm(s, p, v) && !Disturbs(a, p, v, u)
    ensures Calm(Apply(s, a), p, v)
  {
    match a
    case CallGet(t, q) => if q in s.g.cache { FoundCalm(s, t, q, ForCaller, Some(s.g.cache[q]), p, v); }
    case CallWait(t, q) => if q in s.g.cache { FoundCalm(s, t, q, BeforeWait, Some(s.g.cache[q]), p, v); }
    case ReadKeyring(t, ok) => FoundCalm(s, t, s.threads[t].p, s.threads[t].why, None, p, v);
    case Fill(t) =>
      var pc := s.threads[t];
      assert !MayFill(pc, p, v);
      FoundCalm(s.(g := FillCache(s.g, pc.p, pc.v)), t, pc.p, pc.why, Some(pc.v), p, v);
    case _ =>
  }

  lemma OthersStay(s: Sys, a: Action, u: Tid)
    requires WellShaped(s.g) && Enabled(s, a) && u in s.threads && (a.OtherProcess? || a.t != u)
    ensures u in Apply(s, a).threads && Apply(s, a).threads[u] == s.threads[u]
  {
    if IsQuiet(a) { QuietMoves(s, a); }
  }

  lemma WaitStep(s: Sys, a: Action, p: Path, v: string, u: Tid, ch: Chan)
    requires WellShaped(s.g) && Enabled(s, a) && Calm(s, p, v) && !Disturbs(a, p, v, u)
    requires Waits(s, u, p, ch, v) && a != LeaveWait(u)
    ensures Waits(Apply(s, a), u, p, ch, v)
  {
    if a.OtherProcess? || a.t != u { OthersStay(s, a, u); } else { Wakes(s, u, p, ch); }
  }

  /** When u leaves its Wait in the course of these steps, it returns v for p. */
  ghost predicate Gets(s: Sys, acts: seq<Action>, u: Tid, p: Path, v: string)
    decreases |acts|
  {
    && acts != [] && WellShaped(s.g) && Enabled(s, acts[0])
    && if acts[0] == LeaveWait(u) then Apply(s, acts[0]).returned == s.returned + [(p, v)]
       else Gets(Apply(s, acts[0]), acts[1..], u, p, v)
  }

  lemma {:induction false} WaitGets(s: Sys, acts: seq<Action>, s': Sys, u: Tid, p: Path, ch: Chan, v: string)
    requires IsRun(s, acts, s') && Calm(s, p, v) && Waits(s, u, p, ch, v) && Undisturbed(acts, p, v, u)
    ensures if LeaveWait(u) in acts then Gets(s, acts, u, p, v) else Waits(s', u, p, ch, v)
    decreases |acts|
  {
    if acts != [] {
      assert acts[0] in acts && acts == [acts[0]] + acts[1..];
      if acts[0] != LeaveWait(u) {
        CalmStep(s, acts[0], p, v, u);
        WaitStep(s, acts[0], p, v, u, ch);
        WaitGets(Apply(s, acts[0]), acts[1..], s', u, p, ch, v);
      }
    }
  }

  lemma SetIsCalm(s: Sys, t: Tid, p: Path, v: string)
    requires WellShaped(s.g) && t !in s.threads && NoneMayFill(s, p, v)
    ensures Calm(Apply(s, CallSet(t, p, v)), p, v)
  {
  }

  /** After a Set of p, with no other Get of p under way, no other Set or Delete of p and its context
      alive, a Wait for p is never lost: it waits on, and when it leaves it returns the value. */
  lemma WokenWaitGets(s: Sys, t: Tid, p: Path, v: string, u: Tid, ch: Chan, acts: seq<Action>, s': Sys)
    requires WellShaped(s.g) && t !in s.threads && u in s.threads && s.threads[u] == Blocked(p, ch)
    requires NoneMayFill(s, p, v)
    requires IsRun(Apply(s, CallSet(t, p, v)), acts, s') && Undisturbed(acts, p, v, u)
    ensures if LeaveWait(u) in acts then Gets(Apply(s, CallSet(t, p, v)), acts, u, p, v) else Waits(s', u, p, ch, v)
  {
    SetIsCalm(s, t, p, v);
    WaitGets(Apply(s, CallSet(t, p, v)), acts, s', u, p, ch, v);
  }

  // ----- Exactly then -----

  /** Such a run in which u leaves with something else. */
  ghost predicate Misses(s: Sys, acts: seq<Action>, s': Sys, p: Path, v: string, u: Tid) {
    IsRun(s, acts, s') && Undisturbed(acts, p, v, u) && LeaveWait(u) in acts && !Gets(s, acts, u, p, v)
  }

  ghost predicate CanMiss(s: Sys, p: Path, v: string, u: Tid) {
    exists acts, s' :: Misses(s, acts, s', p, v, u)
  }

  lemma MissLater(s: Sys, a: Action, p: Path, v: string, u: Tid)
    requires WellShaped(s.g) && Enabled(s, a) && a != LeaveWait(u) && !Disturbs(a, p, v, u)
    requires CanMiss(Apply(s, a), p, v, u)
    ensures CanMiss(s, p, v, u)
  {
    var acts, s' :| Misses(Apply(s, a), acts, s', p, v, u);
    var all := [a] + acts;
    assert all[1..] == acts;
    assert Misses(s, all, s', p, v, u);
  }

  lemma MissNow(s: Sys, p: Path, v: string, u: Tid, ch: Chan)
    requires Inv(s) && u in s.threads && s.threads[u] == Blocked(p, ch) && ch in s.closed
    requires p in s.g.cache && s.g.cache[p] != v
    ensures CanMiss(s, p, v, u)
  {
    var m := Apply(s, Woken(u));
    StepKeeps(s, Woken(u));
    var n := Apply(m, LeaveWait(u));
    Run1(m, LeaveWait(u), n);
    assert n.returned[|m.returned|] != (p, v);
    assert Misses(m, [LeaveWait(u)], n, p, v, u);
    MissLater(s, Woken(u), p, v, u);
  }

  /** The Set of t is about to wake u, or has. */
  ghost predicate Closes(s: Sys, t: Tid, u: Tid, ch: Chan) {
    && t in s.threads && s.threads[t].Waking? && (ch in s.closed || ch in s.threads[t].todo) && u != t
  }

  lemma CloseOne(s: Sys, t: Tid, p: Path, u: Tid, ch: Chan)
    requires WellShaped(s.g) && u in s.threads && s.threads[u] == Blocked(p, ch) && Closes(s, t, u, ch)
      && ch !in s.closed
    ensures Enabled(s, CloseNext(t))
    ensures var m := Apply(s, CloseNext(t));
      && m.g == s.g && u in m.threads && m.threads[u] == Blocked(p, ch) && Closes(m, t, u, ch)
      && |m.threads[t].todo| < |s.threads[t].todo|
  {
    assert s.threads[t].todo == [s.threads[t].todo[0]] + s.threads[t].todo[1..];
  }

  /** The Set closes its list, and u is woken to find another value. */
  lemma {:induction false} MissWhenClosed(s: Sys, t: Tid, p: Path, v: string, u: Tid, ch: Chan)
    requires Inv(s) && u in s.threads && s.threads[u] == Blocked(p, ch) && Closes(s, t, u, ch)
    requires p in s.g.cache && s.g.cache[p] != v
    ensures CanMiss(s, p, v, u)
    decreases |s.threads[t].todo|
  {
    if ch in s.closed {
      MissNow(s, p, v, u, ch);
    } else {
      CloseOne(s, t, p, u, ch);
      StepKeeps(s, CloseNext(t));
      MissWhenClosed(Apply(s, CloseNext(t)), t, p, v, u, ch);
      MissLater(s, CloseNext(t), p, v, u);
    }
  }

  lemma MissAfterFill(s: Sys, t: Tid, x: Tid, p: Path, v: string, u: Tid, ch: Chan)
    requires Inv(s) && u in s.threads && s.threads[u] == Blocked(p, ch)
    requires t in s.threads && s.threads[t].Waking? && ch in s.threads[t].todo
    requires x in s.threads && s.threads[x].Filling? && s.threads[x].p == p && s.threads[x].v != v
    ensures CanMiss(s, p, v, u)
  {
    StepKeeps(s, Fill(x));
    MissWhenClosed(Apply(s, Fill(x)), t, p, v, u, ch);
    MissLater(s, Fill(x), p, v, u);
  }

  /** A Get that has missed the cache reads another value that another process puts into the keyring. */
  lemma MissAfterRead(s: Sys, t: Tid, x: Tid, p: Path, v: string, u: Tid, ch: Chan)
    requires Inv(s) && u in s.threads && s.threads[u] == Blocked(p, ch)
    requires t in s.threads && s.threads[t].Waking? && ch in s.threads[t].todo
    requires x in s.threads && s.threads[x].Reading? && s.threads[x].p == p
    ensures CanMiss(s, p, v, u)
  {
    var a, b := OtherProcess(p, Some(v + "x")), ReadKeyring(x, true);
    StepKeeps(s, a);
    var m := Apply(s, a);
    StepKeeps(m, b);
    assert |v + "x"| != |v|;
    MissAfterFill(Apply(m, b), t, x, p, v, u, ch);
    MissLater(m, b, p, v, u);
    MissLater(s, a, p, v, u);
  }

  /** A Wait listed when a Set of p enters its critical section is certain to return the value Set, as
      long as its context lives and nobody deletes or sets p to something else, exactly if no other
      Get of p was between its miss and its fill. */
  lemma WokenWaitGetsIff(s: Sys, t: Tid, p: Path, v: string, u: Tid, ch: Chan)
    requires Inv(s) && t !in s.threads && u in s.threads && s.threads[u] == Blocked(p, ch) && ch in Listed(s.g, p)
    ensures CanMiss(Apply(s, CallSet(t, p, v)), p, v, u) <==> !NoneMayFill(s, p, v)
  {
    var m := Apply(s, CallSet(t, p, v));
    StepKeeps(s, CallSet(t, p, v));
    if NoneMayFill(s, p, v) {
      forall acts, s' ensures !Misses(m, acts, s', p, v, u) {
        if IsRun(m, acts, s') && Undisturbed(acts, p, v, u) { WokenWaitGets(s, t, p, v, u, ch, acts, s'); }
      }
    } else {
      var x :| x in s.threads && MayFill(s.threads[x], p, v);
      if s.threads[x].Reading? {
        MissAfterRead(m, t, x, p, v, u, ch);
      } else {
        MissAfterFill(m, t, x, p, v, u, ch);
      }
    }
  }
}
