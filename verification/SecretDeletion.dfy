/** What deleting a secret achieves while other calls go on (Delete in internal/secret/secret.go), and
    what that means for the password loop, which deletes a password that was refused
    (internal/forward/password.go). */
module SecretDeletion {
  import opened PasswordDial
  import opened SecretRuns
  import opened SecretStore
  import opened Wrappers

  /** The value is nowhere: not cached, not in the keyring, and no call in progress has it. */
  ghost predicate Gone(s: Sys, p: Path, v: string) {
    && (p in s.g.cache ==> s.g.cache[p] != v)
    && (p in s.keyring ==> s.keyring[p] != v)
    && forall t | t in s.threads :: !Carries(s.threads[t], p, v)
  }

  /** A Set of the value, or another process putting it into the keyring. */
  predicate Provides(a: Action, p: Path, v: string) {
    (a.CallSet? && a.p == p && a.v == v) || (a.OtherProcess? && a.p == p && a.held == Some(v))
  }

  predicate NoneProvides(acts: seq<Action>, p: Path, v: string) { forall a <- acts :: !Provides(a, p, v) }

  /** Between s and s' some call returned the value for the path. */
  ghost predicate Returned(s: Sys, s': Sys, p: Path, v: string) {
    exists i :: |s.returned| <= i < |s'.returned| && s'.returned[i] == (p, v)
  }

  /** Nothing returned between s and s' is the value, and it is still nowhere. */
  ghost predicate StillGone(s: Sys, s': Sys, p: Path, v: string) {
    Gone(s', p, v) && s.returned <= s'.returned && !Returned(s, s', p, v)
  }

  // ----- Gone is gone -----

  lemma FoundGone(s: Sys, t: Tid, p: Path, why: Purpose, r: Option<string>, q: Path, v: string)
    requires Gone(s, q, v) && (p == q ==> r != Some(v))
    ensures StillGone(s, Found(s, t, p, why, r), q, v)
  {
  }

  lemma LookGone(s: Sys, t: Tid, p: Path, why: Purpose, q: Path, v: string)
    requires Gone(s, q, v)
    ensures StillGone(s, Look(s, t, p, why), q, v)
  {
    if p in s.g.cache { FoundGone(s, t, p, why, Some(s.g.cache[p]), q, v); }
  }

  lemma ReaderGone(s: Sys, a: Action, q: Path, v: string)
    requires Enabled(s, a) && WellShaped(s.g) && Gone(s, q, v) && ByReader(a)
    ensures StillGone(s, Apply(s, a), q, v)
  {
    match a
    case CallGet(t, p) => LookGone(s, t, p, ForCaller, q, v);
    case CallWait(t, p) => LookGone(s, t, p, BeforeWait, q, v);
    case Woken(t) => LookGone(s, t, s.threads[t].p, AfterWake(s.threads[t].ch), q, v);
    case ReadKeyring(t, ok) => FoundGone(s, t, s.threads[t].p, s.threads[t].why, None, q, v);
    case Fill(t) =>
      var pc := s.threads[t];
      assert Carries(pc, pc.p, pc.v);
      FoundGone(s.(g := FillCache(s.g, pc.p, pc.v)), t, pc.p, pc.why, Some(pc.v), q, v);
    case LeaveWait(t) =>
      var pc := s.threads[t];
      assert pc.result.Some? ==> Carries(pc, pc.p, pc.result.value);
    case _ =>
  }

  lemma WriterGone(s: Sys, a: Action, q: Path, v: string)
    requires Enabled(s, a) && WellShaped(s.g) && Gone(s, q, v) && !ByReader(a) && !Provides(a, q, v)
    ensures StillGone(s, Apply(s, a), q, v)
  {
    match a
    case FinishSet(t, persist, ok) => assert Carries(s.threads[t], s.threads[t].p, s.threads[t].v);
    case CloseNext(t) => assert Carries(s.threads[t], s.threads[t].p, s.threads[t].v);
    case _ =>
  }

  lemma StillGoneOn(s: Sys, m: Sys, s': Sys, p: Path, v: string)
    requires StillGone(s, m, p, v) && StillGone(m, s', p, v)
    ensures StillGone(s, s', p, v)
  {
    forall i | |s.returned| <= i < |s'.returned| ensures s'.returned[i] != (p, v) {
      assert i < |m.returned| ==> s'.returned[i] == m.returned[i];
    }
  }

  lemma {:induction false} RunGone(s: Sys, acts: seq<Action>, s': Sys, p: Path, v: string)
    requires IsRun(s, acts, s') && Gone(s, p, v) && NoneProvides(acts, p, v)
    ensures StillGone(s, s', p, v)
    decreases |acts|
  {
    if acts != [] {
      var m := Apply(s, acts[0]);
      assert acts[0] in acts;
      if ByReader(acts[0]) { ReaderGone(s, acts[0], p, v); } else { WriterGone(s, acts[0], p, v); }
      RunGone(m, acts[1..], s', p, v);
      StillGoneOn(s, m, s', p, v);
    }
  }

  // ----- What is not gone can come back -----

  /** A run in which nobody provides the value and some call returns it. */
  ghost predicate Brings(s: Sys, acts: seq<Action>, s': Sys, p: Path, v: string) {
    IsRun(s, acts, s') && NoneProvides(acts, p, v) && Returned(s, s', p, v)
  }

  ghost predicate ComesBack(s: Sys, p: Path, v: string) {
    exists acts, s' :: Brings(s, acts, s', p, v)
  }

  lemma ReturnedGrows(s: Sys, a: Action)
    requires Enabled(s, a) && WellShaped(s.g)
    ensures s.returned <= Apply(s, a).returned
  {
  }

  /** One step first. */
  lemma OneStepFirst(s: Sys, a: Action, p: Path, v: string)
    requires Inv(s) && Enabled(s, a) && !Provides(a, p, v) && ComesBack(Apply(s, a), p, v)
    ensures ComesBack(s, p, v)
  {
    var m := Apply(s, a);
    var acts, s' :| Brings(m, acts, s', p, v);
    ReturnedGrows(s, a);
    var all := [a] + acts;
    assert all[1..] == acts;
    var i :| |m.returned| <= i < |s'.returned| && s'.returned[i] == (p, v);
    assert Brings(s, all, s', p, v);
  }

  /** This step returns it. */
  lemma AtOnce(s: Sys, a: Action, p: Path, v: string)
    requires Inv(s) && Enabled(s, a) && !Provides(a, p, v)
    requires Apply(s, a).returned == s.returned + [(p, v)]
    ensures ComesBack(s, p, v)
  {
    var m := Apply(s, a);
    assert [a][1..] == [];
    assert m.returned[|s.returned|] == (p, v);
    assert Brings(s, [a], m, p, v);
  }

  lemma FreshCaller(s: Sys) returns (t: Tid)
    ensures t !in s.threads
  {
    var all := s.threads.Keys;
    t := Above(all);
  }

  lemma {:induction false} Above(ts: set<Tid>) returns (t: Tid)
    ensures forall u <- ts :: u < t
    decreases |ts|
  {
    if ts == {} {
      t := 0;
    } else {
      var u :| u in ts;
      var w := Above(ts - {u});
      t := if u < w then w else u + 1;
      assert forall x <- ts :: x == u || x in ts - {u};
    }
  }

  lemma CachedComesBack(s: Sys, p: Path, v: string)
    requires Inv(s) && p in s.g.cache && s.g.cache[p] == v
    ensures ComesBack(s, p, v)
  {
    var t := FreshCaller(s);
    AtOnce(s, CallGet(t, p), p, v);
  }

  lemma FillingComesBack(s: Sys, t: Tid, p: Path, v: string)
    requires Inv(s) && t in s.threads && s.threads[t].Filling? && s.threads[t].p == p && s.threads[t].v == v
    ensures ComesBack(s, p, v)
  {
    StepKeeps(s, Fill(t));
    CachedComesBack(Apply(s, Fill(t)), p, v);
    OneStepFirst(s, Fill(t), p, v);
  }

  lemma UncachedComesBack(s: Sys, p: Path, v: string)
    requires Inv(s) && p !in s.g.cache && p in s.keyring && s.keyring[p] == v
    ensures ComesBack(s, p, v)
  {
    var t := FreshCaller(s);
    StepKeeps(s, CallGet(t, p));
    var m := Apply(s, CallGet(t, p));
    StepKeeps(m, ReadKeyring(t, true));
    FillingComesBack(Apply(m, ReadKeyring(t, true)), t, p, v);
    OneStepFirst(m, ReadKeyring(t, true), p, v);
    OneStepFirst(s, CallGet(t, p), p, v);
  }

  lemma KeptComesBack(s: Sys, p: Path, v: string)
    requires Inv(s) && p in s.keyring && s.keyring[p] == v
    ensures ComesBack(s, p, v)
  {
    if p in s.g.cache {
      var t := FreshCaller(s);
      StepKeeps(s, CallDelete(t, p));
      UncachedComesBack(Apply(s, CallDelete(t, p)), p, v);
      OneStepFirst(s, CallDelete(t, p), p, v);
    } else {
      UncachedComesBack(s, p, v);
    }
  }

  lemma {:induction false} SettingComesBack(s: Sys, t: Tid, p: Path, v: string)
    requires Inv(s) && t in s.threads && s.threads[t].Waking? && s.threads[t].p == p && s.threads[t].v == v
    ensures ComesBack(s, p, v)
    decreases |s.threads[t].todo|
  {
    var a := if s.threads[t].todo == [] then FinishSet(t, true, true) else CloseNext(t);
    StepKeeps(s, a);
    if a.FinishSet? {
      KeptComesBack(Apply(s, a), p, v);
    } else {
      SettingComesBack(Apply(s, a), t, p, v);
    }
    OneStepFirst(s, a, p, v);
  }

  lemma CarriedComesBack(s: Sys, t: Tid, p: Path, v: string)
    requires Inv(s) && t in s.threads && Carries(s.threads[t], p, v)
    ensures ComesBack(s, p, v)
  {
    match s.threads[t]
    case Filling(_, _, _) => FillingComesBack(s, t, p, v);
    case Removing(_, _, _) => AtOnce(s, LeaveWait(t), p, v);
    case Waking(_, _, _, _, _) => SettingComesBack(s, t, p, v);
  }

  /** Without being provided again a value can be returned once more exactly if it is still somewhere. */
  lemma ComesBackIff(s: Sys, p: Path, v: string)
    requires Inv(s)
    ensures ComesBack(s, p, v) <==> !Gone(s, p, v)
  {
    if Gone(s, p, v) {
      forall acts, s' ensures !Brings(s, acts, s', p, v) {
        if IsRun(s, acts, s') && NoneProvides(acts, p, v) { RunGone(s, acts, s', p, v); }
      }
    } else if p in s.g.cache && s.g.cache[p] == v {
      CachedComesBack(s, p, v);
    } else if p in s.keyring && s.keyring[p] == v {
      KeptComesBack(s, p, v);
    } else {
      var t :| t in s.threads && Carries(s.threads[t], p, v);
      CarriedComesBack(s, t, p, v);
    }
  }

  /** What outlives the deletion that thread t is about to end: a value cached meanwhile, one whose
      keyring deletion failed, or one that a call in progress has. */
  ghost predicate Survives(s: Sys, t: Tid, ok: bool, p: Path, v: string) {
    || (p in s.g.cache && s.g.cache[p] == v)
    || (!ok && p in s.keyring && s.keyring[p] == v)
    || exists u :: u in s.threads && Carries(s.threads[u], p, v)
  }

  lemma DeletedIsGoneUnless(s: Sys, t: Tid, ok: bool, p: Path, v: string)
    requires Enabled(s, FinishDelete(t, ok)) && s.threads[t] == Forgetting(p) && WellShaped(s.g)
    ensures Gone(Apply(s, FinishDelete(t, ok)), p, v) <==> !Survives(s, t, ok, p, v)
  {
    var m := Apply(s, FinishDelete(t, ok));
    forall u | u in s.threads && Carries(s.threads[u], p, v) ensures u in m.threads && m.threads[u] == s.threads[u] {
      assert u != t;
    }
  }

  /** After a deletion the value can be returned without being provided again, exactly if it survived. */
  lemma DeletedComesBackIff(s: Sys, t: Tid, ok: bool, p: Path, v: string)
    requires Inv(s) && Enabled(s, FinishDelete(t, ok)) && s.threads[t] == Forgetting(p)
    ensures ComesBack(Apply(s, FinishDelete(t, ok)), p, v) <==> Survives(s, t, ok, p, v)
  {
    StepKeeps(s, FinishDelete(t, ok));
    ComesBackIff(Apply(s, FinishDelete(t, ok)), p, v);
    DeletedIsGoneUnless(s, t, ok, p, v);
  }

  // ----- The password loop over the store -----

  /** Stretch k of the store's run serves round k of the loop: what the round dials was returned in it. */
  ghost predicate Served(p: Path, rounds: seq<Round>, states: seq<Sys>, acts: seq<seq<Action>>) {
    && |acts| == |rounds| && |states| == |rounds| + 1
    && (forall k | 0 <= k < |rounds| :: IsRun(states[k], acts[k], states[k + 1]))
    && forall k | 0 <= k < |rounds| && PasswordOf(rounds[k]).Some? ::
         Returned(states[k], states[k + 1], p, PasswordOf(rounds[k]).value)
  }

  lemma {:induction false} GoneAt(p: Path, rounds: seq<Round>, states: seq<Sys>, acts: seq<seq<Action>>, i: nat, k: nat,
                                  v: string)
    requires Served(p, rounds, states, acts) && i <= k <= |rounds| && Gone(states[i], p, v)
    requires forall j | i <= j < k :: NoneProvides(acts[j], p, v)
    ensures Gone(states[k], p, v)
    decreases k
  {
    if i < k {
      GoneAt(p, rounds, states, acts, i, k - 1, v);
      RunGone(states[k - 1], acts[k - 1], states[k], p, v);
    }
  }

  /** A password whose deletion ended round i is dialed again in round k only if it survived the
      deletion or was provided again. */
  lemma RedialedOnlyIf(p: Path, rounds: seq<Round>, states: seq<Sys>, acts: seq<seq<Action>>, i: nat, k: nat,
                       s: Sys, t: Tid, ok: bool, pw: string)
    requires Served(p, rounds, states, acts) && i < k < |rounds| && PasswordOf(rounds[k]) == Some(pw)
    requires WellShaped(s.g) && Enabled(s, FinishDelete(t, ok)) && s.threads[t] == Forgetting(p)
    requires states[i + 1] == Apply(s, FinishDelete(t, ok))
    ensures Survives(s, t, ok, p, pw) || exists j :: i < j <= k && !NoneProvides(acts[j], p, pw)
  {
    if !Survives(s, t, ok, p, pw) && forall j | i < j <= k :: NoneProvides(acts[j], p, pw) {
      DeletedIsGoneUnless(s, t, ok, p, pw);
      GoneAt(p, rounds, states, acts, i + 1, k, pw);
      RunGone(states[k], acts[k], states[k + 1], p, pw);
      assert false;
    }
  }
}
