/** Every interleaving of Get, Wait, Set and Delete calls on one secret store, at the
    granularity of its critical sections: keyring reads and writes happen outside the lock,
    and a Set closes the channels it took one by one after unlocking. */
module SecretRuns {
  import opened SecretStore
  import opened Wrappers

  /** What a call to Get is for: returning to its caller, the check that opens Wait, or the
      read that ends a woken Wait. */
  datatype Purpose = ForCaller | BeforeWait | AfterWake(ch: Chan)

  datatype Pc =
    | Reading(p: Path, why: Purpose)
    | Filling(p: Path, v: string, why: Purpose)
    | Registering(p: Path)
    | Blocked(p: Path, ch: Chan)
    | Removing(p: Path, ch: Chan, result: Option<string>)
    | Waking(p: Path, v: string, taken: Slice, done: seq<Chan>, todo: seq<Chan>)
    | Forgetting(p: Path)

  datatype Action =
    | CallGet(t: Tid, p: Path)
    | CallWait(t: Tid, p: Path)
    | ReadKeyring(t: Tid, ok: bool)
    | Fill(t: Tid)
    | JoinWaiters(t: Tid, spare: nat)
    | Woken(t: Tid)
    | Cancelled(t: Tid)
    | LeaveWait(t: Tid)
    | CallSet(t: Tid, p: Path, v: string)
    | CloseNext(t: Tid)
    | FinishSet(t: Tid, persist: bool, ok: bool)
    | CallDelete(t: Tid, p: Path)
    | FinishDelete(t: Tid, ok: bool)
    | OtherProcess(p: Path, held: Option<string>)

  /** `provided` records every value Set for a path or held for it by the keyring, `returned`
      every value a Get or Wait handed back; the code has neither.  `panicked` becomes true
      when a closed channel is closed again. */
  datatype Sys = Sys(
    g: Guarded, closed: set<Chan>, next: nat, keyring: map<Path, string>, threads: map<Tid, Pc>,
    provided: set<(Path, string)>, returned: seq<(Path, string)>, panicked: bool)

  predicate Start(s: Sys) {
    && s.g == Guarded(map[], map[], []) && s.closed == {} && s.next == 0 && s.threads == map[]
    && (forall p | p in s.keyring :: (p, s.keyring[p]) in s.provided) && s.returned == [] && !s.panicked
  }

  predicate At(s: Sys, t: Tid) { t in s.threads }

  predicate Enabled(s: Sys, a: Action) {
    match a
    case CallGet(t, _) => t !in s.threads
    case CallWait(t, _) => t !in s.threads
    case ReadKeyring(t, _) => At(s, t) && s.threads[t].Reading?
    case Fill(t) => At(s, t) && s.threads[t].Filling?
    case JoinWaiters(t, _) => At(s, t) && s.threads[t].Registering?
    case Woken(t) => At(s, t) && s.threads[t].Blocked? && s.threads[t].ch in s.closed
    case Cancelled(t) => At(s, t) && s.threads[t].Blocked?
    case LeaveWait(t) => At(s, t) && s.threads[t].Removing?
    case CallSet(t, _, _) => t !in s.threads
    case CloseNext(t) => At(s, t) && s.threads[t].Waking? && s.threads[t].todo != []
    case FinishSet(t, _, _) => At(s, t) && s.threads[t].Waking? && s.threads[t].todo == []
    case CallDelete(t, _) => t !in s.threads
    case FinishDelete(t, _) => At(s, t) && s.threads[t].Forgetting?
    case OtherProcess(_, _) => true
  }

  function Goto(s: Sys, t: Tid, pc: Pc): Sys { s.(threads := s.threads[t := pc]) }

  function Leave(s: Sys, t: Tid): Sys { s.(threads := s.threads - {t}) }

  function Return(s: Sys, t: Tid, p: Path, v: string): Sys {
    Leave(s, t).(returned := s.returned + [(p, v)])
  }

  /** A Get that found v (Some) or found nothing (None). */
  function Found(s: Sys, t: Tid, p: Path, why: Purpose, v: Option<string>): Sys {
    match why
    case AfterWake(ch) => Goto(s, t, Removing(p, ch, v))
    case ForCaller => if v.Some? then Return(s, t, p, v.value) else Leave(s, t)
    case BeforeWait => if v.Some? then Return(s, t, p, v.value) else Goto(s, t, Registering(p))
  }

  /** Get's first critical section. */
  function Look(s: Sys, t: Tid, p: Path, why: Purpose): Sys {
    if p in s.g.cache then Found(s, t, p, why, Some(s.g.cache[p])) else Goto(s, t, Reading(p, why))
  }

  function Apply(s: Sys, a: Action): Sys
    requires Enabled(s, a) && WellShaped(s.g)
  {
    match a
    case CallGet(t, p) => Look(s, t, p, ForCaller)
    case CallWait(t, p) => Look(s, t, p, BeforeWait)
    case ReadKeyring(t, ok) =>
      var pc := s.threads[t];
      if ok && pc.p in s.keyring then Goto(s, t, Filling(pc.p, s.keyring[pc.p], pc.why))
      else Found(s, t, pc.p, pc.why, None)
    case Fill(t) =>
      var pc := s.threads[t];
      Found(s.(g := FillCache(s.g, pc.p, pc.v)), t, pc.p, pc.why, Some(pc.v))
    case JoinWaiters(t, spare) =>
      var p := s.threads[t].p;
      var ch := Chan(t, s.next);
      Goto(s.(g := Register(s.g, p, ch, spare), next := s.next + 1), t, Blocked(p, ch))
    case Woken(t) => Look(s, t, s.threads[t].p, AfterWake(s.threads[t].ch))
    case Cancelled(t) => Goto(s, t, Removing(s.threads[t].p, s.threads[t].ch, None))
    case LeaveWait(t) =>
      var pc := s.threads[t];
      var s' := s.(g := RemoveWaiter(s.g, pc.p, pc.ch));
      if pc.result.Some? then Return(s', t, pc.p, pc.result.value) else Leave(s', t)
    case CallSet(t, p, v) =>
      var (g, sl) := TakeWakers(s.g, p, v);
      Goto(s.(g := g, provided := s.provided + {(p, v)}), t, Waking(p, v, sl, [], Contents(s.g.mem, sl)))
    case CloseNext(t) =>
      var pc := s.threads[t];
      var ch := pc.todo[0];
      Goto(s.(closed := s.closed + {ch}, panicked := s.panicked || ch in s.closed), t,
           pc.(done := pc.done + [ch], todo := pc.todo[1..]))
    case FinishSet(t, persist, ok) =>
      var pc := s.threads[t];
      Leave(if persist && ok then s.(keyring := s.keyring[pc.p := pc.v]) else s, t)
    case CallDelete(t, p) => Goto(s.(g := DropCache(s.g, p)), t, Forgetting(p))
    case FinishDelete(t, ok) =>
      Leave(if ok then s.(keyring := s.keyring - {s.threads[t].p}) else s, t)
    case OtherProcess(p, v) =>
      if v.Some? then s.(keyring := s.keyring[p := v.value], provided := s.provided + {(p, v.value)})
      else s.(keyring := s.keyring - {p})
  }

  // ----- Values: whatever a call returns was provided -----

  predicate Carries(pc: Pc, p: Path, v: string) {
    match pc
    case Filling(q, w, _) => q == p && w == v
    case Removing(q, _, r) => q == p && r == Some(v)
    case Waking(q, w, _, _, _) => q == p && w == v
    case _ => false
  }

  ghost predicate Honest(s: Sys) {
    && (forall p | p in s.g.cache :: (p, s.g.cache[p]) in s.provided)
    && (forall p | p in s.keyring :: (p, s.keyring[p]) in s.provided)
    && (forall t, p, v | t in s.threads && Carries(s.threads[t], p, v) :: (p, v) in s.provided)
    && (forall i | 0 <= i < |s.returned| :: s.returned[i] in s.provided)
  }

  lemma FoundHonest(s: Sys, t: Tid, p: Path, why: Purpose, v: Option<string>)
    requires Honest(s) && (v.Some? ==> (p, v.value) in s.provided)
    ensures Honest(Found(s, t, p, why, v))
  {
  }

  lemma LookHonest(s: Sys, t: Tid, p: Path, why: Purpose)
    requires Honest(s)
    ensures Honest(Look(s, t, p, why))
  {
    if p in s.g.cache { FoundHonest(s, t, p, why, Some(s.g.cache[p])); }
  }

  predicate ByReader(a: Action) {
    a.CallGet? || a.CallWait? || a.Woken? || a.ReadKeyring? || a.Fill? || a.JoinWaiters? || a.Cancelled? || a.LeaveWait?
  }

  lemma ReaderHonest(s: Sys, a: Action)
    requires Enabled(s, a) && WellShaped(s.g) && Honest(s) && ByReader(a)
    ensures Honest(Apply(s, a))
  {
    match a
    case CallGet(t, p) => LookHonest(s, t, p, ForCaller);
    case CallWait(t, p) => LookHonest(s, t, p, BeforeWait);
    case Woken(t) => LookHonest(s, t, s.threads[t].p, AfterWake(s.threads[t].ch));
    case ReadKeyring(t, ok) =>
      FoundHonest(s, t, s.threads[t].p, s.threads[t].why, None);
    case Fill(t) =>
      var pc := s.threads[t];
      assert Carries(pc, pc.p, pc.v);
      FoundHonest(s.(g := FillCache(s.g, pc.p, pc.v)), t, pc.p, pc.why, Some(pc.v));
    case LeaveWait(t) =>
      var pc := s.threads[t];
      assert pc.result.Some? ==> Carries(pc, pc.p, pc.result.value);
    case _ =>
  }

  lemma WriterHonest(s: Sys, a: Action)
    requires Enabled(s, a) && WellShaped(s.g) && Honest(s) && !ByReader(a)
    ensures Honest(Apply(s, a))
  {
    match a
    case FinishSet(t, persist, ok) =>
      assert Carries(s.threads[t], s.threads[t].p, s.threads[t].v);
    case CloseNext(t) =>
      var pc := s.threads[t];
      assert Carries(pc, pc.p, pc.v);
    case _ =>
  }

  lemma StepHonest(s: Sys, a: Action)
    requires Enabled(s, a) && WellShaped(s.g) && Honest(s)
    ensures Honest(Apply(s, a))
  {
    if ByReader(a) { ReaderHonest(s, a); } else { WriterHonest(s, a); }
  }

  // ----- Waiting, without the memory underneath -----

  /** The waiter lists by content. */
  datatype Waits = Waits(lists: map<Path, seq<Chan>>, closed: set<Chan>, next: nat, threads: map<Tid, Pc>)

  ghost function Lists(g: Guarded): (m: map<Path, seq<Chan>>)
    requires WellShaped(g)
    ensures forall p :: On(m, p) == Listed(g, p)
  {
    map p | p in g.waiters :: Listed(g, p)
  }

  function On(lists: map<Path, seq<Chan>>, p: Path): seq<Chan> {
    if p in lists then lists[p] else []
  }

  ghost function Abstract(s: Sys): Waits
    requires WellShaped(s.g)
  {
    Waits(Lists(s.g), s.closed, s.next, s.threads)
  }

  /** The path and channel of a Wait that has registered and not yet removed its channel. */
  function WaitsOn(pc: Pc): Option<(Path, Chan)> {
    match pc
    case Blocked(p, ch) => Some((p, ch))
    case Removing(p, ch, _) => Some((p, ch))
    case Reading(p, AfterWake(ch)) => Some((p, ch))
    case Filling(p, _, AfterWake(ch)) => Some((p, ch))
    case _ => None
  }

  function PcOf(w: Waits, t: Tid): Option<Pc> { if t in w.threads then Some(w.threads[t]) else None }

  function WaitOf(w: Waits, t: Tid): Option<(Path, Chan)> {
    if t in w.threads then WaitsOn(w.threads[t]) else None
  }

  function Todo(w: Waits, t: Tid): seq<Chan> {
    if t in w.threads && w.threads[t].Waking? then w.threads[t].todo else []
  }

  ghost predicate Distinct(s: seq<Chan>) { forall i, j | 0 <= i < j < |s| :: s[i] != s[j] }

  /** Every listed channel belongs to one waiting call on that path and is open. */
  ghost predicate ListsOwned(w: Waits) {
    && (forall p :: Distinct(On(w.lists, p)))
    && (forall p, c | c in On(w.lists, p) ::
          c.Chan? && c.serial < w.next && c !in w.closed && WaitOf(w, c.owner) == Some((p, c)))
  }

  /** What a Set has left to close is open, unlisted, and left to no other Set. */
  ghost predicate PendingOnce(w: Waits) {
    && (forall t :: Distinct(Todo(w, t)))
    && (forall t, c | c in Todo(w, t) :: c.Chan? && c.serial < w.next && c !in w.closed)
    && (forall t, c, p | c in Todo(w, t) :: c !in On(w.lists, p))
    && (forall t, u, c | t != u && c in Todo(w, t) :: c !in Todo(w, u))
    && (forall c | c in w.closed :: c.Chan? && c.serial < w.next)
  }

  ghost predicate Taken(w: Waits, p: Path, c: Chan) {
    exists u :: c in Todo(w, u) && w.threads[u].p == p
  }

  /** No wakeup is lost: a waiting call's channel is listed, or a Set on that path is about to
      close it, or it is closed. */
  ghost predicate NotLost(w: Waits) {
    forall t | WaitOf(w, t).Some? :: Reached(w, t)
  }

  ghost predicate Reached(w: Waits, t: Tid)
    requires WaitOf(w, t).Some?
  {
    var (p, c) := WaitOf(w, t).value;
    && c.Chan? && c.owner == t && c.serial < w.next
    && (c in On(w.lists, p) || c in w.closed || Taken(w, p, c))
  }

  ghost predicate Sound(w: Waits) { ListsOwned(w) && PendingOnce(w) && NotLost(w) }

  ghost predicate OnlyMoves(w: Waits, w': Waits, t: Tid) {
    forall u | u != t :: PcOf(w', u) == PcOf(w, u)
  }

  ghost predicate SameListsBut(w: Waits, w': Waits, p: Path) {
    forall q | q != p :: On(w'.lists, q) == On(w.lists, q)
  }

  ghost predicate Quiet(w: Waits, w': Waits, t: Tid) {
    && w'.lists == w.lists && w'.closed == w.closed && w'.next == w.next && OnlyMoves(w, w', t)
    && WaitOf(w', t) == WaitOf(w, t) && Todo(w, t) == Todo(w', t) == []
  }

  ghost predicate Joined(w: Waits, w': Waits, t: Tid, p: Path) {
    var ch := Chan(t, w.next);
    && On(w'.lists, p) == On(w.lists, p) + [ch] && SameListsBut(w, w', p)
    && w'.closed == w.closed && w'.next == w.next + 1 && OnlyMoves(w, w', t)
    && WaitOf(w, t) == None && Todo(w, t) == [] && PcOf(w', t) == Some(Blocked(p, ch))
  }

  ghost predicate Left(w: Waits, w': Waits, t: Tid) {
    && WaitOf(w, t).Some? && Todo(w, t) == [] && PcOf(w', t) == None
    && var (p, ch) := WaitOf(w, t).value;
    && SameListsBut(w, w', p) && On(w'.lists, p) == Without(On(w.lists, p), ch)
    && w'.closed == w.closed && w'.next == w.next && OnlyMoves(w, w', t)
  }

  ghost predicate Took(w: Waits, w': Waits, t: Tid, p: Path) {
    && PcOf(w, t) == None && t in w'.threads && w'.threads[t].Waking? && w'.threads[t].p == p
    && Todo(w', t) == On(w.lists, p) && On(w'.lists, p) == [] && SameListsBut(w, w', p)
    && w'.closed == w.closed && w'.next == w.next && OnlyMoves(w, w', t)
  }

  ghost predicate ClosedOne(w: Waits, w': Waits, t: Tid) {
    && Todo(w, t) != [] && t in w'.threads && w'.threads[t].Waking?
    && w'.threads[t].p == w.threads[t].p && Todo(w', t) == Todo(w, t)[1..]
    && w'.lists == w.lists && w'.closed == w.closed + {Todo(w, t)[0]} && w'.next == w.next && OnlyMoves(w, w', t)
  }

  lemma SameElsewhere(w: Waits, w': Waits, t: Tid, u: Tid)
    requires OnlyMoves(w, w', t) && u != t
    ensures WaitOf(w', u) == WaitOf(w, u) && Todo(w', u) == Todo(w, u)
    ensures u in w.threads <==> u in w'.threads
    ensures u in w.threads ==> w'.threads[u] == w.threads[u]
  {
    assert PcOf(w', u) == PcOf(w, u);
  }

  lemma StillTaken(w: Waits, w': Waits, t: Tid, p: Path, c: Chan)
    requires OnlyMoves(w, w', t) && Todo(w, t) == []
    ensures Taken(w, p, c) ==> Taken(w', p, c)
  {
    if Taken(w, p, c) {
      var u :| c in Todo(w, u) && w.threads[u].p == p;
      SameElsewhere(w, w', t, u);
    }
  }

  lemma QuietKeeps(w: Waits, w': Waits, t: Tid)
    requires Sound(w) && Quiet(w, w', t)
    ensures Sound(w')
  {
    forall u ensures WaitOf(w', u) == WaitOf(w, u) && Todo(w', u) == Todo(w, u) {
      if u != t { SameElsewhere(w, w', t, u); }
    }
    forall u | WaitOf(w', u).Some? ensures Reached(w', u) {
      var (p, c) := WaitOf(w, u).value;
      assert Reached(w, u);
      StillTaken(w, w', t, p, c);
    }
  }

  lemma JoinKeepsNotLost(w: Waits, w': Waits, t: Tid, p: Path)
    requires NotLost(w) && Joined(w, w', t, p)
    ensures NotLost(w')
  {
    forall u | WaitOf(w', u).Some? ensures Reached(w', u) {
      if u != t {
        SameElsewhere(w, w', t, u);
        var (q, c) := WaitOf(w, u).value;
        assert Reached(w, u);
        StillTaken(w, w', t, q, c);
      }
    }
  }

  lemma JoinKeeps(w: Waits, w': Waits, t: Tid, p: Path)
    requires Sound(w) && Joined(w, w', t, p)
    ensures Sound(w')
  {
    JoinKeepsNotLost(w, w', t, p);
    forall u ensures Todo(w', u) == Todo(w, u) && (u != t ==> WaitOf(w', u) == WaitOf(w, u)) {
      if u != t { SameElsewhere(w, w', t, u); }
    }
    assert forall c | c in On(w.lists, p) :: c.serial < w.next;
  }

  lemma WithoutIs(s: seq<Chan>, ch: Chan)
    requires Distinct(s)
    ensures Distinct(Without(s, ch)) && forall c :: c in Without(s, ch) <==> c in s && c != ch
  {
    var i := IndexOf(s, ch);
    if i < |s| {
      forall c | c in s && c != ch ensures c in s[..i] + s[i + 1..] {
        var k :| 0 <= k < |s| && s[k] == c;
        assert if k < i then (s[..i] + s[i + 1..])[k] == c else (s[..i] + s[i + 1..])[k - 1] == c;
      }
    }
  }

  lemma LeaveKeepsNotLost(w: Waits, w': Waits, t: Tid)
    requires NotLost(w) && Left(w, w', t)
    requires forall q, c | c in On(w.lists, q) && c != WaitOf(w, t).value.1 :: c in On(w'.lists, q)
    ensures NotLost(w')
  {
    assert Reached(w, t);
    forall u | WaitOf(w', u).Some? ensures Reached(w', u) {
      SameElsewhere(w, w', t, u);
      var (q, c) := WaitOf(w, u).value;
      assert Reached(w, u);
      StillTaken(w, w', t, q, c);
    }
  }

  lemma LeaveKeepsLists(w: Waits, w': Waits, t: Tid)
    requires ListsOwned(w) && NotLost(w) && Left(w, w', t)
    ensures ListsOwned(w')
    ensures forall q, c :: c in On(w'.lists, q) <==> c in On(w.lists, q) && c != WaitOf(w, t).value.1
  {
    var (p, ch) := WaitOf(w, t).value;
    assert Reached(w, t);
    WithoutIs(On(w.lists, p), ch);
    forall q, c | c in On(w.lists, q)
      ensures WaitOf(w, c.owner) == Some((q, c))
      ensures c != ch ==> WaitOf(w', c.owner) == Some((q, c))
    {
      if c.owner != t { SameElsewhere(w, w', t, c.owner); }
    }
  }

  lemma LeaveKeeps(w: Waits, w': Waits, t: Tid)
    requires Sound(w) && Left(w, w', t)
    ensures Sound(w')
  {
    LeaveKeepsLists(w, w', t);
    LeaveKeepsNotLost(w, w', t);
    forall u ensures Todo(w', u) == Todo(w, u) {
      if u != t { SameElsewhere(w, w', t, u); }
    }
  }

  lemma TakeKeepsNotLost(w: Waits, w': Waits, t: Tid, p: Path)
    requires NotLost(w) && Took(w, w', t, p)
    ensures NotLost(w')
  {
    forall u | WaitOf(w', u).Some? ensures Reached(w', u) {
      SameElsewhere(w, w', t, u);
      var (q, c) := WaitOf(w, u).value;
      assert Reached(w, u);
      StillTaken(w, w', t, q, c);
      if q == p && c in On(w.lists, p) { assert c in Todo(w', t); }
    }
  }

  /** A channel some Set has left to close once t has taken the list of p. */
  lemma TakenIsPending(w: Waits, w': Waits, t: Tid, p: Path, u: Tid, c: Chan)
    requires ListsOwned(w) && PendingOnce(w) && Took(w, w', t, p) && c in Todo(w', u)
    ensures c.Chan? && c.serial < w'.next && c !in w'.closed
    ensures forall q :: c !in On(w'.lists, q)
    ensures forall x | x != u :: c !in Todo(w', x)
  {
    forall x | x != u ensures c !in Todo(w', x) {
      if x != t { SameElsewhere(w, w', t, x); }
      if u != t { SameElsewhere(w, w', t, u); }
    }
    if u == t {
      assert WaitOf(w, c.owner) == Some((p, c));
    } else {
      SameElsewhere(w, w', t, u);
    }
  }

  lemma TakeKeepsPending(w: Waits, w': Waits, t: Tid, p: Path)
    requires ListsOwned(w) && PendingOnce(w) && Took(w, w', t, p)
    ensures PendingOnce(w')
  {
    forall u, c | c in Todo(w', u) ensures c.Chan? && c.serial < w'.next && c !in w'.closed {
      TakenIsPending(w, w', t, p, u, c);
    }
    forall u, c, q | c in Todo(w', u) ensures c !in On(w'.lists, q) {
      TakenIsPending(w, w', t, p, u, c);
    }
    forall u, x, c | u != x && c in Todo(w', u) ensures c !in Todo(w', x) {
      TakenIsPending(w, w', t, p, u, c);
    }
    forall u ensures Distinct(Todo(w', u)) {
      if u != t { SameElsewhere(w, w', t, u); }
    }
  }

  lemma TakeKeeps(w: Waits, w': Waits, t: Tid, p: Path)
    requires Sound(w) && Took(w, w', t, p)
    ensures Sound(w')
  {
    forall u | u != t ensures WaitOf(w', u) == WaitOf(w, u) {
      SameElsewhere(w, w', t, u);
    }
    TakeKeepsPending(w, w', t, p);
    TakeKeepsNotLost(w, w', t, p);
  }

  lemma CloseKeepsNotLost(w: Waits, w': Waits, t: Tid)
    requires NotLost(w) && ClosedOne(w, w', t)
    ensures NotLost(w')
  {
    forall u | WaitOf(w', u).Some? ensures Reached(w', u) {
      SameElsewhere(w, w', t, u);
      var (q, c) := WaitOf(w, u).value;
      assert Reached(w, u);
      if Taken(w, q, c) && c !in w'.closed {
        var x :| c in Todo(w, x) && w.threads[x].p == q;
        assert c in Todo(w', x) by {
          if x != t { SameElsewhere(w, w', t, x); }
        }
        assert w'.threads[x].p == q by {
          if x != t { SameElsewhere(w, w', t, x); }
        }
      }
    }
  }

  lemma CloseKeepsPending(w: Waits, w': Waits, t: Tid)
    requires PendingOnce(w) && ClosedOne(w, w', t)
    ensures PendingOnce(w') && Todo(w, t)[0] !in w.closed
  {
    var ch := Todo(w, t)[0];
    assert ch in Todo(w, t);
    forall u ensures u != t ==> Todo(w', u) == Todo(w, u)
      ensures Distinct(Todo(w', u)) && forall c | c in Todo(w', u) :: c in Todo(w, u) && c != ch
    {
      if u != t { SameElsewhere(w, w', t, u); }
    }
  }

  lemma CloseKeepsLists(w: Waits, w': Waits, t: Tid)
    requires ListsOwned(w) && PendingOnce(w) && ClosedOne(w, w', t)
    ensures ListsOwned(w')
  {
    var ch := Todo(w, t)[0];
    assert ch in Todo(w, t);
    forall p, c | c in On(w'.lists, p)
      ensures c.Chan? && c.serial < w'.next && c !in w'.closed && WaitOf(w', c.owner) == Some((p, c))
    {
      assert c in On(w.lists, p) && c != ch;
      if c.owner != t { SameElsewhere(w, w', t, c.owner); }
    }
  }

  lemma CloseKeeps(w: Waits, w': Waits, t: Tid)
    requires Sound(w) && ClosedOne(w, w', t)
    ensures Sound(w') && Todo(w, t)[0] !in w.closed
  {
    CloseKeepsLists(w, w', t);
    CloseKeepsPending(w, w', t);
    CloseKeepsNotLost(w, w', t);
  }

  // ----- Every run -----

  /** The list a Set took still reads as it did then, and no list shares its memory. */
  ghost predicate Apart(g: Guarded, pc: Pc)
    requires pc.Waking? && WellShaped(g)
  {
    && SliceOk(g.mem, pc.taken) && Contents(g.mem, pc.taken) == pc.done + pc.todo
    && (pc.taken.Slice? ==> forall q | q in g.waiters :: g.waiters[q].arr != pc.taken.arr)
  }

  ghost predicate TakenIntact(s: Sys)
    requires WellShaped(s.g)
  {
    forall t | t in s.threads && s.threads[t].Waking? ::
      Apart(s.g, s.threads[t]) && forall c | c in s.threads[t].done :: c in s.closed
  }

  ghost predicate Inv(s: Sys) {
    WellShaped(s.g) && Sound(Abstract(s)) && TakenIntact(s) && Honest(s) && !s.panicked
  }

  lemma RegisterKeepsApart(g: Guarded, p: Path, ch: Chan, spare: nat, pc: Pc)
    requires WellShaped(g) && pc.Waking? && Apart(g, pc)
    ensures WellShaped(Register(g, p, ch, spare)) && Apart(Register(g, p, ch, spare), pc)
  {
    RegisterLists(g, p, ch, spare);
  }

  lemma RemoveKeepsApart(g: Guarded, p: Path, ch: Chan, pc: Pc)
    requires WellShaped(g) && pc.Waking? && Apart(g, pc)
    ensures WellShaped(RemoveWaiter(g, p, ch)) && Apart(RemoveWaiter(g, p, ch), pc)
  {
    RemoveLists(g, p, ch);
  }

  predicate IsQuiet(a: Action) {
    !a.JoinWaiters? && !a.LeaveWait? && !a.CallSet? && !a.CloseNext? && !a.OtherProcess?
  }

  lemma SameLists(s: Sys, s': Sys)
    requires WellShaped(s.g) && s'.g.waiters == s.g.waiters && s'.g.mem == s.g.mem
    ensures WellShaped(s'.g) && Lists(s'.g) == Lists(s.g)
  {
  }

  ghost predicate ThreadMoves(s: Sys, s': Sys, t: Tid) {
    && (forall u | u != t :: u in s'.threads <==> u in s.threads)
    && (forall u | u != t && u in s.threads :: s'.threads[u] == s.threads[u])
  }

  function Waits1(s: Sys, t: Tid): Option<(Path, Chan)> {
    if t in s.threads then WaitsOn(s.threads[t]) else None
  }

  ghost predicate QuietMove(s: Sys, s': Sys, t: Tid) {
    && s'.g.waiters == s.g.waiters && s'.g.mem == s.g.mem
    && s'.closed == s.closed && s'.next == s.next && s'.panicked == s.panicked
    && ThreadMoves(s, s', t) && (t in s'.threads ==> !s'.threads[t].Waking?)
  }

  lemma FoundMoves(s: Sys, t: Tid, p: Path, why: Purpose, v: Option<string>)
    ensures QuietMove(s, Found(s, t, p, why, v), t)
    ensures Waits1(Found(s, t, p, why, v), t) == if why.AfterWake? then Some((p, why.ch)) else None
  {
  }

  lemma LookMoves(s: Sys, t: Tid, p: Path, why: Purpose)
    ensures QuietMove(s, Look(s, t, p, why), t)
    ensures Waits1(Look(s, t, p, why), t) == if why.AfterWake? then Some((p, why.ch)) else None
  {
    if p in s.g.cache { FoundMoves(s, t, p, why, Some(s.g.cache[p])); }
  }

  lemma QuietMoves(s: Sys, a: Action)
    requires WellShaped(s.g) && Enabled(s, a) && IsQuiet(a)
    ensures QuietMove(s, Apply(s, a), a.t) && Waits1(Apply(s, a), a.t) == Waits1(s, a.t)
  {
    match a
    case CallGet(t, p) => LookMoves(s, t, p, ForCaller);
    case CallWait(t, p) => LookMoves(s, t, p, BeforeWait);
    case Woken(t) => LookMoves(s, t, s.threads[t].p, AfterWake(s.threads[t].ch));
    case ReadKeyring(t, ok) => FoundMoves(s, t, s.threads[t].p, s.threads[t].why, None);
    case Fill(t) =>
      var pc := s.threads[t];
      FoundMoves(s.(g := FillCache(s.g, pc.p, pc.v)), t, pc.p, pc.why, Some(pc.v));
    case _ =>
  }

  lemma QuietAction(s: Sys, s': Sys, t: Tid)
    requires WellShaped(s.g) && QuietMove(s, s', t) && Waits1(s', t) == Waits1(s, t)
    requires t in s.threads && s.threads[t].Waking? ==> s.threads[t].todo == []
    ensures WellShaped(s'.g) && Quiet(Abstract(s), Abstract(s'), t)
  {
    SameLists(s, s');
  }

  lemma QuietKeepsTaken(s: Sys, s': Sys, t: Tid)
    requires WellShaped(s.g) && TakenIntact(s) && s'.g.waiters == s.g.waiters && s'.g.mem == s.g.mem
    requires WellShaped(s'.g) && OnlyMoves(Abstract(s), Abstract(s'), t) && s'.closed == s.closed
    requires t in s'.threads ==> !s'.threads[t].Waking?
    ensures TakenIntact(s')
  {
    forall u | u in s'.threads && s'.threads[u].Waking?
      ensures Apart(s'.g, s'.threads[u]) && forall c | c in s'.threads[u].done :: c in s'.closed
    {
      SameElsewhere(Abstract(s), Abstract(s'), t, u);
    }
  }

  lemma StepQuiet(s: Sys, a: Action)
    requires WellShaped(s.g) && Sound(Abstract(s)) && TakenIntact(s) && Enabled(s, a) && IsQuiet(a)
    ensures var s' := Apply(s, a);
      WellShaped(s'.g) && Sound(Abstract(s')) && TakenIntact(s') && s'.panicked == s.panicked
  {
    QuietMoves(s, a);
    QuietAction(s, Apply(s, a), a.t);
    QuietKeeps(Abstract(s), Abstract(Apply(s, a)), a.t);
    QuietKeepsTaken(s, Apply(s, a), a.t);
  }

  lemma JoinedByLists(s: Sys, s': Sys, t: Tid, p: Path)
    requires WellShaped(s.g) && WellShaped(s'.g) && t in s.threads && s.threads[t].Registering? && s.threads[t].p == p
    requires Listed(s'.g, p) == Listed(s.g, p) + [Chan(t, s.next)]
    requires forall q | q != p :: Listed(s'.g, q) == Listed(s.g, q)
    requires s'.threads == s.threads[t := Blocked(p, Chan(t, s.next))] && s'.closed == s.closed && s'.next == s.next + 1
    ensures Joined(Abstract(s), Abstract(s'), t, p)
  {
  }

  lemma JoinAction(s: Sys, t: Tid, spare: nat)
    requires WellShaped(s.g) && Enabled(s, JoinWaiters(t, spare))
    ensures var s' := Apply(s, JoinWaiters(t, spare));
      WellShaped(s'.g) && Joined(Abstract(s), Abstract(s'), t, s.threads[t].p)
  {
    RegisterLists(s.g, s.threads[t].p, Chan(t, s.next), spare);
    JoinedByLists(s, Apply(s, JoinWaiters(t, spare)), t, s.threads[t].p);
  }

  lemma JoinKeepsTaken(s: Sys, t: Tid, spare: nat)
    requires WellShaped(s.g) && TakenIntact(s) && Enabled(s, JoinWaiters(t, spare))
    ensures WellShaped(Apply(s, JoinWaiters(t, spare)).g) && TakenIntact(Apply(s, JoinWaiters(t, spare)))
  {
    var s' := Apply(s, JoinWaiters(t, spare));
    var p := s.threads[t].p;
    RegisterLists(s.g, p, Chan(t, s.next), spare);
    forall u | u in s'.threads && s'.threads[u].Waking?
      ensures Apart(s'.g, s'.threads[u]) && forall c | c in s'.threads[u].done :: c in s'.closed
    {
      RegisterKeepsApart(s.g, p, Chan(t, s.next), spare, s.threads[u]);
    }
  }

  lemma LeftByLists(s: Sys, s': Sys, t: Tid, p: Path, ch: Chan)
    requires WellShaped(s.g) && WellShaped(s'.g) && t in s.threads && WaitsOn(s.threads[t]) == Some((p, ch))
    requires Listed(s'.g, p) == Without(Listed(s.g, p), ch) && forall q | q != p :: Listed(s'.g, q) == Listed(s.g, q)
    requires s'.threads == s.threads - {t} && s'.closed == s.closed && s'.next == s.next
    ensures Left(Abstract(s), Abstract(s'), t)
  {
  }

  lemma LeaveAction(s: Sys, t: Tid)
    requires WellShaped(s.g) && Enabled(s, LeaveWait(t))
    ensures var s' := Apply(s, LeaveWait(t));
      WellShaped(s'.g) && Left(Abstract(s), Abstract(s'), t) && s'.panicked == s.panicked
  {
    var (p, ch) := (s.threads[t].p, s.threads[t].ch);
    var s' := Apply(s, LeaveWait(t));
    assert s'.g == RemoveWaiter(s.g, p, ch);
    RemoveLists(s.g, p, ch);
    LeftByLists(s, s', t, p, ch);
  }

  lemma LeaveKeepsTaken(s: Sys, t: Tid)
    requires WellShaped(s.g) && TakenIntact(s) && Enabled(s, LeaveWait(t))
    ensures WellShaped(Apply(s, LeaveWait(t)).g) && TakenIntact(Apply(s, LeaveWait(t)))
  {
    var s' := Apply(s, LeaveWait(t));
    var pc := s.threads[t];
    RemoveLists(s.g, pc.p, pc.ch);
    forall u | u in s'.threads && s'.threads[u].Waking?
      ensures Apart(s'.g, s'.threads[u]) && forall c | c in s'.threads[u].done :: c in s'.closed
    {
      RemoveKeepsApart(s.g, pc.p, pc.ch, s.threads[u]);
    }
  }

  lemma TakeAction(s: Sys, t: Tid, p: Path, v: string)
    requires WellShaped(s.g) && Enabled(s, CallSet(t, p, v))
    ensures var s' := Apply(s, CallSet(t, p, v));
      WellShaped(s'.g) && Took(Abstract(s), Abstract(s'), t, p) && s'.panicked == s.panicked
  {
  }

  lemma TakeKeepsTaken(s: Sys, t: Tid, p: Path, v: string)
    requires WellShaped(s.g) && TakenIntact(s) && Enabled(s, CallSet(t, p, v))
    ensures WellShaped(Apply(s, CallSet(t, p, v)).g) && TakenIntact(Apply(s, CallSet(t, p, v)))
  {
  }

  lemma CloseAction(s: Sys, t: Tid)
    requires WellShaped(s.g) && Enabled(s, CloseNext(t))
    ensures var s' := Apply(s, CloseNext(t));
      && WellShaped(s'.g) && ClosedOne(Abstract(s), Abstract(s'), t)
      && s'.panicked == (s.panicked || Todo(Abstract(s), t)[0] in s.closed)
  {
  }

  lemma CloseKeepsTaken(s: Sys, t: Tid)
    requires WellShaped(s.g) && TakenIntact(s) && Enabled(s, CloseNext(t))
    ensures WellShaped(Apply(s, CloseNext(t)).g) && TakenIntact(Apply(s, CloseNext(t)))
  {
    var pc := s.threads[t];
    assert pc.done + [pc.todo[0]] + pc.todo[1..] == pc.done + pc.todo;
  }

  lemma StepKeeps(s: Sys, a: Action)
    requires Inv(s) && Enabled(s, a)
    ensures Inv(Apply(s, a))
  {
    StepHonest(s, a);
    match a
    case JoinWaiters(t, spare) =>
      JoinAction(s, t, spare);
      JoinKeeps(Abstract(s), Abstract(Apply(s, a)), t, s.threads[t].p);
      JoinKeepsTaken(s, t, spare);
    case LeaveWait(t) =>
      LeaveAction(s, t);
      LeaveKeeps(Abstract(s), Abstract(Apply(s, a)), t);
      LeaveKeepsTaken(s, t);
    case CallSet(t, p, v) =>
      TakeAction(s, t, p, v);
      TakeKeeps(Abstract(s), Abstract(Apply(s, a)), t, p);
      TakeKeepsTaken(s, t, p, v);
    case CloseNext(t) =>
      CloseAction(s, t);
      CloseKeeps(Abstract(s), Abstract(Apply(s, a)), t);
      CloseKeepsTaken(s, t);
    case OtherProcess(_, _) =>
      assert Abstract(Apply(s, a)) == Abstract(s);
    case _ => StepQuiet(s, a);
  }

  /** A run: each action is enabled where it happens. */
  ghost predicate IsRun(s: Sys, acts: seq<Action>, s': Sys)
    decreases |acts|
  {
    if acts == [] then s' == s
    else WellShaped(s.g) && Enabled(s, acts[0]) && IsRun(Apply(s, acts[0]), acts[1..], s')
  }

  lemma {:induction false} RunKeeps(s: Sys, acts: seq<Action>, s': Sys)
    requires Inv(s) && IsRun(s, acts, s')
    ensures Inv(s')
    decreases |acts|
  {
    if acts != [] {
      StepKeeps(s, acts[0]);
      RunKeeps(Apply(s, acts[0]), acts[1..], s');
    }
  }

  /** Over every interleaving of any number of calls: no channel is closed twice; a Wait that
      has registered and not yet left is listed, about to be closed by a Set on its path, or
      closed; the list a Set took reads as it did when taken; and every value handed back for a
      path was Set for it or held for it by the keyring. */
  lemma Rendezvous(s0: Sys, acts: seq<Action>, s: Sys)
    requires Start(s0) && IsRun(s0, acts, s)
    ensures WellShaped(s.g) && !s.panicked
    ensures forall t | t in s.threads && WaitsOn(s.threads[t]).Some? ::
      var (p, c) := WaitsOn(s.threads[t]).value;
      c in Listed(s.g, p) || c in s.closed
      || exists u :: u in s.threads && s.threads[u].Waking? && s.threads[u].p == p && c in s.threads[u].todo
    ensures forall t | t in s.threads && s.threads[t].Waking? ::
      SliceOk(s.g.mem, s.threads[t].taken)
      && Contents(s.g.mem, s.threads[t].taken) == s.threads[t].done + s.threads[t].todo
    ensures forall i | 0 <= i < |s.returned| :: s.returned[i] in s.provided
  {
    RunKeeps(s0, acts, s);
    var w := Abstract(s);
    forall t | t in s.threads && WaitsOn(s.threads[t]).Some?
      ensures var (p, c) := WaitsOn(s.threads[t]).value;
        c in Listed(s.g, p) || c in s.closed
        || exists u :: u in s.threads && s.threads[u].Waking? && s.threads[u].p == p && c in s.threads[u].todo
    {
      assert WaitOf(w, t) == WaitsOn(s.threads[t]);
      assert Reached(w, t);
      var (p, c) := WaitsOn(s.threads[t]).value;
      if Taken(w, p, c) {
        var u :| c in Todo(w, u) && w.threads[u].p == p;
        assert u in s.threads;
      }
    }
  }

  /** Once no Wait is in progress, the waiters map is empty. */
  lemma NoEntryOutlivesItsWaits(s0: Sys, acts: seq<Action>, s: Sys)
    requires Start(s0) && IsRun(s0, acts, s)
    requires forall t | t in s.threads :: WaitsOn(s.threads[t]) == None
    ensures s.g.waiters == map[]
  {
    RunKeeps(s0, acts, s);
    if p :| p in s.g.waiters {
      FirstOwner(s, p);
    }
  }

  lemma FirstOwner(s: Sys, p: Path)
    requires Inv(s) && p in s.g.waiters
    ensures exists t :: t in s.threads && WaitsOn(s.threads[t]).Some?
  {
    var c := Listed(s.g, p)[0];
    assert c in On(Abstract(s).lists, p);
    assert WaitOf(Abstract(s), c.owner) == Some((p, c));
    assert c.owner in s.threads;
  }

  /** While a Set's list is being closed, each channel found is closed or still to close; a step
      that ends the Set leaves them all closed. */
  ghost predicate Closing(s: Sys, t: Tid, found: set<Chan>) {
    if t in s.threads && s.threads[t].Waking?
    then forall c | c in found :: c in s.closed || c in s.threads[t].todo
    else found <= s.closed
  }

  lemma ClosingStep(s: Sys, a: Action, t: Tid, found: set<Chan>)
    requires WellShaped(s.g) && Enabled(s, a) && Closing(s, t, found)
    requires (t in s.threads && s.threads[t].Waking?) || found <= s.closed
    ensures Closing(Apply(s, a), t, found)
  {
    var m := Apply(s, a);
    assert s.closed <= m.closed;
    if t in s.threads && s.threads[t].Waking? && !(a.CloseNext? && a.t == t) {
      assert (a.FinishSet? && a.t == t) || PcOf(Abstract(s), t) == Some(m.threads[t]);
    }
  }

  /** The channels a Set found listed are all closed by the time it returns, whatever the other
      calls do meanwhile. */
  lemma {:induction false} SetClosesWhatItFound(s: Sys, t: Tid, found: set<Chan>, acts: seq<Action>, s': Sys)
    requires IsRun(s, acts, s') && Closing(s, t, found)
    ensures Closing(s', t, found)
    decreases |acts|
  {
    if acts != [] {
      ClosingStep(s, acts[0], t, found);
      SetClosesWhatItFound(Apply(s, acts[0]), t, found, acts[1..], s');
    }
  }

  /** Set(p, v) from any reachable state: every waiter listed for p when it takes the lock is
      woken, and by this Set (no channel it found was closed before). */
  lemma SetWakesEveryListedWaiter(s0: Sys, before: seq<Action>, s: Sys, t: Tid, p: Path, v: string, after: seq<Action>,
                                  s': Sys)
    requires Start(s0) && IsRun(s0, before, s) && WellShaped(s.g) && Enabled(s, CallSet(t, p, v))
    requires IsRun(Apply(s, CallSet(t, p, v)), after, s') && t !in s'.threads
    ensures forall c | c in Listed(s.g, p) :: c !in s.closed && c in s'.closed
  {
    RunKeeps(s0, before, s);
    OpenWhileListed(s, p);
    var found := set c | c in Listed(s.g, p);
    SetClosesWhatItFound(Apply(s, CallSet(t, p, v)), t, found, after, s');
    assert forall c | c in Listed(s.g, p) :: c in found;
  }

  lemma OpenWhileListed(s: Sys, p: Path)
    requires Inv(s)
    ensures forall c | c in Listed(s.g, p) :: c !in s.closed
  {
    assert On(Abstract(s).lists, p) == Listed(s.g, p);
  }
}
