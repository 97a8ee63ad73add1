/** The hand-off of live listening sockets from a standalone process to the daemon it spawns
    (internal/tui/handoff.go, StartEnabledWith in internal/forward/engine.go, Start in
    internal/daemon/server.go, adoptPassedListeners in internal/cmd/daemon.go), as steps of
    three threads: the standalone's main thread, its sender, and the daemon. */
module Handoff {

  type Name = string

  /** One tuber of the daemon's config. */
  datatype Entry = Entry(name: Name, enabled: bool, remote: bool)

  /** Who has an open descriptor of a socket: the standalone's tuber, the duplicate it made for
      sending, the message in flight, the daemon's received descriptor, the listener made from
      it, the daemon's tuber. */
  datatype Holder = Own | Dup | Wire | Raw | Adopted | Owner

  datatype Main = Listing | Spawning | Waiting | Ready | Joined | Released | Gone | GaveUp | Legacy

  datatype Sender = Idle | Accepting | Sent | SendDone | SendFailed

  /** The daemon: receiving, turning received descriptors into listeners one by one, starting its
      enabled tubers one by one, closing the listeners it does not use, serving. */
  datatype Daemon =
    | Off
    | Dialing
    | Receiving(raw: set<Name>)
    | Starting(todo: set<Name>)
    | Closing(unused: set<Name>)
    | Serving

  /** `sent` are the running local and dynamic tubers of the standalone; `transferred` becomes true
      when the daemon has received them all, `leaked` are those whose descriptors a failed receive
      left open in the daemon.  `rebound` are the tubers for which the daemon bound a socket of its
      own. */
  datatype Sys = Sys(
    sent: set<Name>, cfg: seq<Entry>, main: Main, sender: Sender, daemon: Daemon, transferred: bool,
    leaked: set<Name>, held: map<Name, set<Holder>>, rebound: set<Name>)

  datatype Action =
    | MakeDups
    | Spawn(ok: bool)
    | SendMessage(ok: bool)
    | CloseDups
    | Receive                                // every descriptor arrives and is parsed
    | FailToReceive(left: set<Name>)         // `left` arrived and nobody closes them
    | AdoptOne(n: Name)
    | StartOne(n: Name)
    | CloseOne(n: Name)
    | NextPhase
    | Healthy
    | TimeOut
    | JoinSender
    | Release
    | Exit

  predicate UniqueNames(cfg: seq<Entry>) { forall i, j | 0 <= i < j < |cfg| :: cfg[i].name != cfg[j].name }

  datatype Test = IsEnabled | IsRemote | IsLocal | StartsLocal | StartsRemote

  predicate Passes(e: Entry, p: Test) {
    match p
    case IsEnabled => e.enabled
    case IsRemote => e.remote
    case IsLocal => !e.remote
    case StartsLocal => e.enabled && !e.remote
    case StartsRemote => e.enabled && e.remote
  }

  /** The entries that pass a test, in order, and the names of a list of entries. */
  function Select(es: seq<Entry>, p: Test): seq<Entry> {
    if es == [] then []
    else if Passes(es[|es| - 1], p) then Select(es[..|es| - 1], p) + [es[|es| - 1]]
    else Select(es[..|es| - 1], p)
  }

  function Names(es: seq<Entry>): set<Name> {
    if es == [] then {} else Names(es[..|es| - 1]) + {es[|es| - 1].name}
  }

  function EnabledNames(cfg: seq<Entry>): set<Name> { Names(Select(cfg, IsEnabled)) }

  function RemoteNames(cfg: seq<Entry>): set<Name> { Names(Select(cfg, IsRemote)) }

  /** The enabled local and dynamic tubers. */
  function Takers(cfg: seq<Entry>): set<Name> { EnabledNames(cfg) - RemoteNames(cfg) }

  /** The sockets that must not go down: sent, and served by an enabled local or dynamic tuber. */
  function Kept(s: Sys): set<Name> { s.sent * EnabledNames(s.cfg) - RemoteNames(s.cfg) }

  function Put(held: map<Name, set<Holder>>, ns: set<Name>, h: Holder): map<Name, set<Holder>> {
    map n | n in held :: if n in ns then held[n] + {h} else held[n]
  }

  function Drop(held: map<Name, set<Holder>>, ns: set<Name>, h: Holder): map<Name, set<Holder>> {
    map n | n in held :: if n in ns then held[n] - {h} else held[n]
  }

  predicate Initial(s: Sys) {
    && UniqueNames(s.cfg) && s.sent != {}
    && s.main.Listing? && s.sender.Idle? && s.daemon.Off? && !s.transferred && s.leaked == {} && s.rebound == {}
    && s.held == map n | n in s.sent :: {Own}
  }

  /** At most this many descriptors fit the receiver's ancillary buffer. */
  const MAX_RECEIVED := 32

  /** A receive that fails after the message arrived (truncated, not parsed, or a descriptor that
      is no listener) closes at most what it has turned into listeners; a truncated one closes
      nothing of what fitted. */
  predicate CanLeave(s: Sys, left: set<Name>) {
    && (s.sender.Sent? || s.sender.SendDone?) && left <= s.sent && |left| <= MAX_RECEIVED
    && (|s.sent| > MAX_RECEIVED ==> |left| == MAX_RECEIVED)
  }

  predicate Enabled(s: Sys, a: Action) {
    match a
    case MakeDups => s.main.Listing?
    case Spawn(_) => s.main.Spawning?
    case SendMessage(ok) => s.sender.Accepting? && (ok ==> s.daemon.Dialing?)
    case CloseDups => s.sender.Sent?
    case Receive => s.daemon.Dialing? && (s.sender.Sent? || s.sender.SendDone?) && |s.sent| <= MAX_RECEIVED
    case FailToReceive(left) => s.daemon.Dialing? && (left == {} || CanLeave(s, left))
    case AdoptOne(n) => s.daemon.Receiving? && n in s.daemon.raw
    case StartOne(n) => s.daemon.Starting? && n in s.daemon.todo
    case CloseOne(n) => s.daemon.Closing? && n in s.daemon.unused
    case NextPhase =>
      || (s.daemon.Receiving? && s.daemon.raw == {})
      || (s.daemon.Starting? && s.daemon.todo == {})
      || (s.daemon.Closing? && s.daemon.unused == {})
    case Healthy => s.main.Waiting? && s.daemon.Serving?
    case TimeOut => s.main.Waiting?
    case JoinSender => s.main.Ready? && (s.sender.SendDone? || s.sender.SendFailed?)
    case Release => s.main.Joined?
    case Exit => s.main.Released?
  }

  /** Starting tuber n: an adopted listener is taken over unless the tuber is remote (then it stays
      open, owned by nobody); without one the daemon binds, which fails while the port is held. */
  function StartTuber(s: Sys, n: Name): Sys {
    if n in s.held && Adopted in s.held[n] then
      if n in RemoteNames(s.cfg) then s
      else s.(held := Put(Drop(s.held, {n}, Adopted), {n}, Owner))
    else if n in RemoteNames(s.cfg) || (n in s.held && s.held[n] != {}) then s
    else s.(rebound := s.rebound + {n})
  }

  function Apply(s: Sys, a: Action): Sys
    requires Enabled(s, a)
  {
    match a
    case MakeDups => s.(main := Spawning, held := Put(s.held, s.sent, Dup))
    case Spawn(ok) =>
      if ok then s.(main := Waiting, sender := Accepting, daemon := Dialing)
      else s.(main := Legacy, held := Drop(s.held, s.sent, Dup))
    case SendMessage(ok) =>
      if ok then s.(sender := Sent, held := Put(s.held, s.sent, Wire)) else s.(sender := SendFailed)
    case CloseDups => s.(sender := SendDone, held := Drop(s.held, s.sent, Dup))
    case Receive =>
      s.(daemon := Receiving(s.sent), transferred := true, held := Put(Drop(s.held, s.sent, Wire), s.sent, Raw))
    case FailToReceive(left) =>
      s.(daemon := Starting(EnabledNames(s.cfg)), leaked := left, held := Put(Drop(s.held, s.sent, Wire), left, Raw),
         sender := if s.sender.Accepting? then SendFailed else s.sender)
    case AdoptOne(n) =>
      s.(daemon := Receiving(s.daemon.raw - {n}), held := Put(Drop(s.held, {n}, Raw), {n}, Adopted))
    case StartOne(n) => StartTuber(s, n).(daemon := Starting(s.daemon.todo - {n}))
    case CloseOne(n) => s.(daemon := Closing(s.daemon.unused - {n}), held := Drop(s.held, {n}, Adopted))
    case NextPhase =>
      s.(daemon := match s.daemon
                   case Receiving(_) => Starting(EnabledNames(s.cfg))
                   case Starting(_) => Closing(if s.transferred then s.sent - EnabledNames(s.cfg) else {})
                   case _ => Serving)
    case Healthy => s.(main := Ready)
    case TimeOut => s.(main := GaveUp)
    case JoinSender => s.(main := Joined)
    case Release => s.(main := Released, held := Drop(s.held, s.sent, Own))
    case Exit => s.(main := Gone, held := Drop(s.held, s.sent, Dup))
  }

  // ----- Who holds what, read off the program counters -----

  /** The descriptors of socket n that are open in the three places, as the counters tell. */
  function Standalone(s: Sys): set<Holder> {
    (if s.main.Released? || s.main.Gone? then {} else {Own})
    + (if s.main.Listing? || s.main.Legacy? || s.main.Gone? || s.sender.SendDone? then {} else {Dup})
  }

  function Flying(s: Sys): set<Holder> {
    if (s.sender.Sent? || s.sender.SendDone?) && (s.daemon.Off? || s.daemon.Dialing?) then {Wire} else {}
  }

  function InDaemon(s: Sys, n: Name): set<Holder> {
    if !s.transferred then if n in s.leaked then {Raw} else {}
    else
      match s.daemon
      case Receiving(raw) => if n in raw then {Raw} else {Adopted}
      case Starting(todo) => Placed(s, n, todo, {})
      case Closing(unused) => Placed(s, n, {}, s.sent - EnabledNames(s.cfg) - unused)
      case Serving => Placed(s, n, {}, s.sent - EnabledNames(s.cfg))
      case _ => {}
  }

  /** Where the daemon has socket n when `todo` is left to start and `gone` has been closed. */
  function Placed(s: Sys, n: Name, todo: set<Name>, gone: set<Name>): set<Holder> {
    if n in gone then {}
    else if n in EnabledNames(s.cfg) && n !in todo && n !in RemoteNames(s.cfg) then {Owner}
    else {Adopted}
  }

  ghost predicate Counters(s: Sys) {
    && UniqueNames(s.cfg) && s.held.Keys == s.sent
    && (s.main.Listing? || s.main.Spawning? || s.main.Legacy? <==> s.sender.Idle?)
    && (s.sender.Idle? <==> s.daemon.Off?)
    && (s.transferred ==> (s.sender.Sent? || s.sender.SendDone?) && !s.daemon.Dialing?)
    && (!s.transferred ==> !s.daemon.Receiving?)
    && (s.transferred ==> |s.sent| <= MAX_RECEIVED)
    && (!s.daemon.Off? && !s.daemon.Dialing? && !s.transferred ==> !s.sender.Accepting?)
    && (s.leaked != {} ==> !s.transferred && !s.daemon.Off? && !s.daemon.Dialing? && CanLeave(s, s.leaked))
    && (s.main.Ready? || s.main.Joined? || s.main.Released? || s.main.Gone? ==> s.daemon.Serving?)
    && (s.main.Joined? || s.main.Released? || s.main.Gone? ==> s.sender.SendDone? || s.sender.SendFailed?)
    && (s.daemon.Starting? ==> s.daemon.todo <= EnabledNames(s.cfg))
    && (s.daemon.Closing? ==> s.daemon.unused <= if s.transferred then s.sent - EnabledNames(s.cfg) else {})
  }

  function Expected(s: Sys, n: Name): set<Holder> { Standalone(s) + Flying(s) + InDaemon(s, n) }

  /** The enabled tubers the daemon has still to start. */
  function Unstarted(s: Sys): set<Name> {
    match s.daemon
    case Starting(todo) => todo
    case Closing(_) => {}
    case Serving => {}
    case _ => EnabledNames(s.cfg)
  }

  /** The daemon binds the ports of its started local tubers that were not sent, and no others: while
      a sent one waits to be started it is still held. */
  ghost predicate BindsTheRest(s: Sys) { s.rebound == Takers(s.cfg) - s.sent - Unstarted(s) }

  ghost predicate Inv(s: Sys) {
    Counters(s) && BindsTheRest(s) && forall n | n in s.sent :: Held(s, n)
  }

  ghost predicate Held(s: Sys, n: Name) { n in s.held && s.held[n] == Expected(s, n) }

  predicate ByDaemon(a: Action) {
    a.Receive? || a.FailToReceive? || a.AdoptOne? || a.StartOne? || a.CloseOne? || a.NextPhase?
  }

  lemma CountersKeptInside(s: Sys, a: Action)
    requires Counters(s) && Enabled(s, a) && ByDaemon(a)
    ensures Counters(Apply(s, a))
  {
  }

  lemma CountersKeptOutside(s: Sys, a: Action)
    requires Counters(s) && Enabled(s, a) && !ByDaemon(a)
    ensures Counters(Apply(s, a))
  {
  }

  lemma FrameKept(s: Sys, a: Action)
    requires Enabled(s, a)
    ensures Apply(s, a).sent == s.sent && Apply(s, a).cfg == s.cfg
  {
  }

  lemma StartBinds(s: Sys, n: Name)
    requires Counters(s) && Enabled(s, StartOne(n)) && BindsTheRest(s) && (n in s.sent ==> Held(s, n))
    ensures BindsTheRest(Apply(s, StartOne(n)))
  {
    if n in s.sent {
      assert Own in Standalone(s);
    }
  }

  lemma ReboundKept(s: Sys, a: Action)
    requires Counters(s) && Enabled(s, a) && BindsTheRest(s) && forall n | n in s.sent :: Held(s, n)
    ensures BindsTheRest(Apply(s, a))
  {
    if a.StartOne? {
      assert a.n in s.sent ==> Held(s, a.n);
      StartBinds(s, a.n);
    }
  }

  /** How a step of the standalone changes what is expected of one socket. */
  lemma ExpectedStepOutside(s: Sys, a: Action, n: Name)
    requires Counters(s) && Enabled(s, a) && n in s.sent && Held(s, n) && !ByDaemon(a)
    ensures Held(Apply(s, a), n)
  {
  }

  /** How a step of the daemon does, phase by phase. */
  lemma ReceiveKeepsHeld(s: Sys, a: Action, n: Name)
    requires Counters(s) && Enabled(s, a) && n in s.sent && Held(s, n) && (a.Receive? || a.FailToReceive?)
    ensures Held(Apply(s, a), n)
  {
  }

  lemma AdoptKeepsHeld(s: Sys, a: Action, n: Name)
    requires Counters(s) && Enabled(s, a) && n in s.sent && Held(s, n) && a.AdoptOne?
    ensures Held(Apply(s, a), n)
  {
  }

  lemma StartKeepsOthers(s: Sys, a: Action, n: Name)
    requires Counters(s) && Enabled(s, a) && n in s.sent && Held(s, n) && a.StartOne? && a.n != n
    ensures Held(Apply(s, a), n)
  {
    assert n in StartTuber(s, a.n).held && StartTuber(s, a.n).held[n] == s.held[n];
  }

  lemma StartKeepsThis(s: Sys, n: Name)
    requires Counters(s) && Enabled(s, StartOne(n)) && n in s.sent && Held(s, n)
    ensures Held(Apply(s, StartOne(n)), n)
  {
    assert Own in s.held[n];
    assert InDaemon(s, n) == if !s.transferred then if n in s.leaked then {Raw} else {} else {Adopted};
  }

  lemma StartKeepsHeld(s: Sys, a: Action, n: Name)
    requires Counters(s) && Enabled(s, a) && n in s.sent && Held(s, n) && a.StartOne?
    ensures Held(Apply(s, a), n)
  {
    if a.n == n { StartKeepsThis(s, n); } else { StartKeepsOthers(s, a, n); }
  }

  lemma CloseKeepsHeld(s: Sys, a: Action, n: Name)
    requires Counters(s) && Enabled(s, a) && n in s.sent && Held(s, n) && a.CloseOne?
    ensures Held(Apply(s, a), n)
  {
  }

  lemma PhaseKeepsHeld(s: Sys, a: Action, n: Name)
    requires Counters(s) && Enabled(s, a) && n in s.sent && Held(s, n) && a.NextPhase?
    ensures Held(Apply(s, a), n)
  {
  }

  lemma ExpectedStep(s: Sys, a: Action, n: Name)
    requires Counters(s) && Enabled(s, a) && n in s.sent && Held(s, n)
    ensures Held(Apply(s, a), n)
  {
    match a
    case Receive => ReceiveKeepsHeld(s, a, n);
    case FailToReceive(_) => ReceiveKeepsHeld(s, a, n);
    case AdoptOne(_) => AdoptKeepsHeld(s, a, n);
    case StartOne(_) => StartKeepsHeld(s, a, n);
    case CloseOne(_) => CloseKeepsHeld(s, a, n);
    case NextPhase => PhaseKeepsHeld(s, a, n);
    case _ => ExpectedStepOutside(s, a, n);
  }

  lemma StepKeeps(s: Sys, a: Action)
    requires Inv(s) && Enabled(s, a)
    ensures Inv(Apply(s, a)) && Apply(s, a).sent == s.sent && Apply(s, a).cfg == s.cfg
  {
    if ByDaemon(a) { CountersKeptInside(s, a); } else { CountersKeptOutside(s, a); }
    FrameKept(s, a);
    ReboundKept(s, a);
    forall n | n in s.sent ensures Held(Apply(s, a), n) {
      ExpectedStep(s, a, n);
    }
  }

  ghost predicate IsRun(s: Sys, acts: seq<Action>, s': Sys)
    decreases |acts|
  {
    if acts == [] then s' == s else Enabled(s, acts[0]) && IsRun(Apply(s, acts[0]), acts[1..], s')
  }

  lemma {:induction false} RunKeeps(s: Sys, acts: seq<Action>, s': Sys)
    requires Inv(s) && IsRun(s, acts, s')
    ensures Inv(s') && s'.sent == s.sent && s'.cfg == s.cfg
    decreases |acts|
  {
    if acts != [] {
      StepKeeps(s, acts[0]);
      RunKeeps(Apply(s, acts[0]), acts[1..], s');
    }
  }

  /** At every step of every interleaving, a sent socket served by an enabled local or dynamic tuber
      of the daemon has an open descriptor somewhere, unless the transfer failed and the
      standalone has let go. */
  lemma PortsStayUp(s0: Sys, acts: seq<Action>, s: Sys, n: Name)
    requires Initial(s0) && IsRun(s0, acts, s) && n in Kept(s)
    ensures n in s.held && (s.held[n] != {} || (!s.transferred && (s.main.Released? || s.main.Gone?)))
  {
    RunKeeps(s0, acts, s);
    assert Held(s, n);
    if s.main.Released? || s.main.Gone? {
      if s.transferred { assert Owner in InDaemon(s, n); }
    } else {
      assert Own in Standalone(s);
    }
  }

  lemma LeftAtTheEnd(s: Sys, n: Name)
    requires Inv(s) && s.main.Gone? && n in s.sent
    ensures n in s.held && s.held[n] == InDaemon(s, n)
    ensures s.transferred ==> InDaemon(s, n) == Placed(s, n, {}, s.sent - EnabledNames(s.cfg))
  {
    assert Held(s, n);
  }

  /** At the end of a hand-off whose transfer succeeded: an enabled local or dynamic tuber's socket
      has exactly one owner, the daemon's tuber; a disabled or unknown tuber's is closed; an
      enabled remote tuber's stays open with nobody to serve it. */
  lemma EndsWithOneOwner(s0: Sys, acts: seq<Action>, s: Sys, n: Name)
    requires Initial(s0) && IsRun(s0, acts, s) && s.main.Gone? && s.transferred && n in s.sent
    ensures n in s.held && s.held[n] ==
      if n !in EnabledNames(s.cfg) then {} else if n in RemoteNames(s.cfg) then {Adopted} else {Owner}
    ensures n !in s.rebound
  {
    InitialInv(s0);
    RunKeeps(s0, acts, s);
    LeftAtTheEnd(s, n);
    ServingBinds(s);
  }

  /** At the end such a tuber serves its port exactly if the transfer succeeded: the daemon answers
      all the same when it failed, but could not bind a port the standalone still held. */
  lemma ServedIffTransferred(s0: Sys, acts: seq<Action>, s: Sys, n: Name)
    requires Initial(s0) && IsRun(s0, acts, s) && s.main.Gone? && n in Kept(s)
    ensures n in s.held && (Owner in s.held[n] <==> s.transferred) && n !in s.rebound
  {
    InitialInv(s0);
    RunKeeps(s0, acts, s);
    LeftAtTheEnd(s, n);
    ServingBinds(s);
  }

  /** After a failed transfer a socket is open at the end exactly if its descriptor was left in the
      daemon; then the port stays taken and nobody serves it.  With more sockets than fit no
      transfer succeeds, and a message that was read at all leaves as many as fit. */
  lemma WhatFailureLeaves(s0: Sys, acts: seq<Action>, s: Sys, n: Name)
    requires Initial(s0) && IsRun(s0, acts, s) && s.main.Gone? && n in s.sent
    ensures |s.sent| > MAX_RECEIVED ==> !s.transferred && (s.leaked == {} || |s.leaked| == MAX_RECEIVED)
    ensures !s.transferred ==> n in s.held && s.held[n] == if n in s.leaked then {Raw} else {}
  {
    RunKeeps(s0, acts, s);
    LeftAtTheEnd(s, n);
  }

  lemma InitialInv(s0: Sys)
    requires Initial(s0)
    ensures Inv(s0)
  {
  }

  lemma ServingBinds(s: Sys)
    requires Inv(s) && s.main.Gone?
    ensures s.rebound == Takers(s.cfg) - s.sent
  {
    assert s.daemon.Serving?;
  }

  /** However a hand-off ends, the daemon has then bound the ports of exactly those of its enabled
      local and dynamic tubers that were not sent. */
  lemma BindsWhatWasNotSent(s0: Sys, acts: seq<Action>, s: Sys)
    requires Initial(s0) && IsRun(s0, acts, s) && s.main.Gone?
    ensures s.sent == s0.sent && s.cfg == s0.cfg && s.rebound == Takers(s0.cfg) - s0.sent
  {
    InitialInv(s0);
    RunKeeps(s0, acts, s);
    ServingBinds(s);
  }

  /** A standalone whose daemon cannot be spawned, or is not healthy in time, still holds every socket;
      in the first case nobody else does. */
  lemma StandaloneKeepsItsPorts(s0: Sys, acts: seq<Action>, s: Sys, n: Name)
    requires Initial(s0) && IsRun(s0, acts, s) && (s.main.Legacy? || s.main.GaveUp?) && n in s.sent
    ensures n in s.held && Own in s.held[n] && (s.main.Legacy? ==> s.held[n] == {Own})
  {
    InitialInv(s0);
    RunKeeps(s0, acts, s);
    assert Held(s, n);
  }

  /** Both can happen. */
  lemma CanGiveUp(s0: Sys) returns (legacy: Sys, waited: Sys)
    requires Initial(s0)
    ensures IsRun(s0, [MakeDups, Spawn(false)], legacy) && legacy.main.Legacy?
    ensures IsRun(s0, [MakeDups, Spawn(true), TimeOut], waited) && waited.main.GaveUp?
  {
    var m := Apply(s0, MakeDups);
    legacy := Apply(m, Spawn(false));
    RunCons(m, Spawn(false), [], legacy);
    RunCons(s0, MakeDups, [Spawn(false)], legacy);
    assert [MakeDups] + [Spawn(false)] == [MakeDups, Spawn(false)];
    var w := Apply(m, Spawn(true));
    waited := Apply(w, TimeOut);
    RunCons(w, TimeOut, [], waited);
    RunCons(m, Spawn(true), [TimeOut], waited);
    RunCons(s0, MakeDups, [Spawn(true)] + [TimeOut], waited);
    assert [MakeDups] + ([Spawn(true)] + [TimeOut]) == [MakeDups, Spawn(true), TimeOut];
  }

  // ----- Runs that end badly, and well -----

  /** What the daemon's own steps leave alone. */
  predicate SameBeside(s: Sys, s': Sys) {
    && s'.main == s.main && s'.sender == s.sender && s'.sent == s.sent && s'.cfg == s.cfg
    && s'.transferred == s.transferred && s'.leaked == s.leaked
  }

  lemma {:induction false} ClosesAll(s: Sys) returns (acts: seq<Action>, s': Sys)
    requires s.daemon.Closing?
    ensures IsRun(s, acts, s') && s'.daemon.Serving? && SameBeside(s, s')
    decreases |if s.daemon.Closing? then s.daemon.unused else {}|
  {
    if s.daemon.unused == {} {
      s' := Apply(s, NextPhase);
      RunCons(s, NextPhase, [], s');
      acts := [NextPhase] + [];
    } else {
      var n :| n in s.daemon.unused;
      acts, s' := ClosesAll(Apply(s, CloseOne(n)));
      RunCons(s, CloseOne(n), acts, s');
      acts := [CloseOne(n)] + acts;
    }
  }

  /** A daemon starts its tubers, closes what it does not use, and gets to serve. */
  lemma {:induction false} StartsAll(s: Sys) returns (acts: seq<Action>, s': Sys)
    requires s.daemon.Starting?
    ensures IsRun(s, acts, s') && s'.daemon.Serving? && SameBeside(s, s')
    decreases |if s.daemon.Starting? then s.daemon.todo else {}|
  {
    if s.daemon.todo == {} {
      acts, s' := ClosesAll(Apply(s, NextPhase));
      RunCons(s, NextPhase, acts, s');
      acts := [NextPhase] + acts;
    } else {
      var n :| n in s.daemon.todo;
      acts, s' := StartsAll(Apply(s, StartOne(n)));
      RunCons(s, StartOne(n), acts, s');
      acts := [StartOne(n)] + acts;
    }
  }

  /** The standalone then leaves, its sender having ended one way or the other. */
  lemma Leaves(s: Sys) returns (acts: seq<Action>, s': Sys)
    requires s.main.Waiting? && s.daemon.Serving? && (s.sender.SendFailed? || s.sender.SendDone?)
    ensures IsRun(s, acts, s') && s'.main.Gone? && s'.transferred == s.transferred
    ensures s'.sent == s.sent && s'.cfg == s.cfg && s'.leaked == s.leaked
  {
    var s1 := Apply(s, Healthy);
    var s2 := Apply(s1, JoinSender);
    var s3 := Apply(s2, Release);
    s' := Apply(s3, Exit);
    RunCons(s3, Exit, [], s');
    RunCons(s2, Release, [Exit], s');
    RunCons(s1, JoinSender, [Release] + [Exit], s');
    acts := [JoinSender] + ([Release] + [Exit]);
    RunCons(s, Healthy, acts, s');
    acts := [Healthy] + acts;
  }

  /** The hand-off up to the point where the daemon has dialed and the message is out. */
  lemma Sends(s: Sys) returns (acts: seq<Action>, s': Sys)
    requires s.main.Listing? && s.sender.Idle? && s.daemon.Off? && !s.transferred
    ensures IsRun(s, acts, s') && s'.daemon.Dialing? && s'.sender.SendDone? && s'.main.Waiting? && !s'.transferred
    ensures s'.sent == s.sent && s'.cfg == s.cfg
  {
    var s1 := Apply(s, MakeDups);
    var s2 := Apply(s1, Spawn(true));
    var s3 := Apply(s2, SendMessage(true));
    s' := Apply(s3, CloseDups);
    RunCons(s3, CloseDups, [], s');
    RunCons(s2, SendMessage(true), [CloseDups], s');
    RunCons(s1, Spawn(true), [SendMessage(true)] + [CloseDups], s');
    acts := [Spawn(true)] + ([SendMessage(true)] + [CloseDups]);
    RunCons(s, MakeDups, acts, s');
    acts := [MakeDups] + acts;
  }

  lemma {:induction false} RunJoin(s: Sys, a: seq<Action>, t: Sys, b: seq<Action>, u: Sys)
    requires IsRun(s, a, t) && IsRun(t, b, u)
    ensures IsRun(s, a + b, u)
    decreases |a|
  {
    if a == [] {
      assert a + b == b;
    } else {
      RunJoin(Apply(s, a[0]), a[1..], t, b, u);
      assert (a + b)[1..] == a[1..] + b;
    }
  }

  /** Failing to receive once the message is out, up to the daemon serving. */
  lemma FailsAndServes(s: Sys, left: set<Name>) returns (acts: seq<Action>, s': Sys)
    requires Enabled(s, FailToReceive(left)) && !s.transferred && s.sender.SendDone?
    ensures IsRun(s, acts, s') && s'.daemon.Serving? && !s'.transferred && s'.leaked == left
    ensures s'.main == s.main && s'.sender == s.sender && s'.sent == s.sent && s'.cfg == s.cfg
  {
    acts, s' := StartsAll(Apply(s, FailToReceive(left)));
    RunCons(s, FailToReceive(left), acts, s');
    acts := [FailToReceive(left)] + acts;
  }

  lemma FailedRun(s0: Sys, left: set<Name>) returns (acts: seq<Action>, s: Sys)
    requires Initial(s0) && left <= s0.sent && |left| <= MAX_RECEIVED
    requires left != {} && |s0.sent| > MAX_RECEIVED ==> |left| == MAX_RECEIVED
    ensures IsRun(s0, acts, s) && s.main.Gone? && !s.transferred && s.leaked == left
  {
    var a, s1 := Sends(s0);
    var b, s2 := FailsAndServes(s1, left);
    var c, s3 := Leaves(s2);
    RunJoin(s0, a, s1, b, s2);
    RunJoin(s0, a + b, s2, c, s3);
    acts, s := a + b + c, s3;
  }

  /** From any start, whatever a failed receive can leave behind, it can end that way: the daemon
      becomes healthy, the standalone is gone, and no kept port is served. */
  lemma FailedTransferDropsThePorts(s0: Sys, left: set<Name>) returns (acts: seq<Action>, s: Sys)
    requires Initial(s0) && left <= s0.sent && |left| <= MAX_RECEIVED
    requires left != {} && |s0.sent| > MAX_RECEIVED ==> |left| == MAX_RECEIVED
    ensures IsRun(s0, acts, s) && s.main.Gone? && !s.transferred && s.rebound == Takers(s0.cfg) - s0.sent
    ensures forall n | n in s0.sent :: n in s.held && s.held[n] == if n in left then {Raw} else {}
  {
    acts, s := FailedRun(s0, left);
    BindsWhatWasNotSent(s0, acts, s);
    forall n | n in s0.sent ensures n in s.held && s.held[n] == if n in left then {Raw} else {} {
      WhatFailureLeaves(s0, acts, s, n);
    }
  }

  /** Every descriptor that arrived becomes a listener. */
  lemma {:induction false} AdoptsAll(s: Sys) returns (acts: seq<Action>, s': Sys)
    requires s.daemon.Receiving?
    ensures IsRun(s, acts, s') && s'.daemon.Serving? && SameBeside(s, s')
    decreases |if s.daemon.Receiving? then s.daemon.raw else {}|
  {
    if s.daemon.raw == {} {
      acts, s' := StartsAll(Apply(s, NextPhase));
      RunCons(s, NextPhase, acts, s');
      acts := [NextPhase] + acts;
    } else {
      var n :| n in s.daemon.raw;
      acts, s' := AdoptsAll(Apply(s, AdoptOne(n)));
      RunCons(s, AdoptOne(n), acts, s');
      acts := [AdoptOne(n)] + acts;
    }
  }

  lemma ReceivesAndServes(s: Sys) returns (acts: seq<Action>, s': Sys)
    requires Enabled(s, Receive) && s.sender.SendDone?
    ensures IsRun(s, acts, s') && s'.daemon.Serving? && s'.transferred
    ensures s'.main == s.main && s'.sender == s.sender && s'.sent == s.sent && s'.cfg == s.cfg
  {
    acts, s' := AdoptsAll(Apply(s, Receive));
    RunCons(s, Receive, acts, s');
    acts := [Receive] + acts;
  }

  lemma SuccessfulRun(s0: Sys) returns (acts: seq<Action>, s: Sys)
    requires Initial(s0) && |s0.sent| <= MAX_RECEIVED
    ensures IsRun(s0, acts, s) && s.main.Gone? && s.transferred
  {
    var a, s1 := Sends(s0);
    var b, s2 := ReceivesAndServes(s1);
    var c, s3 := Leaves(s2);
    RunJoin(s0, a, s1, b, s2);
    RunJoin(s0, a + b, s2, c, s3);
    acts, s := a + b + c, s3;
  }

  /** From any start with no more than 32 sockets a hand-off can go through: the standalone is gone,
      every kept port is held by the daemon's tuber alone, and the daemon has bound those of its
      enabled local tubers that were not sent. */
  lemma TransferServesThePorts(s0: Sys) returns (acts: seq<Action>, s: Sys)
    requires Initial(s0) && |s0.sent| <= 32
    ensures IsRun(s0, acts, s) && s.main.Gone? && s.transferred && s.rebound == Takers(s0.cfg) - s0.sent
    ensures forall n | n in Kept(s0) :: n in s.held && s.held[n] == {Owner}
  {
    acts, s := SuccessfulRun(s0);
    BindsWhatWasNotSent(s0, acts, s);
    forall n | n in Kept(s0) ensures n in s.held && s.held[n] == {Owner} {
      EndsWithOneOwner(s0, acts, s, n);
    }
  }

  ghost predicate Succeeds(s0: Sys, acts: seq<Action>, s: Sys) { IsRun(s0, acts, s) && s.main.Gone? && s.transferred }

  /** And with more it never does. */
  lemma CanSucceedIff(s0: Sys)
    requires Initial(s0)
    ensures (exists acts, s :: Succeeds(s0, acts, s)) <==> |s0.sent| <= 32
  {
    if |s0.sent| <= 32 {
      var acts, s := TransferServesThePorts(s0);
      assert Succeeds(s0, acts, s);
    }
    forall acts, s | Succeeds(s0, acts, s) ensures |s0.sent| <= 32 {
      RunKeeps(s0, acts, s);
    }
  }

  /** In the words of the config: the enabled tubers, and those that are not of type remote. */
  lemma TakersAre(cfg: seq<Entry>, n: Name)
    requires UniqueNames(cfg)
    ensures n in Takers(cfg) <==> exists e :: e in cfg && e.name == n && e.enabled && !e.remote
  {
    NamesMeans(cfg, IsEnabled, n);
    NamesMeans(cfg, IsRemote, n);
    assert forall e, e' | e in cfg && e' in cfg && e.name == e'.name :: e == e';
  }

  lemma RunCons(s: Sys, a: Action, acts: seq<Action>, s': Sys)
    requires Enabled(s, a) && IsRun(Apply(s, a), acts, s')
    ensures IsRun(s, [a] + acts, s')
  {
    assert ([a] + acts)[1..] == acts;
  }

  // ----- StartEnabledWith as the loops it is -----

  /** The adopted listeners an engine takes over (`owned`), leaves open and unowned (`stray`), and
      closes; the tubers it binds itself.  `free` are the ports nobody holds. */
  method StartEnabledWith(cfg: seq<Entry>, adopted: set<Name>, free: set<Name>)
    returns (owned: set<Name>, stray: set<Name>, closed: set<Name>, bound: set<Name>)
    requires UniqueNames(cfg)
    ensures owned == adopted * Takers(cfg)
    ensures stray == adopted * EnabledNames(cfg) * RemoteNames(cfg)
    ensures closed == adopted - EnabledNames(cfg)
    ensures bound == (Takers(cfg) - adopted) * free
  {
    var jobs, used := CollectJobs(cfg, adopted);
    owned, stray, bound := StartJobs(jobs, adopted, free);
    JobsAre(cfg);
    closed := CloseUnused(adopted, used);
  }

  method CollectJobs(cfg: seq<Entry>, adopted: set<Name>) returns (jobs: seq<Entry>, used: set<Name>)
    ensures jobs == Select(cfg, IsEnabled) && used == adopted * EnabledNames(cfg)
  {
    jobs, used := [], {};
    var i := 0;
    while i < |cfg|
      invariant 0 <= i <= |cfg|
      invariant jobs == Select(cfg[..i], IsEnabled) && used == adopted * Names(jobs)
    {
      assert cfg[..i + 1][..i] == cfg[..i];
      if cfg[i].enabled {
        if cfg[i].name in adopted {
          used := used + {cfg[i].name};
        }
        assert (jobs + [cfg[i]])[..|jobs|] == jobs;
        jobs := jobs + [cfg[i]];
      }
      i := i + 1;
    }
    assert cfg[..i] == cfg;
  }

  method StartJobs(jobs: seq<Entry>, adopted: set<Name>, free: set<Name>)
    returns (owned: set<Name>, stray: set<Name>, bound: set<Name>)
    ensures owned == adopted * Names(Select(jobs, IsLocal))
    ensures stray == adopted * Names(Select(jobs, IsRemote))
    ensures bound == (Names(Select(jobs, IsLocal)) - adopted) * free
  {
    owned, stray, bound := {}, {}, {};
    ghost var local: set<Name>, remote: set<Name> := {}, {};
    var i := 0;
    while i < |jobs|
      invariant 0 <= i <= |jobs|
      invariant local == Names(Select(jobs[..i], IsLocal)) && remote == Names(Select(jobs[..i], IsRemote))
      invariant owned == adopted * local && stray == adopted * remote && bound == (local - adopted) * free
    {
      var j := jobs[i];
      SetsNext(adopted, free, local, j.name);
      SetsNext(adopted, free, remote, j.name);
      SelectedNext(jobs, i, IsLocal, local);
      SelectedNext(jobs, i, IsRemote, remote);
      local, remote := if j.remote then local else local + {j.name}, if j.remote then remote + {j.name} else remote;
      if j.name in adopted {
        if j.remote {
          stray := stray + {j.name};           // StartWith refuses; Start needs no local listener
        } else {
          owned := owned + {j.name};
        }
      } else if !j.remote && j.name in free {
        bound := bound + {j.name};
      }
      i := i + 1;
    }
    assert jobs[..i] == jobs;
  }

  lemma SetsNext(adopted: set<Name>, free: set<Name>, s: set<Name>, n: Name)
    ensures adopted * (s + {n}) == if n in adopted then adopted * s + {n} else adopted * s
    ensures (s + {n} - adopted) * free
      == if n !in adopted && n in free then (s - adopted) * free + {n} else (s - adopted) * free
  {
  }

  /** The names of the local and remote jobs with job i counted. */
  lemma SelectedNext(jobs: seq<Entry>, i: nat, p: Test, names: set<Name>)
    requires i < |jobs| && names == Names(Select(jobs[..i], p))
    ensures Names(Select(jobs[..i + 1], p)) == if Passes(jobs[i], p) then names + {jobs[i].name} else names
  {
    SelectSnoc(jobs[..i], jobs[i], p);
    assert jobs[..i + 1] == jobs[..i] + [jobs[i]];
  }

  method CloseUnused(adopted: set<Name>, used: set<Name>) returns (closed: set<Name>)
    ensures closed == adopted - used
  {
    closed := {};
    var rest := adopted;
    while rest != {}
      invariant rest <= adopted && closed == (adopted - rest) - used
      decreases |rest|
    {
      var n :| n in rest;
      rest := rest - {n};
      if n !in used {
        closed := closed + {n};
      }
    }
  }

  lemma SelectSnoc(es: seq<Entry>, e: Entry, p: Test)
    ensures Names(Select(es + [e], p)) == if Passes(e, p) then Names(Select(es, p)) + {e.name} else Names(Select(es, p))
  {
    assert (es + [e])[..|es|] == es;
    var s := Select(es, p);
    assert (s + [e])[..|s|] == s;
  }

  lemma {:induction false} NamesMeans(es: seq<Entry>, p: Test, n: Name)
    ensures n in Names(Select(es, p)) <==> exists e :: e in es && Passes(e, p) && e.name == n
  {
    if es != [] {
      var k := |es| - 1;
      NamesMeans(es[..k], p, n);
      SelectSnoc(es[..k], es[k], p);
      assert es == es[..k] + [es[k]];
    }
  }

  lemma {:induction false} SelectTwice(es: seq<Entry>)
    ensures Select(Select(es, IsEnabled), IsLocal) == Select(es, StartsLocal)
    ensures Select(Select(es, IsEnabled), IsRemote) == Select(es, StartsRemote)
  {
    if es != [] {
      var k := |es| - 1;
      SelectTwice(es[..k]);
      var s := Select(es[..k], IsEnabled);
      assert (s + [es[k]])[..|s|] == s;
    }
  }

  /** With unique names the enabled entries split by name into local and remote ones. */
  lemma JobsAre(cfg: seq<Entry>)
    requires UniqueNames(cfg)
    ensures Names(Select(Select(cfg, IsEnabled), IsLocal)) == Takers(cfg)
    ensures Names(Select(Select(cfg, IsEnabled), IsRemote)) == EnabledNames(cfg) * RemoteNames(cfg)
  {
    SelectTwice(cfg);
    forall n ensures n in Names(Select(cfg, StartsLocal)) <==> n in Takers(cfg)
      ensures n in Names(Select(cfg, StartsRemote)) <==> n in EnabledNames(cfg) * RemoteNames(cfg)
    {
      NamesMeans(cfg, IsEnabled, n);
      NamesMeans(cfg, IsRemote, n);
      NamesMeans(cfg, StartsLocal, n);
      NamesMeans(cfg, StartsRemote, n);
      assert forall e, e' | e in cfg && e' in cfg && e.name == e'.name :: e == e';
    }
  }
}
