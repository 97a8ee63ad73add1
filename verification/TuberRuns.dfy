/** Every interleaving of a tuber's control operations with its reconnect goroutine
    (internal/forward/tuber.go).  Control operations are serialised, as the daemon's mutex and
    the standalone controller serialise them; a Restart is a Stop followed by a Start. */
module TuberRuns {
  import opened Tuber
  import opened Wrappers
  import B = Backoff

  /** Where a reconnect goroutine (run or runRemote) is. */
  datatype Pc =
    | Top                                   // about to check its context
    | Entering                              // passed the check; Connecting comes next
    | Dialing
    | DialFailed
    | Dialed(c: nat)
    | RemoteBound(c: nat, l: nat)           // runRemote only: the server-side listener is up
    | ListenFailed(c: nat)
    | Serving(c: nat, server: Option<nat>)
    | Ending(c: nat)
    | Unset(c: nat)
    | ClosedDown
    | DropPause
    | DropSleep
    | FailSleep
    | FailWoke
    | Exited

  /** `dialed` lists every SSH client the run ever dialed, `tries` counts the dials it began;
      `endings` and `waits` record how its tries ended and each sleep it began, with the number of
      tries ended by then. */
  datatype Run = Run(
    kind: Kind, pc: Pc, attempt: nat, dialed: set<nat>, tries: nat, endings: seq<B.Ending>, waits: seq<(nat, int)>)

  /** Stop's teardown after its critical section: cancel, close the listener, close the client,
      wait for the goroutine. */
  datatype Ctl = Idle | Stopping(stage: nat, ln: Option<nat>, run: Option<nat>, cl: Option<nat>)

  datatype Sys = Sys(
    f: Fields, kind: Kind, ctl: Ctl, runs: seq<Run>, cancelled: set<nat>, closed: set<nat>, dead: set<nat>,
    bound: set<nat>, remoteBound: set<nat>, next: nat)

  datatype Action =
    | CallStart(bindOk: bool)
    | CallStartWith                          // adopts a listener bound elsewhere
    | CallStop
    | StopStep
    | Reconfigure(kind: Kind)                // swaps the config; folds a stopped tuber to Off
    | ParentCancelled(r: nat)                // the engine's context ends
    | SessionDies(c: nat)
    | Go(r: nat, ok: bool, up: int)          // one step of goroutine r

  predicate Initial(s: Sys) {
    s == Sys(FRESH, s.kind, Idle, [], {}, {}, {}, {}, {}, 0)
  }

  predicate CanGo(s: Sys, r: nat) {
    && r < |s.runs|
    && match s.runs[r].pc
       case Exited => false
       case Serving(c, _) => r in s.cancelled || c in s.dead
       case _ => true
  }

  predicate Enabled(s: Sys, a: Action) {
    match a
    case CallStart(_) => s.ctl.Idle?
    case CallStartWith => s.ctl.Idle? && !s.f.running && !s.kind.Remote?
    case CallStop => s.ctl.Idle?
    case StopStep =>
      s.ctl.Stopping?
        && (s.ctl.stage < 3 || s.ctl.run.None? || (s.ctl.run.value < |s.runs| && s.runs[s.ctl.run.value].pc.Exited?))
    case Reconfigure(_) => s.ctl.Idle?
    case ParentCancelled(r) => r < |s.runs|
    case SessionDies(_) => true
    case Go(r, _, _) => CanGo(s, r)
  }

  function Opt(o: Option<nat>): set<nat> { if o.Some? then {o.value} else {} }

  function NewRun(s: Sys, ln: Option<nat>): Sys {
    s.(f := Started(s.f, ln, |s.runs|), runs := s.runs + [Run(s.kind, Top, 0, {}, 0, [], [])],
       bound := s.bound + Opt(ln), next := s.next + 1)
  }

  function Move(s: Sys, r: nat, pc: Pc): Sys
    requires r < |s.runs|
  {
    s.(runs := s.runs[r := s.runs[r].(pc := pc)])
  }

  /** A try ended before any session: count it and sleep. */
  function FailAndSleep(run: Run): Run {
    var attempt := run.attempt + 1;
    run.(pc := FailSleep, attempt := attempt, endings := run.endings + [B.Failed],
         waits := run.waits + [(|run.endings| + 1, B.NextBackoff(attempt))])
  }

  function GoStep(s: Sys, r: nat, ok: bool, up: int): Sys
    requires CanGo(s, r)
  {
    var run := s.runs[r];
    var dying := r in s.cancelled;
    match run.pc
    case Top => Move(s, r, if dying then Exited else Entering)
    case Entering =>
      s.(f := SetState(s.f, Connecting), runs := s.runs[r := run.(pc := Dialing, tries := run.tries + 1)])
    case Dialing =>
      if ok then
        s.(runs := s.runs[r := run.(pc := Dialed(s.next), dialed := run.dialed + {s.next})], next := s.next + 1)
      else Move(s, r, DialFailed)
    case DialFailed => s.(f := SetState(s.f, Error), runs := s.runs[r := FailAndSleep(run)])
    case Dialed(c) =>
      if run.kind.Remote? then
        if ok then Move(s.(remoteBound := s.remoteBound + {s.next}, next := s.next + 1), r, RemoteBound(c, s.next))
        else Move(s.(f := SetState(s.f, Error)), r, ListenFailed(c))
      else Move(s.(f := Published(s.f, c)), r, Serving(c, None))
    case RemoteBound(c, l) => Move(s.(f := Published(s.f, c)), r, Serving(c, Some(l)))
    case ListenFailed(c) => s.(closed := s.closed + {c}, runs := s.runs[r := FailAndSleep(run)])
    case Serving(c, l) =>
      s.(remoteBound := s.remoteBound - Opt(l),
         runs := s.runs[r := run.(pc := Ending(c), attempt := B.NextAttemptAfterDisconnect(up, run.attempt),
                                  endings := run.endings + [B.Dropped(up)])])
    case Ending(c) => Move(s.(f := Withdrawn(s.f)), r, Unset(c))
    case Unset(c) => Move(s.(closed := s.closed + {c}), r, ClosedDown)
    case ClosedDown => Move(s, r, if dying then Exited else DropPause)
    case DropPause =>
      s.(f := SetState(s.f, Reconnecting),
         runs := s.runs[r := run.(pc := DropSleep, waits := run.waits + [(|run.endings|, B.NextBackoff(run.attempt))])])
    case DropSleep => Move(s, r, if dying && !ok then Exited else Top)
    case FailSleep => Move(s, r, if dying && !ok then Exited else FailWoke)
    case FailWoke => Move(s.(f := SetState(s.f, Reconnecting)), r, Top)
    case Exited => s
  }

  function StopTeardown(s: Sys): Sys
    requires s.ctl.Stopping?
  {
    var c := s.ctl;
    match c.stage
    case 0 => s.(cancelled := s.cancelled + Opt(c.run), ctl := c.(stage := 1))
    case 1 => s.(bound := s.bound - Opt(c.ln), ctl := c.(stage := 2))
    case 2 => s.(closed := s.closed + Opt(c.cl), ctl := c.(stage := 3))
    case _ => s.(ctl := Idle)
  }

  function Apply(s: Sys, a: Action): Sys
    requires Enabled(s, a)
  {
    match a
    case CallStart(bindOk) =>
      if s.f.running then s
      else if s.kind.Remote? then NewRun(s, None)
      else if bindOk then NewRun(s, Some(s.next))
      else s.(f := BindFailed(s.f))
    case CallStartWith => NewRun(s, Some(s.next))
    case CallStop =>
      if s.f.running then s.(f := Stopped(s.f), ctl := Stopping(0, s.f.listener, s.f.run, s.f.client))
      else s.(f := Stopped(s.f))
    case StopStep => StopTeardown(s)
    case Reconfigure(kind) =>
      s.(kind := kind, f := if s.f.running then s.f else s.f.(state := Off))
    case ParentCancelled(r) => s.(cancelled := s.cancelled + {r})
    case SessionDies(c) => s.(dead := s.dead + {c})
    case Go(r, ok, up) => GoStep(s, r, ok, up)
  }

  // ----- What every step keeps -----

  /** The client a goroutine still has to close. */
  function Held(pc: Pc): set<nat> {
    match pc
    case Dialed(c) => {c}
    case RemoteBound(c, _) => {c}
    case ListenFailed(c) => {c}
    case Serving(c, _) => {c}
    case Ending(c) => {c}
    case Unset(c) => {c}
    case _ => {}
  }

  function HeldRemote(pc: Pc): set<nat> {
    match pc
    case RemoteBound(_, l) => {l}
    case Serving(_, l) => Opt(l)
    case _ => {}
  }

  /** The client a goroutine may have published. */
  function Shown(pc: Pc): set<nat> {
    match pc
    case Serving(c, _) => {c}
    case Ending(c) => {c}
    case _ => {}
  }

  /** The goroutine has begun a dial whose try has not ended yet. */
  predicate Trying(pc: Pc) {
    || pc.Dialing? || pc.DialFailed? || pc.Dialed? || pc.RemoteBound? || pc.ListenFailed? || pc.Serving?
  }

  /** The session has ended and the sleep after it is still to come. */
  predicate Ended(pc: Pc) { pc.Ending? || pc.Unset? || pc.ClosedDown? || pc.DropPause? }

  /** Every try but the one under way has ended, and every try that ended was followed by its own
      sleep: the i-th sleep comes when i tries have ended and before another begins. */
  predicate SleptAfterEach(run: Run) {
    && run.tries == |run.endings| + (if Trying(run.pc) then 1 else 0)
    && (forall i | 0 <= i < |run.waits| :: run.waits[i].0 == i + 1)
    && if Ended(run.pc) then |run.waits| + 1 == |run.endings|
       else if run.pc.Exited? then |run.endings| - 1 <= |run.waits| <= |run.endings|
       else |run.waits| == |run.endings|
  }

  ghost predicate RunOk(run: Run, closed: set<nat>) {
    && Held(run.pc) <= run.dialed <= closed + Held(run.pc)
    && run.attempt == B.SinceStable(run.endings)
    && (Ended(run.pc) ==> run.endings != [])
    && (forall i | 0 <= i < |run.waits| ::
          var (k, d) := run.waits[i];
          0 < k <= |run.endings| && d == B.DueWait(run.endings[..k]))
  }

  /** Only the newest run can be alive; its remote listener is the only one. */
  ghost predicate OneAlive(s: Sys) {
    && (forall i | 0 <= i < |s.runs| - 1 :: s.runs[i].pc.Exited?)
    && s.remoteBound == (if s.runs == [] then {} else HeldRemote(s.runs[|s.runs| - 1].pc))
  }

  predicate Quiet(s: Sys) { s.runs == [] || s.runs[|s.runs| - 1].pc.Exited? }

  ghost predicate CtlOk(s: Sys) {
    && (s.f.running ==> s.ctl.Idle? && s.runs != [] && s.f.run == Some(|s.runs| - 1) && s.bound == Opt(s.f.listener))
    && (!s.f.running ==> s.f.listener == None && s.f.run == None)
    && (!s.f.running && s.ctl.Idle? ==> Quiet(s) && s.bound == {})
    && (s.ctl.Stopping? ==>
          && s.runs != [] && s.ctl.run == Some(|s.runs| - 1)
          && s.bound == (if s.ctl.stage < 2 then Opt(s.ctl.ln) else {})
          && (s.ctl.stage > 0 ==> |s.runs| - 1 in s.cancelled)
          && (s.ctl.stage > 2 ==> Opt(s.ctl.cl) <= s.closed))
  }

  /** A published client belongs to the live run, and the tuber shows Connected. */
  ghost predicate ClientOk(s: Sys) {
    s.f.client.Some? ==> s.f.state.Connected? && s.runs != [] && s.f.client.value in Shown(s.runs[|s.runs| - 1].pc)
  }

  /** Only a remote run listens on the server, and it serves on that listener. */
  predicate ListensByKind(run: Run) {
    && (run.pc.RemoteBound? || run.pc.ListenFailed? ==> run.kind.Remote?)
    && (run.pc.Serving? ==> (run.pc.server.Some? <==> run.kind.Remote?))
  }

  ghost predicate RunSound(run: Run, closed: set<nat>) {
    RunOk(run, closed) && SleptAfterEach(run) && ListensByKind(run)
  }

  /** What a running tuber shows while its goroutine is at pc.  One that has exited was cancelled by
      its parent and leaves whatever it showed last. */
  predicate StateAt(pc: Pc, st: State) {
    match pc
    case Top => st.Connecting? || st.Reconnecting?
    case Entering => st.Connecting? || st.Reconnecting?
    case Dialing => st.Connecting?
    case DialFailed => st.Connecting?
    case Dialed(_) => st.Connecting?
    case RemoteBound(_, _) => st.Connecting?
    case ListenFailed(_) => st.Error?
    case FailSleep => st.Error?
    case FailWoke => st.Error?
    case DropSleep => st.Reconnecting?
    case Exited => true
    case _ => st.Connected?
  }

  /** While running, a tuber shows where its goroutine is, and a client exactly while it serves one. */
  ghost predicate ShowsOk(s: Sys) {
    s.f.running && s.runs != [] ==>
      var pc := s.runs[|s.runs| - 1].pc;
      StateAt(pc, s.f.state) && Shown(pc) == Opt(s.f.client)
  }

  ghost predicate Inv(s: Sys) {
    && OneAlive(s) && CtlOk(s) && ClientOk(s) && ShowsOk(s)
    && forall i | 0 <= i < |s.runs| :: RunSound(s.runs[i], s.closed)
  }

  lemma WaitsExtend(run: Run, e: B.Ending, closed: set<nat>)
    requires RunOk(run, closed)
    ensures B.SinceStable(run.endings + [e]) == B.AttemptAfter(e, run.attempt)
    ensures B.NextBackoff(B.AttemptAfter(e, run.attempt)) == B.DueWait(run.endings + [e])
    ensures forall i | 0 <= i < |run.waits| ::
      var (k, d) := run.waits[i];
      0 < k <= |run.endings| && d == B.DueWait((run.endings + [e])[..k])
  {
    B.AttemptCounts(run.endings, e);
    forall i | 0 <= i < |run.waits|
      ensures var (k, d) := run.waits[i]; d == B.DueWait((run.endings + [e])[..k])
    {
      var (k, d) := run.waits[i];
      assert (run.endings + [e])[..k] == run.endings[..k];
    }
  }

  lemma FailKeepsRun(run: Run, closed: set<nat>)
    requires RunOk(run, closed)
    ensures RunOk(FailAndSleep(run), closed + Held(run.pc))
  {
    WaitsExtend(run, B.Failed, closed);
    var es := run.endings + [B.Failed];
    assert es[..|es|] == es;
  }

  lemma DropPauseKeepsRun(run: Run, closed: set<nat>)
    requires RunOk(run, closed) && run.pc.DropPause?
    ensures RunOk(run.(pc := DropSleep, waits := run.waits + [(|run.endings|, B.NextBackoff(run.attempt))]), closed)
  {
    assert run.endings[..|run.endings|] == run.endings;
    B.DelayIsCappedPower(run.attempt);
  }

  lemma ServingKeepsRun(run: Run, up: int, closed: set<nat>)
    requires RunOk(run, closed) && run.pc.Serving?
    ensures RunOk(run.(pc := Ending(run.pc.c), attempt := B.NextAttemptAfterDisconnect(up, run.attempt),
                       endings := run.endings + [B.Dropped(up)]), closed)
  {
    WaitsExtend(run, B.Dropped(up), closed);
  }

  lemma GoKeepsRun(s: Sys, r: nat, ok: bool, up: int)
    requires CanGo(s, r) && RunOk(s.runs[r], s.closed)
    ensures var s' := GoStep(s, r, ok, up); r < |s'.runs| && RunOk(s'.runs[r], s'.closed)
  {
    var run := s.runs[r];
    match run.pc
    case DialFailed => FailKeepsRun(run, s.closed);
    case ListenFailed(c) => FailKeepsRun(run, s.closed);
    case Serving(c, l) => ServingKeepsRun(run, up, s.closed);
    case DropPause => DropPauseKeepsRun(run, s.closed);
    case _ =>
  }

  lemma GoKeepsSleep(s: Sys, r: nat, ok: bool, up: int)
    requires CanGo(s, r) && SleptAfterEach(s.runs[r])
    ensures var s' := GoStep(s, r, ok, up); r < |s'.runs| && SleptAfterEach(s'.runs[r])
  {
  }

  lemma GoKeepsListener(s: Sys, r: nat, ok: bool, up: int)
    requires CanGo(s, r) && ListensByKind(s.runs[r])
    ensures var s' := GoStep(s, r, ok, up); r < |s'.runs| && ListensByKind(s'.runs[r])
  {
  }

  lemma GoFrame(s: Sys, r: nat, ok: bool, up: int)
    requires CanGo(s, r)
    ensures var s' := GoStep(s, r, ok, up);
      && |s'.runs| == |s.runs| && (forall i | 0 <= i < |s.runs| && i != r :: s'.runs[i] == s.runs[i])
      && s.closed <= s'.closed && s'.ctl == s.ctl && s'.bound == s.bound && s'.cancelled == s.cancelled
      && s'.f.running == s.f.running && s'.f.listener == s.f.listener && s'.f.run == s.f.run
  {
  }

  lemma GoKeepsOneAlive(s: Sys, r: nat, ok: bool, up: int)
    requires OneAlive(s) && CanGo(s, r)
    ensures r == |s.runs| - 1 && OneAlive(GoStep(s, r, ok, up))
  {
    GoFrame(s, r, ok, up);
    assert r == |s.runs| - 1;
  }

  lemma GoKeepsCtl(s: Sys, r: nat, ok: bool, up: int)
    requires CtlOk(s) && CanGo(s, r) && r == |s.runs| - 1
    ensures CtlOk(GoStep(s, r, ok, up))
  {
    GoFrame(s, r, ok, up);
  }

  lemma GoKeepsClient(s: Sys, r: nat, ok: bool, up: int)
    requires ClientOk(s) && CanGo(s, r) && r == |s.runs| - 1
    ensures ClientOk(GoStep(s, r, ok, up))
  {
  }

  lemma GoKeepsShows(s: Sys, r: nat, ok: bool, up: int)
    requires ShowsOk(s) && CanGo(s, r) && r == |s.runs| - 1
    ensures ShowsOk(GoStep(s, r, ok, up))
  {
  }

  lemma GoKeepsSound(s: Sys, r: nat, ok: bool, up: int)
    requires CanGo(s, r) && RunSound(s.runs[r], s.closed)
    ensures var s' := GoStep(s, r, ok, up); r < |s'.runs| && RunSound(s'.runs[r], s'.closed)
  {
    GoKeepsRun(s, r, ok, up);
    GoKeepsSleep(s, r, ok, up);
    GoKeepsListener(s, r, ok, up);
  }

  lemma MoreClosed(run: Run, closed: set<nat>, closed': set<nat>)
    requires RunSound(run, closed) && closed <= closed'
    ensures RunSound(run, closed')
  {
  }

  lemma GoKeepsRuns(s: Sys, r: nat, ok: bool, up: int, s': Sys)
    requires CanGo(s, r) && s' == GoStep(s, r, ok, up) && forall i | 0 <= i < |s.runs| :: RunSound(s.runs[i], s.closed)
    ensures forall i | 0 <= i < |s'.runs| :: RunSound(s'.runs[i], s'.closed)
  {
    GoFrame(s, r, ok, up);
    forall i | 0 <= i < |s'.runs| ensures RunSound(s'.runs[i], s'.closed) {
      if i == r { GoKeepsSound(s, r, ok, up); } else { MoreClosed(s.runs[i], s.closed, s'.closed); }
    }
  }

  lemma GoKeeps(s: Sys, r: nat, ok: bool, up: int)
    requires Inv(s) && CanGo(s, r)
    ensures Inv(GoStep(s, r, ok, up))
  {
    GoKeepsOneAlive(s, r, ok, up);
    GoKeepsCtl(s, r, ok, up);
    GoKeepsClient(s, r, ok, up);
    GoKeepsShows(s, r, ok, up);
    GoKeepsRuns(s, r, ok, up, GoStep(s, r, ok, up));
  }

  /** A new run starts from a clean slate: everything before it has exited. */
  lemma NewRunKeeps(s: Sys, ln: Option<nat>)
    requires Inv(s) && s.ctl.Idle? && !s.f.running
    ensures Inv(NewRun(s, ln))
  {
  }

  lemma StepKeeps(s: Sys, a: Action)
    requires Inv(s) && Enabled(s, a)
    ensures Inv(Apply(s, a))
  {
    match a
    case Go(r, ok, up) => GoKeeps(s, r, ok, up);
    case CallStart(_) =>
      if !s.f.running {
        NewRunKeeps(s, if s.kind.Remote? then None else Some(s.next));
      }
    case CallStartWith => NewRunKeeps(s, Some(s.next));
    case _ =>
  }

  ghost predicate IsRun(s: Sys, acts: seq<Action>, s': Sys)
    decreases |acts|
  {
    if acts == [] then s' == s else Enabled(s, acts[0]) && IsRun(Apply(s, acts[0]), acts[1..], s')
  }

  lemma {:induction false} RunKeeps(s: Sys, acts: seq<Action>, s': Sys)
    requires Inv(s) && IsRun(s, acts, s')
    ensures Inv(s')
    decreases |acts|
  {
    if acts != [] {
      StepKeeps(s, acts[0]);
      RunKeeps(Apply(s, acts[0]), acts[1..], s');
    }
  }

  // ----- What holds in every interleaving -----

  /** A non-nil client means the tuber is Connected, and at most one reconnect goroutine (the
      newest) is alive. */
  lemma ClientMeansConnected(s0: Sys, acts: seq<Action>, s: Sys)
    requires Initial(s0) && IsRun(s0, acts, s)
    ensures s.f.client.Some? ==> s.f.state.Connected?
    ensures forall i | 0 <= i < |s.runs| - 1 :: s.runs[i].pc.Exited?
  {
    RunKeeps(s0, acts, s);
  }

  /** When Stop returns, every goroutine has exited, the client and listener fields are nil, no
      local or server-side listener is open, and every SSH client ever dialed is closed. */
  lemma StopLeavesNothing(s0: Sys, acts: seq<Action>, s: Sys)
    requires Initial(s0) && IsRun(s0, acts, s)
    requires s.ctl.Stopping? && s.ctl.stage >= 3 && Enabled(s, StopStep)
    ensures var s' := Apply(s, StopStep);
      && s'.ctl.Idle? && !s'.f.running && s'.f.client == None && s'.f.listener == None
      && s'.bound == {} && s'.remoteBound == {}
      && forall i | 0 <= i < |s'.runs| :: s'.runs[i].pc.Exited? && s'.runs[i].dialed <= s'.closed
  {
    RunKeeps(s0, acts, s);
    StepKeeps(s, StopStep);
  }

  /** The same holds of a tuber at rest, so a later Start finds a clean slate. */
  lemma AtRest(s0: Sys, acts: seq<Action>, s: Sys)
    requires Initial(s0) && IsRun(s0, acts, s) && s.ctl.Idle? && !s.f.running
    ensures s.f.client == None && s.f.listener == None && s.bound == {} && s.remoteBound == {}
    ensures forall i | 0 <= i < |s.runs| :: s.runs[i].pc.Exited? && s.runs[i].dialed <= s.closed
  {
    RunKeeps(s0, acts, s);
  }

  /** Stopping or reconfiguring a tuber that is not running makes it as good as new: whatever a failed
      bind or an exiting goroutine left on show is folded to Off. */
  lemma RestFoldsToFresh(s0: Sys, acts: seq<Action>, s: Sys, kind: Kind)
    requires Initial(s0) && IsRun(s0, acts, s) && s.ctl.Idle? && !s.f.running
    ensures Apply(s, CallStop) == s.(f := Fields(Off, false, None, None, None))
    ensures Apply(s, Reconfigure(kind)) == s.(kind := kind, f := Fields(Off, false, None, None, None))
  {
    RunKeeps(s0, acts, s);
  }

  /** Every sleep of every run lasts min(2^n, 30) seconds, n being the tries that ended since the
      last stable session. */
  lemma EverySleepIsDue(s0: Sys, acts: seq<Action>, s: Sys, r: nat, i: nat)
    requires Initial(s0) && IsRun(s0, acts, s) && r < |s.runs| && i < |s.runs[r].waits|
    ensures var (k, d) := s.runs[r].waits[i];
      k <= |s.runs[r].endings|
      && d == B.Min(B.Pow2(B.SinceStable(s.runs[r].endings[..k])), 30) * B.SECOND
  {
    RunKeeps(s0, acts, s);
    assert RunSound(s.runs[r], s.closed);
  }

  /** A serving remote tuber has its listener, and no other, open on the server; any other tuber has
      none there. */
  lemma ServesWhereItListens(s0: Sys, acts: seq<Action>, s: Sys, r: nat)
    requires Initial(s0) && IsRun(s0, acts, s) && r < |s.runs| && s.runs[r].pc.Serving?
    ensures s.runs[r].pc.server.Some? <==> s.runs[r].kind.Remote?
    ensures s.remoteBound == if s.runs[r].kind.Remote? then {s.runs[r].pc.server.value} else {}
  {
    RunKeeps(s0, acts, s);
    assert RunSound(s.runs[r], s.closed);
  }

  /** In every run the sleeps and the tries go in turn: when the (n + 1)-th dial begins, n tries have
      ended, and exactly one sleep, the one due, came after each. */
  lemma OneSleepPerTry(s0: Sys, acts: seq<Action>, s: Sys, r: nat)
    requires Initial(s0) && IsRun(s0, acts, s) && r < |s.runs| && s.runs[r].pc.Dialing?
    ensures var run := s.runs[r];
      && run.tries == |run.endings| + 1 && |run.waits| == |run.endings|
      && forall i | 0 <= i < |run.waits| :: run.waits[i] == (i + 1, B.DueWait(run.endings[..i + 1]))
  {
    RunKeeps(s0, acts, s);
    var run := s.runs[r];
    assert RunSound(run, s.closed);
    forall i | 0 <= i < |run.waits| ensures run.waits[i] == (i + 1, B.DueWait(run.endings[..i + 1])) {
      assert run.waits[i].0 == i + 1;
    }
  }

  /** A goroutine records a sleep exactly when it falls asleep, keeps the record, and wakes only by a
      step of its own. */
  lemma RecordedSleepsAreSlept(s: Sys, a: Action, r: nat)
    requires Enabled(s, a) && r < |s.runs| && r < |Apply(s, a).runs|
    ensures var (run, run') := (s.runs[r], Apply(s, a).runs[r]);
      var asleep := run'.pc.FailSleep? || run'.pc.DropSleep?;
      && (run != run' ==> a.Go? && a.r == r)
      && run'.waits == if run != run' && asleep then run.waits + [run'.waits[|run.waits|]] else run.waits
  {
    if a.Go? { GoFrame(s, a.r, a.ok, a.up); }
  }

  lemma ShownIs(pc: Pc, client: Option<nat>)
    requires Shown(pc) == Opt(client)
    ensures client == if pc.Serving? || pc.Ending? then Some(pc.c) else None
  {
    assert client.Some? ==> client.value in Opt(client);
    assert pc.Serving? || pc.Ending? ==> pc.c in Shown(pc);
  }

  /** A running tuber shows what its newest goroutine is doing, and a client exactly while that
      goroutine serves it. */
  lemma ShowsWhatItDoes(s0: Sys, acts: seq<Action>, s: Sys)
    requires Initial(s0) && IsRun(s0, acts, s) && s.f.running
    ensures s.runs != []
    ensures var pc := s.runs[|s.runs| - 1].pc;
      && (pc.Dialing? || pc.DialFailed? || pc.Dialed? || pc.RemoteBound? ==> s.f.state.Connecting?)
      && (pc.ListenFailed? || pc.FailSleep? ==> s.f.state.Error?)
      && (pc.DropSleep? ==> s.f.state.Reconnecting?)
      && (pc.Serving? ==> s.f.state.Connected? && s.f.client == Some(pc.c))
      && (s.f.client.Some? <==> pc.Serving? || pc.Ending?)
  {
    RunKeeps(s0, acts, s);
    ShownIs(s.runs[|s.runs| - 1].pc, s.f.client);
  }

  // ----- Stop comes to an end -----

  function Rank(pc: Pc): nat {
    match pc
    case Entering => 13
    case Dialing => 12
    case Dialed(_) => 11
    case RemoteBound(_, _) => 10
    case Serving(_, _) => 9
    case Ending(_) => 8
    case Unset(_) => 7
    case ClosedDown => 6
    case DropPause => 5
    case DialFailed => 5
    case ListenFailed(_) => 5
    case DropSleep => 4
    case FailSleep => 4
    case FailWoke => 3
    case Top => 2
    case Exited => 0
  }

  /** Once its context is cancelled a goroutine is never stuck, and each of its steps brings it
      closer to its exit, however the dials, sleeps and sessions turn out. */
  lemma CancelledGoroutineExits(s: Sys, r: nat, ok: bool, up: int)
    requires r < |s.runs| && r in s.cancelled && !s.runs[r].pc.Exited?
    ensures CanGo(s, r) && r < |GoStep(s, r, ok, up).runs| && Rank(GoStep(s, r, ok, up).runs[r].pc) < Rank(s.runs[r].pc)
  {
  }

  /** How much a Stop in progress has before it at most: teardown and the goroutine's way out. */
  function Left(s: Sys): nat
    requires s.ctl.Stopping? && s.runs != []
  {
    (if s.ctl.stage < 3 then 3 - s.ctl.stage else 0) + Rank(s.runs[|s.runs| - 1].pc)
  }

  /** The next step on the way out: teardown first, then the goroutine, then the return. */
  function WayOut(s: Sys): Action
    requires Inv(s) && s.ctl.Stopping?
  {
    var r := |s.runs| - 1;
    if s.ctl.stage < 3 || s.runs[r].pc.Exited? then StopStep else Go(r, true, 0)
  }

  lemma WayOutLeadsOn(s: Sys)
    requires Inv(s) && s.ctl.Stopping?
    ensures Enabled(s, WayOut(s)) && Inv(Apply(s, WayOut(s)))
    ensures var m := Apply(s, WayOut(s)); m.ctl.Idle? || (m.ctl.Stopping? && Left(m) < Left(s))
  {
    var r := |s.runs| - 1;
    if WayOut(s).Go? {
      CancelledGoroutineExits(s, r, true, 0);
      GoFrame(s, r, true, 0);
    }
    StepKeeps(s, WayOut(s));
  }

  /** From any state inside Stop there is a continuation in which Stop returns: at most three
      teardown steps, the goroutine's way out, and the return. */
  lemma {:induction false} StopReturns(s: Sys) returns (acts: seq<Action>, s': Sys)
    requires Inv(s) && s.ctl.Stopping?
    ensures IsRun(s, acts, s') && s'.ctl.Idle? && |acts| <= Left(s) + 1
    decreases Left(s)
  {
    WayOutLeadsOn(s);
    var m := Apply(s, WayOut(s));
    if m.ctl.Idle? {
      acts, s' := [WayOut(s)], m;
    } else {
      acts, s' := StopReturns(m);
      acts := [WayOut(s)] + acts;
    }
  }

  /** What Stop hands over it has dealt with before it waits: its goroutine is cancelled, its listener
      and the client that was shown are closed, whatever the goroutine has come to by then. */
  lemma StopWaitsForNothingOpen(s0: Sys, acts: seq<Action>, s: Sys)
    requires Initial(s0) && IsRun(s0, acts, s) && s.ctl.Stopping? && s.ctl.stage >= 3
    ensures s.runs != [] && |s.runs| - 1 in s.cancelled && s.bound == {} && Opt(s.ctl.cl) <= s.closed
  {
    RunKeeps(s0, acts, s);
  }

  // ----- Goroutines get where they are going -----

  /** When the parent context ends the goroutine can get to its exit, with every client it dialed
      closed. */
  lemma {:induction false} CancelledRunEnds(s: Sys) returns (acts: seq<Action>, s': Sys)
    requires Inv(s) && s.runs != [] && |s.runs| - 1 in s.cancelled
    ensures IsRun(s, acts, s') && s'.f.running == s.f.running && |s'.runs| == |s.runs|
    ensures s'.runs[|s.runs| - 1].pc.Exited? && s'.runs[|s.runs| - 1].dialed <= s'.closed && s'.remoteBound == {}
    decreases Rank(s.runs[|s.runs| - 1].pc)
  {
    var r := |s.runs| - 1;
    if s.runs[r].pc.Exited? {
      acts, s' := [], s;
      assert RunSound(s.runs[r], s.closed);
    } else {
      var a := Go(r, false, 0);
      CancelledGoroutineExits(s, r, false, 0);
      GoFrame(s, r, false, 0);
      StepKeeps(s, a);
      acts, s' := CancelledRunEnds(Apply(s, a));
      acts := [a] + acts;
    }
  }

  lemma ParentEndsTheRun(s: Sys) returns (acts: seq<Action>, s': Sys)
    requires Inv(s) && s.runs != []
    ensures IsRun(s, [ParentCancelled(|s.runs| - 1)] + acts, s') && |s'.runs| == |s.runs|
    ensures s'.runs[|s.runs| - 1].pc.Exited? && s'.runs[|s.runs| - 1].dialed <= s'.closed && s'.remoteBound == {}
  {
    var a := ParentCancelled(|s.runs| - 1);
    StepKeeps(s, a);
    acts, s' := CancelledRunEnds(Apply(s, a));
    assert ([a] + acts)[1..] == acts;
  }

  function StepsToServe(pc: Pc): nat {
    match pc
    case Serving(_, _) => 0
    case RemoteBound(_, _) => 1
    case Dialed(_) => 2
    case Dialing => 3
    case Entering => 4
    case Top => 5
    case FailWoke => 6
    case DropSleep => 6
    case FailSleep => 7
    case DropPause => 7
    case DialFailed => 8
    case ListenFailed(_) => 8
    case ClosedDown => 8
    case Unset(_) => 9
    case Ending(_) => 10
    case Exited => 11
  }

  lemma NextTowardsServing(s: Sys, r: nat)
    requires r < |s.runs| && r !in s.cancelled && !s.runs[r].pc.Exited? && !s.runs[r].pc.Serving?
    ensures CanGo(s, r)
    ensures var m := GoStep(s, r, true, 0);
      && r < |m.runs| && !m.runs[r].pc.Exited? && StepsToServe(m.runs[r].pc) < StepsToServe(s.runs[r].pc)
  {
  }

  /** A running tuber that nobody has cancelled can always get connected, wherever its goroutine is: the
      client it then shows is one of its own. */
  lemma {:induction false} CanConnect(s: Sys) returns (acts: seq<Action>, s': Sys)
    requires Inv(s) && s.f.running && |s.runs| - 1 !in s.cancelled && !s.runs[|s.runs| - 1].pc.Exited?
    ensures IsRun(s, acts, s') && s'.f.running && s'.f.state.Connected? && |s'.runs| == |s.runs|
    ensures s'.f.client.Some? && s'.f.client.value in s'.runs[|s.runs| - 1].dialed
    decreases StepsToServe(s.runs[|s.runs| - 1].pc)
  {
    var r := |s.runs| - 1;
    if s.runs[r].pc.Serving? {
      acts, s' := [], s;
      ShownIs(s.runs[r].pc, s.f.client);
      assert RunSound(s.runs[r], s.closed);
    } else {
      NextTowardsServing(s, r);
      GoFrame(s, r, true, 0);
      StepKeeps(s, Go(r, true, 0));
      acts, s' := CanConnect(Apply(s, Go(r, true, 0)));
      acts := [Go(r, true, 0)] + acts;
    }
  }

  // ----- What a tuber shows once Stop has returned -----

  /** What can happen between a Stop's critical section and its return. */
  predicate WithinStop(acts: seq<Action>) {
    forall a <- acts :: a.StopStep? || a.Go? || a.ParentCancelled? || a.SessionDies?
  }

  /** Where a cancelled goroutine may still write the state before it exits. */
  predicate MayStillWrite(pc: Pc) {
    match pc
    case Entering => true
    case Dialing => true
    case DialFailed => true
    case Dialed(_) => true
    case RemoteBound(_, _) => true
    case ListenFailed(_) => true
    case DropPause => true
    case FailSleep => true
    case FailWoke => true
    case _ => false
  }

  /** A goroutine that is past its last write, whatever comes. */
  predicate WritesNoMore(s: Sys, r: nat) {
    && r < |s.runs|
    && (s.runs[r].pc.Exited? || (r in s.cancelled && !MayStillWrite(s.runs[r].pc)))
  }

  ghost predicate Silent(s: Sys) {
    Inv(s) && s.f.state.Off? && !s.f.running && (s.runs != [] ==> WritesNoMore(s, |s.runs| - 1))
  }

  lemma SilentStep(s: Sys, a: Action)
    requires Silent(s) && WithinStop([a]) && Enabled(s, a)
    ensures Silent(Apply(s, a))
  {
    assert a in [a];
    StepKeeps(s, a);
    if a.Go? {
      GoKeepsOneAlive(s, a.r, a.ok, a.up);
    }
  }

  lemma {:induction false} StaysSilent(s: Sys, acts: seq<Action>, s': Sys)
    requires Silent(s) && WithinStop(acts) && IsRun(s, acts, s')
    ensures s'.f.state.Off?
    decreases |acts|
  {
    if acts != [] {
      assert acts[0] in acts;
      SilentStep(s, acts[0]);
      StaysSilent(Apply(s, acts[0]), acts[1..], s');
    }
  }

  /** The tuber shows something other than Off, or will. */
  predicate Marked(s: Sys) {
    !s.f.state.Off? || (s.runs != [] && MayStillWrite(s.runs[|s.runs| - 1].pc))
  }

  lemma GoKeepsMark(s: Sys, r: nat)
    requires r == |s.runs| - 1 && CanGo(s, r) && Marked(s)
    ensures Marked(GoStep(s, r, true, 0))
  {
    GoFrame(s, r, true, 0);
  }

  lemma ReturnsMarked(s: Sys)
    requires s.ctl.Stopping? && s.runs != [] && s.runs[|s.runs| - 1].pc.Exited? && Marked(s)
    ensures !StopTeardown(s).f.state.Off?
  {
  }

  lemma WayOutKeepsMark(s: Sys)
    requires Inv(s) && s.ctl.Stopping? && Marked(s)
    ensures Enabled(s, WayOut(s)) && Marked(Apply(s, WayOut(s)))
    ensures Apply(s, WayOut(s)).ctl.Idle? ==> !Apply(s, WayOut(s)).f.state.Off?
  {
    var r := |s.runs| - 1;
    if s.ctl.stage < 3 {
    } else if s.runs[r].pc.Exited? {
      ReturnsMarked(s);
    } else {
      CancelledGoroutineExits(s, r, true, 0);
      GoFrame(s, r, true, 0);
      GoKeepsMark(s, r);
    }
  }

  /** A goroutine that may still write does so on that way out, and nothing within Stop writes Off
      again. */
  lemma {:induction false} MarkStays(s: Sys) returns (acts: seq<Action>, s': Sys)
    requires Inv(s) && s.ctl.Stopping? && Marked(s)
    ensures WithinStop(acts) && IsRun(s, acts, s') && s'.ctl.Idle? && !s'.f.state.Off?
    decreases Left(s)
  {
    WayOutLeadsOn(s);
    WayOutKeepsMark(s);
    var m := Apply(s, WayOut(s));
    if m.ctl.Idle? {
      acts, s' := [WayOut(s)], m;
    } else {
      acts, s' := MarkStays(m);
      acts := [WayOut(s)] + acts;
    }
  }

  function StepsToWrite(s: Sys, pc: Pc): nat {
    match pc
    case Serving(c, _) => if c in s.dead then 4 else 5
    case Ending(_) => 3
    case Unset(_) => 2
    case ClosedDown => 1
    case DropSleep => 2
    case Top => 1
    case _ => 0
  }

  /** Before it is cancelled a goroutine can be on its way to a write from anywhere: its session
      dies, its sleep ends, and it goes round once more. */
  lemma OnTheWay(s: Sys) returns (a: Action)
    requires Inv(s) && s.ctl.Stopping? && !WritesNoMore(s, |s.runs| - 1) && !MayStillWrite(s.runs[|s.runs| - 1].pc)
    ensures (a.Go? || a.SessionDies?) && Enabled(s, a)
    ensures var m := Apply(s, a);
      && m.ctl == s.ctl && |m.runs| == |s.runs| && !WritesNoMore(m, |m.runs| - 1)
      && StepsToWrite(m, m.runs[|m.runs| - 1].pc) < StepsToWrite(s, s.runs[|s.runs| - 1].pc)
  {
    var r := |s.runs| - 1;
    var pc := s.runs[r].pc;
    if pc.Serving? && pc.c !in s.dead {
      a := SessionDies(pc.c);
    } else {
      a := Go(r, true, 0);
      GoFrame(s, r, true, 0);
    }
  }

  lemma {:induction false} StopMayLeaveState(s: Sys) returns (acts: seq<Action>, s': Sys)
    requires Inv(s) && s.ctl.Stopping? && !WritesNoMore(s, |s.runs| - 1)
    ensures WithinStop(acts) && IsRun(s, acts, s') && s'.ctl.Idle? && !s'.f.state.Off?
    decreases StepsToWrite(s, s.runs[|s.runs| - 1].pc)
  {
    if MayStillWrite(s.runs[|s.runs| - 1].pc) {
      acts, s' := MarkStays(s);
    } else {
      var a := OnTheWay(s);
      StepKeeps(s, a);
      acts, s' := StopMayLeaveState(Apply(s, a));
      acts := [a] + acts;
    }
  }

  /** s' is where a Stop in progress at s may return. */
  ghost predicate StopCanEnd(s: Sys, acts: seq<Action>, s': Sys) {
    WithinStop(acts) && IsRun(s, acts, s') && s'.ctl.Idle?
  }

  /** After its critical section a Stop is certain to end with the tuber showing Off exactly if
      the goroutine is past its last write.  One that is still dialing, say, leaves Error or
      Connected behind on a tuber that is not running. */
  lemma StopShowsOffIff(s: Sys)
    requires Inv(s) && s.ctl.Stopping? && s.f.state.Off?
    ensures (forall acts, s' | StopCanEnd(s, acts, s') :: s'.f.state.Off?) <==> WritesNoMore(s, |s.runs| - 1)
  {
    if WritesNoMore(s, |s.runs| - 1) {
      forall acts, s' | StopCanEnd(s, acts, s') ensures s'.f.state.Off? {
        StaysSilent(s, acts, s');
      }
    } else {
      var acts, s' := StopMayLeaveState(s);
      assert StopCanEnd(s, acts, s');
    }
  }

  // ----- The tuber object -----

  /** What goes on beside a control operation: goroutine steps, an ending parent context, dying
      sessions.  Those that cannot happen where they come up are passed over. */
  predicate Beside(acts: seq<Action>) {
    forall a <- acts :: a.Go? || a.ParentCancelled? || a.SessionDies?
  }

  /** The state a goroutine's next step writes, if it writes one without a client. */
  function StateWritten(run: Run, ok: bool): Option<State> {
    match run.pc
    case Entering => Some(Connecting)
    case DialFailed => Some(Error)
    case Dialed(_) => if run.kind.Remote? && !ok then Some(Error) else None
    case DropPause => Some(Reconnecting)
    case FailWoke => Some(Reconnecting)
    case _ => None
  }

  /** The client a goroutine's next step publishes. */
  function ClientPublished(run: Run): Option<nat> {
    match run.pc
    case Dialed(c) => if run.kind.Remote? then None else Some(c)
    case RemoteBound(c, _) => Some(c)
    case _ => None
  }

  predicate AllGone(s: Sys) {
    && s.bound == {} && s.remoteBound == {}
    && forall run <- s.runs :: run.pc.Exited? && run.dialed <= s.closed
  }

  lemma RestIsClean(s: Sys)
    requires Inv(s) && s.ctl.Idle? && !s.f.running
    ensures AllGone(s) && s.f.client == None && s.f.run == None
  {
    forall run <- s.runs ensures run.pc.Exited? && run.dialed <= s.closed {
      var i :| 0 <= i < |s.runs| && s.runs[i] == run;
      assert RunSound(s.runs[i], s.closed);
    }
  }

  /** The guarded fields as they are, and in `around` everything they have to agree with: the
      goroutines, the clients and listeners that are open, the config, the Stop in progress. */
  class Cell {
    var state: State
    var running: bool
    var listener: Option<nat>
    var client: Option<nat>
    var run: Option<nat>
    var around: Sys

    ghost predicate Valid()
      reads this
    {
      around.f == Fields(state, running, listener, client, run) && Inv(around)
    }

    constructor (kind: Kind)
      ensures Valid() && Initial(around) && around.kind == kind
    {
      state, running, listener, client, run := Off, false, None, None, None;
      around := Sys(FRESH, kind, Idle, [], {}, {}, {}, {}, {}, 0);
    }

    /** Start: a running tuber refuses; otherwise the bind fails and leaves nothing behind, or a
        goroutine starts with everything of earlier runs gone. */
    method Start(bindOk: bool) returns (ok: bool)
      requires Valid() && around.ctl.Idle?
      modifies this
      ensures Valid() && around == Apply(old(around), CallStart(bindOk))
      ensures ok <==> !old(running) && (around.kind.Remote? || bindOk)
      ensures ok ==> running && client == None && AllGone(old(around)) && run == Some(|old(around).runs|)
      ensures ok ==> around.bound == Opt(listener) && (listener.None? <==> around.kind.Remote?)
      ensures !ok ==> running == old(running) && (!running ==> state.Error? && AllGone(around))
    {
      StepKeeps(around, CallStart(bindOk));
      if running {
        return false;
      }
      RestIsClean(around);
      if around.kind.Remote? {
        run, running, state, listener := Some(|around.runs|), true, Connecting, None;
        around := NewRun(around, None);
        return true;
      }
      if !bindOk {
        state := Error;
        around := around.(f := BindFailed(around.f));
        return false;
      }
      listener, run, running, state := Some(around.next), Some(|around.runs|), true, Connecting;
      around := NewRun(around, listener);
      return true;
    }

    /** StartWith adopts a bound listener; a running or remote tuber rejects it untouched. */
    method StartWith() returns (ok: bool)
      requires Valid() && around.ctl.Idle?
      modifies this
      ensures Valid() && (ok <==> !old(running) && !old(around.kind).Remote?)
      ensures around == if ok then Apply(old(around), CallStartWith) else old(around)
      ensures ok ==> running && client == None && AllGone(old(around)) && run == Some(|old(around).runs|)
      ensures ok ==> listener == Some(old(around).next) && around.bound == {old(around).next}
    {
      if running || around.kind.Remote? {
        return false;
      }
      StepKeeps(around, CallStartWith);
      RestIsClean(around);
      listener, run, running, state := Some(around.next), Some(|around.runs|), true, Connecting;
      around := NewRun(around, listener);
      return true;
    }

    /** The goroutine shows its client: no other client was shown, it is its own, and from here
        until it is withdrawn the tuber is Connected. */
    method Publish(r: nat, ok: bool, up: int)
      requires Valid() && CanGo(around, r) && ClientPublished(around.runs[r]).Some?
      modifies this
      ensures Valid() && around == Apply(old(around), Go(r, ok, up))
      ensures old(client) == None && client == ClientPublished(old(around).runs[r]) && state.Connected?
      ensures r == |around.runs| - 1 && client.value in around.runs[r].dialed
    {
      StepKeeps(around, Go(r, ok, up));
      GoKeepsOneAlive(around, r, ok, up);
      client, state := ClientPublished(around.runs[r]), Connected;
      around := GoStep(around, r, ok, up);
    }

    /** The goroutine whose session ended withdraws its own client and nobody else's; it still has
        to close it. */
    method Withdraw(r: nat, ok: bool, up: int)
      requires Valid() && CanGo(around, r) && around.runs[r].pc.Ending?
      modifies this
      ensures Valid() && around == Apply(old(around), Go(r, ok, up))
      ensures client == None && (old(client).Some? ==> old(client.value) == old(around).runs[r].pc.c)
      ensures Held(around.runs[r].pc) == {old(around).runs[r].pc.c}
    {
      StepKeeps(around, Go(r, ok, up));
      GoKeepsOneAlive(around, r, ok, up);
      client := None;
      around := GoStep(around, r, ok, up);
    }

    /** setState never takes Connected away from under a client that is shown. */
    method Enter(r: nat, ok: bool, up: int)
      requires Valid() && CanGo(around, r) && StateWritten(around.runs[r], ok).Some?
      modifies this
      ensures Valid() && around == Apply(old(around), Go(r, ok, up))
      ensures old(client) == None && client == None
    {
      StepKeeps(around, Go(r, ok, up));
      GoKeepsOneAlive(around, r, ok, up);
      state := StateWritten(around.runs[r], ok).value;
      around := GoStep(around, r, ok, up);
    }

    /** Any step of a goroutine; the other steps touch no guarded field. */
    method Step(r: nat, ok: bool, up: int)
      requires Valid() && CanGo(around, r)
      modifies this
      ensures Valid() && around == Apply(old(around), Go(r, ok, up))
    {
      if ClientPublished(around.runs[r]).Some? {
        Publish(r, ok, up);
      } else if StateWritten(around.runs[r], ok).Some? {
        Enter(r, ok, up);
      } else if around.runs[r].pc.Ending? {
        Withdraw(r, ok, up);
      } else {
        StepKeeps(around, Go(r, ok, up));
        around := GoStep(around, r, ok, up);
      }
    }

    /** The rest of the program goes on for a while. */
    method Elapse(acts: seq<Action>)
      requires Valid() && Beside(acts)
      modifies this
      ensures Valid() && around.ctl == old(around.ctl) && old(around.cancelled) <= around.cancelled
      ensures |around.runs| == |old(around.runs)| && running == old(running)
    {
      for i := 0 to |acts|
        invariant Valid() && around.ctl == old(around.ctl) && old(around.cancelled) <= around.cancelled
        invariant |around.runs| == |old(around.runs)| && running == old(running)
      {
        assert acts[i] in acts;
        if Enabled(around, acts[i]) {
          StepKeeps(around, acts[i]);
          if acts[i].Go? {
            GoFrame(around, acts[i].r, acts[i].ok, acts[i].up);
            Step(acts[i].r, acts[i].ok, acts[i].up);
          } else {
            around := Apply(around, acts[i]);
          }
        }
      }
    }

    /** Stop's critical section takes everything out of the fields and hands it over. */
    method TakeOut()
      requires Valid() && around.ctl.Idle? && running
      modifies this
      ensures Valid() && around == Apply(old(around), CallStop)
      ensures around.ctl == Stopping(0, old(listener), old(run), old(client)) && !running
    {
      StepKeeps(around, CallStop);
      around := around.(f := Stopped(around.f), ctl := Stopping(0, listener, run, client));
      running, state, listener, client, run := false, Off, None, None, None;
    }

    /** Cancel, close the listener, close the client: `meanwhile` is what goes on before each. */
    method TearDown(meanwhile: seq<seq<Action>>)
      requires Valid() && around.ctl.Stopping? && around.ctl.stage == 0 && !running
      requires |meanwhile| == 3 && forall acts <- meanwhile :: Beside(acts)
      modifies this
      ensures Valid() && around.ctl == old(around.ctl).(stage := 3) && !running
      ensures |around.runs| == |old(around.runs)| && |around.runs| - 1 in around.cancelled
    {
      for k := 0 to 3
        invariant Valid() && around.ctl == old(around.ctl).(stage := k) && !running
        invariant |around.runs| == |old(around.runs)|
      {
        assert meanwhile[k] in meanwhile;
        Elapse(meanwhile[k]);
        StepKeeps(around, StopStep);
        around := StopTeardown(around);
      }
    }

    /** Waiting for done: the cancelled goroutine takes its last steps. */
    method Await(turns: nat -> (bool, int))
      requires Valid() && around.ctl.Stopping? && around.ctl.stage == 3
      modifies this
      ensures Valid() && around.ctl == old(around.ctl) && |around.runs| == |old(around.runs)|
      ensures Quiet(around) && running == old(running)
    {
      var r := |around.runs| - 1;
      var i := 0;
      while !around.runs[r].pc.Exited?
        invariant Valid() && around.ctl == old(around.ctl) && |around.runs| == r + 1 && running == old(running)
        decreases Rank(around.runs[r].pc)
      {
        CancelledGoroutineExits(around, r, turns(i).0, turns(i).1);
        GoFrame(around, r, turns(i).0, turns(i).1);
        Step(r, turns(i).0, turns(i).1);
        i := i + 1;
      }
    }

    /** Stop, whatever else goes on in between and however the goroutine's last steps turn out:
        when it returns nothing of any run is left.  A tuber that was not running only shows Off. */
    method Stop(meanwhile: seq<seq<Action>>, turns: nat -> (bool, int))
      requires Valid() && around.ctl.Idle?
      requires |meanwhile| == 3 && forall acts <- meanwhile :: Beside(acts)
      modifies this
      ensures Valid() && around.ctl.Idle? && AllGone(around)
      ensures !running && listener == None && client == None && run == None
      ensures |around.runs| == |old(around.runs)|
      ensures !old(running) ==> around == old(around).(f := old(around).f.(state := Off))
    {
      if !running {
        StepKeeps(around, CallStop);
        RestIsClean(around);
        state := Off;
        around := around.(f := Stopped(around.f));
        return;
      }
      TakeOut();
      TearDown(meanwhile);
      Await(turns);
      StepKeeps(around, StopStep);
      around := StopTeardown(around);
      RestIsClean(around);
    }
  }
}
