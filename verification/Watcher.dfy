/** The config watcher's poll, settle and reload loop (internal/daemon/watcher.go), judged over
    whole traces of timestamped stat results. */
module Watcher {

  import opened Wrappers

  /** What sameStat compares: size and modification time. */
  datatype Sig = Sig(size: nat, mtime: int)

  /** One poll: the clock and the stat result (None when the file is missing). */
  datatype Tick = Tick(now: int, cur: Option<Sig>)

  /** The loop's variables.  stableOk is false until the file has been seen. */
  datatype Loop = Loop(stable: Option<Sig>, stableOk: bool, last: Option<Sig>, armed: bool, deadline: int,
    vanished: bool)

  datatype Event = Silent | Warned | Reloaded(sig: Sig)

  function Begin(baseline: Option<Sig>): Loop { Loop(baseline, baseline.Some?, baseline, false, 0, false) }

  /** One pass through the select's ticker branch. */
  function Poll(l: Loop, t: Tick, settle: int): (Loop, Event) {
    if t.cur.None? then
      if l.stableOk && !l.vanished then (l.(vanished := true), Warned) else (l, Silent)
    else
      var seen := l.(vanished := false, last := t.cur);
      if t.cur == l.stable then (seen.(armed := false), Silent)
      else if !l.armed then (seen.(armed := true, deadline := t.now + settle), Silent)
      else if t.cur != l.last then (seen.(deadline := t.now + settle), Silent)
      else if t.now >= l.deadline then (seen.(stable := t.cur, stableOk := true, armed := false), Reloaded(t.cur.value))
      else (seen, Silent)
  }

  function After(l: Loop, ts: seq<Tick>, settle: int): Loop {
    if ts == [] then l else Poll(After(l, ts[..|ts| - 1], settle), ts[|ts| - 1], settle).0
  }

  /** What the loop does at tick i of a trace. */
  function EventAt(l: Loop, ts: seq<Tick>, i: nat, settle: int): Event
    requires i < |ts|
  {
    Poll(After(l, ts[..i], settle), ts[i], settle).1
  }

  /** The loop itself: the variables of the source, one turn per tick until the trace ends. */
  method RunLoop(baseline: Option<Sig>, ts: seq<Tick>, settle: int) returns (events: seq<Event>)
    ensures |events| == |ts| && forall i | 0 <= i < |ts| :: events[i] == EventAt(Begin(baseline), ts, i, settle)
  {
    events := [];
    var stable, stableOk, last := baseline, baseline.Some?, baseline;
    var armed, deadline, vanished := false, 0, false;
    var i := 0;
    while i < |ts|
      invariant 0 <= i <= |ts| && |events| == i
      invariant Loop(stable, stableOk, last, armed, deadline, vanished) == After(Begin(baseline), ts[..i], settle)
      invariant forall j | 0 <= j < i :: events[j] == EventAt(Begin(baseline), ts, j, settle)
    {
      var t := ts[i];
      assert ts[..i + 1][..i] == ts[..i];
      var event := Silent;
      if t.cur.None? {
        if stableOk && !vanished {
          event, vanished := Warned, true;
        }
      } else {
        vanished := false;
        if t.cur != stable {
          if !armed {
            armed, deadline := true, t.now + settle;
          } else if t.cur != last {
            deadline := t.now + settle;
          } else if t.now >= deadline {
            event := Reloaded(t.cur.value);
            stable, stableOk, armed := t.cur, true, false;
          }
        } else {
          armed := false;
        }
        last := t.cur;
      }
      events := events + [event];
      i := i + 1;
    }
  }

  // ----- Traces -----

  ghost predicate Monotone(ts: seq<Tick>) { forall i, j | 0 <= i <= j < |ts| :: ts[i].now <= ts[j].now }

  /** The signature last reloaded, or the baseline. */
  function LastReloaded(baseline: Option<Sig>, ts: seq<Tick>, settle: int): Option<Sig> {
    if ts == [] then baseline
    else
      match EventAt(Begin(baseline), ts, |ts| - 1, settle)
      case Reloaded(s) => Some(s)
      case _ => LastReloaded(baseline, ts[..|ts| - 1], settle)
  }

  /** From tick i to tick j only `s` was seen (the file may have been missing in between). */
  ghost predicate OnlySeen(ts: seq<Tick>, i: nat, j: nat, s: Sig)
    requires j < |ts|
  {
    forall k | i <= k <= j :: ts[k].cur == None || ts[k].cur == Some(s)
  }

  /** The state after a trace: stable is the last reloaded signature; an armed loop has seen nothing
      but `last` since some tick, at which it put the deadline settle later; a disarmed one
      last saw the stable signature. */
  ghost predicate Tracks(baseline: Option<Sig>, ts: seq<Tick>, settle: int) {
    var l := After(Begin(baseline), ts, settle);
    && l.stable == LastReloaded(baseline, ts, settle)
    && (!l.armed ==> l.last == l.stable)
    && (l.armed ==> l.last.Some? && l.last != l.stable && exists i :: ArmedAt(ts, i, l, settle))
  }

  ghost predicate ArmedAt(ts: seq<Tick>, i: int, l: Loop, settle: int)
    requires l.last.Some?
  {
    && 0 <= i < |ts| && ts[i].cur == l.last && l.deadline == ts[i].now + settle
    && OnlySeen(ts, i, |ts| - 1, l.last.value)
  }

  lemma {:induction false} AlwaysTracks(baseline: Option<Sig>, ts: seq<Tick>, settle: int)
    ensures Tracks(baseline, ts, settle)
  {
    if ts != [] {
      var n := |ts| - 1;
      var before := ts[..n];
      AlwaysTracks(baseline, before, settle);
      var l := After(Begin(baseline), before, settle);
      var l' := After(Begin(baseline), ts, settle);
      assert ts[..n] == before;
      if l'.armed {
        if l.armed && l'.last == l.last {
          var i :| ArmedAt(before, i, l, settle);
          assert forall k | i <= k < n :: ts[k] == before[k];
          assert ArmedAt(ts, i, l', settle);
        } else {
          assert ArmedAt(ts, n, l', settle);
        }
      }
    }
  }

  /** A reload fires only on a tick where the file exists, for the signature seen there, which has
      been the only one seen for at least the settle time and differs from the one last
      reloaded. */
  lemma ReloadsAreSettled(baseline: Option<Sig>, ts: seq<Tick>, j: nat, settle: int)
    requires j < |ts| && EventAt(Begin(baseline), ts, j, settle).Reloaded?
    ensures var s := EventAt(Begin(baseline), ts, j, settle).sig;
      && ts[j].cur == Some(s)
      && LastReloaded(baseline, ts[..j], settle) != Some(s)
      && exists i :: 0 <= i < j && ts[i].cur == Some(s) && ts[j].now - ts[i].now >= settle && OnlySeen(ts, i, j, s)
  {
    var before := ts[..j];
    AlwaysTracks(baseline, before, settle);
    var l := After(Begin(baseline), before, settle);
    var i :| ArmedAt(before, i, l, settle);
    assert forall k | i <= k < j :: ts[k] == before[k];
  }

  /** While the loop stays on one signature that is not the stable one, it is armed with a deadline
      no later than `by`. */
  lemma {:induction false} StaysArmed(baseline: Option<Sig>, ts: seq<Tick>, i: nat, j: nat, s: Sig, settle: int)
    requires i < j <= |ts| && Monotone(ts) && ts[i].cur == Some(s) && OnlySeen(ts, i, j - 1, s)
    requires LastReloaded(baseline, ts[..i], settle) != Some(s)
    requires forall k | i <= k < j :: EventAt(Begin(baseline), ts, k, settle) != Reloaded(s)
    ensures var l := After(Begin(baseline), ts[..j], settle);
      l.armed && l.last == Some(s) && l.deadline <= ts[i].now + settle && l.stable != Some(s)
    decreases j
  {
    assert ts[..j][..j - 1] == ts[..j - 1];
    if j == i + 1 {
      AlwaysTracks(baseline, ts[..i], settle);
      var l := After(Begin(baseline), ts[..i], settle);
      assert EventAt(Begin(baseline), ts, i, settle) != Reloaded(s);
      if l.armed && l.last == Some(s) {
        var a :| ArmedAt(ts[..i], a, l, settle);
        assert ts[..i][a] == ts[a];
      }
    } else {
      StaysArmed(baseline, ts, i, j - 1, s, settle);
      assert EventAt(Begin(baseline), ts, j - 1, settle) != Reloaded(s);
      assert ts[j - 1].cur == None || ts[j - 1].cur == Some(s);
    }
  }

  /** Conversely, any stretch of ticks at least the settle time long that shows one signature
      (present at both ends) other than the last reloaded one contains a reload of it. */
  lemma SettledEditsAreReloaded(baseline: Option<Sig>, ts: seq<Tick>, i: nat, j: nat, s: Sig, settle: int)
    requires i < j < |ts| && Monotone(ts) && ts[i].cur == ts[j].cur == Some(s) && OnlySeen(ts, i, j, s)
    requires ts[j].now - ts[i].now >= settle
    requires LastReloaded(baseline, ts[..i], settle) != Some(s)
    ensures exists k :: i <= k <= j && EventAt(Begin(baseline), ts, k, settle) == Reloaded(s)
  {
    if forall k | i <= k < j :: EventAt(Begin(baseline), ts, k, settle) != Reloaded(s) {
      StaysArmed(baseline, ts, i, j, s, settle);
      assert EventAt(Begin(baseline), ts, j, settle) == Reloaded(s);
    }
  }

  /** A file unchanged since the last reload, or missing, is never reloaded. */
  lemma QuietFileIsLeftAlone(baseline: Option<Sig>, ts: seq<Tick>, j: nat, settle: int)
    requires j < |ts| && (ts[j].cur == None || ts[j].cur == LastReloaded(baseline, ts[..j], settle))
    ensures !EventAt(Begin(baseline), ts, j, settle).Reloaded?
  {
    AlwaysTracks(baseline, ts[..j], settle);
  }

  /** The loop has seen the file exactly if there is a signature last reloaded, and has noted its absence
      exactly if the last tick missed a file seen before. */
  lemma {:induction false} TracksAbsence(baseline: Option<Sig>, ts: seq<Tick>, settle: int)
    ensures var l := After(Begin(baseline), ts, settle);
      && l.stableOk == LastReloaded(baseline, ts, settle).Some?
      && l.vanished == (ts != [] && ts[|ts| - 1].cur.None? && l.stableOk)
  {
    if ts != [] {
      var before := ts[..|ts| - 1];
      TracksAbsence(baseline, before, settle);
      AlwaysTracks(baseline, before, settle);
      AlwaysTracks(baseline, ts, settle);
    }
  }

  /** The first tick to miss a file seen before is warned about, and no other. */
  lemma WarnsIff(baseline: Option<Sig>, ts: seq<Tick>, j: nat, settle: int)
    requires j < |ts|
    ensures EventAt(Begin(baseline), ts, j, settle).Warned? <==>
      ts[j].cur.None? && LastReloaded(baseline, ts[..j], settle).Some? && (j == 0 || ts[j - 1].cur.Some?)
  {
    TracksAbsence(baseline, ts[..j], settle);
  }

  /** A missing file is warned about at most once until it has been seen again. */
  lemma OneWarningPerAbsence(baseline: Option<Sig>, ts: seq<Tick>, i: nat, j: nat, settle: int)
    requires i < j < |ts| && EventAt(Begin(baseline), ts, i, settle).Warned?
      && EventAt(Begin(baseline), ts, j, settle).Warned?
    ensures exists k :: i < k < j && ts[k].cur.Some?
  {
    if forall k | i < k < j :: ts[k].cur.None? {
      StaysVanished(baseline, ts, i, j, settle);
    }
  }

  lemma {:induction false} StaysVanished(baseline: Option<Sig>, ts: seq<Tick>, i: nat, j: nat, settle: int)
    requires i < j <= |ts| && EventAt(Begin(baseline), ts, i, settle).Warned?
    requires forall k | i < k < j :: ts[k].cur.None?
    ensures After(Begin(baseline), ts[..j], settle).vanished
  {
    assert ts[..j][..j - 1] == ts[..j - 1];
    if j > i + 1 { StaysVanished(baseline, ts, i, j - 1, settle); }
  }
}
