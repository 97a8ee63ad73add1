/** One tuber's mutex-guarded fields (internal/forward/tuber.go) and what each critical section
    makes of them.  TuberRuns has the object that runs these sections. */
module Tuber {

  import opened Wrappers

  datatype State = Off | Connecting | Connected | Reconnecting | Error

  datatype Kind = Local | Dynamic | Remote

  /** Listeners, clients and runs are named by numbers.  `run` stands for the pair cancel and
      done, which Start sets and Stop takes together. */
  datatype Fields = Fields(state: State, running: bool, listener: Option<nat>, client: Option<nat>, run: Option<nat>)

  const FRESH := Fields(Off, false, None, None, None)

  /** Start after a successful bind (ln), after an adoption (ln), or for type=remote (None). */
  function Started(f: Fields, ln: Option<nat>, run: nat): Fields {
    Fields(Connecting, true, ln, f.client, Some(run))
  }

  function BindFailed(f: Fields): Fields { f.(state := Error) }

  function Stopped(f: Fields): Fields {
    if f.running then Fields(Off, false, None, None, None) else f.(state := Off)
  }

  function SetState(f: Fields, st: State): Fields { f.(state := st) }

  function Published(f: Fields, c: nat): Fields { f.(client := Some(c), state := Connected) }

  function Withdrawn(f: Fields): Fields { f.(client := None) }
}
