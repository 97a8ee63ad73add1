/** The engine's reconciliation of its tubers with a new config (internal/forward/engine.go,
    Reconfigure and UpdateMetadata of tuber.go, Defaults.Equal of config.go). */
module Engine {

  type Name = string

  import opened Wrappers

  datatype LogConfig = LogConfig(maxSizeMB: int, maxAgeDays: int, retain: int)

  datatype Defaults = Defaults(
    identity: string, knownHosts: string, acceptNewHosts: bool, socks5User: string, socks5Password: string,
    passphraseStore: bool, passwordAuth: Option<bool>, passwordStore: bool, updateCheck: Option<bool>, log: LogConfig)

  datatype Hop = Hop(user: string, host: string, port: int)

  datatype Tuber = Tuber(
    name: Name, kind: string, local: string, remote: string, ssh: string, identity: string, enabled: bool,
    tags: seq<string>, jump: string, passwordAuth: Option<bool>, socks5User: string, socks5Password: string,
    user: string, host: string, port: int, jumps: seq<Hop>, sshIdentity: string)

  datatype Config = Config(defaults: Defaults, tubers: seq<Tuber>)

  /** Defaults.Equal; update_check is not compared. */
  predicate Equal(a: Defaults, b: Defaults) { a == b.(updateCheck := a.updateCheck) }

  /** The fields tuberChanged compares: not enabled, not tags, and not the derived jumps and
      ssh-config identity. */
  datatype Connection = Connection(
    name: Name, kind: string, local: string, remote: string, ssh: string, identity: string,
    user: string, host: string, port: int, passwordAuth: Option<bool>, jump: string,
    socks5User: string, socks5Password: string)

  function ConnectionOf(t: Tuber): Connection {
    Connection(t.name, t.kind, t.local, t.remote, t.ssh, t.identity, t.user, t.host, t.port,
               t.passwordAuth, t.jump, t.socks5User, t.socks5Password)
  }

  predicate TuberChanged(a: Tuber, b: Tuber) { ConnectionOf(a) != ConnectionOf(b) }

  predicate Agrees(a: Tuber, b: Tuber) { !TuberChanged(a, b) && a.tags == b.tags }

  /** Field by field: all that matters to a tuber at work is the same, its tags included. */
  predicate SameTuber(a: Tuber, b: Tuber) {
    a.(enabled := b.enabled, jumps := b.jumps, sshIdentity := b.sshIdentity) == b
  }

  /** Nothing that needs a restart differs. */
  predicate SameConnection(a: Tuber, b: Tuber) {
    a.(enabled := b.enabled, jumps := b.jumps, sshIdentity := b.sshIdentity, tags := b.tags) == b
  }

  predicate SameDefaults(a: Defaults, b: Defaults) { a.(updateCheck := b.updateCheck) == b }

  lemma ComparedFields(a: Tuber, b: Tuber)
    ensures TuberChanged(a, b) <==> !SameConnection(a, b)
    ensures Agrees(a, b) <==> SameTuber(a, b)
  {
    assert ConnectionOf(a) == ConnectionOf(b) && a.tags == b.tags ==> SameTuber(a, b);
    assert ConnectionOf(a) == ConnectionOf(b) ==> SameConnection(a, b);
  }

  /** One live tuber: the config it works from, whether it runs, and how often it was started and
      stopped while running. */
  datatype Live = Live(cfg: Tuber, defaults: Defaults, running: bool, starts: nat, stops: nat)

  function New(t: Tuber, d: Defaults): Live { Live(t, d, false, 0, 0) }

  function StartLive(l: Live, ok: bool): Live {
    if l.running || !ok then l else l.(running := true, starts := l.starts + 1)
  }

  function StopLive(l: Live): Live {
    if l.running then l.(running := false, stops := l.stops + 1) else l
  }

  function Reconfigured(l: Live, t: Tuber, d: Defaults, ok: bool): Live {
    var l' := l.(cfg := t, defaults := d);
    if l.running then StartLive(StopLive(l'), ok) else l'
  }

  function Relabelled(l: Live, t: Tuber, d: Defaults): Live { l.(cfg := t, defaults := d) }

  datatype View = View(cfg: Config, defaults: Defaults, tubers: map<Name, Live>, configs: map<Name, Tuber>)

  function Names(ts: seq<Tuber>): set<Name> { set i | 0 <= i < |ts| :: ts[i].name }

  predicate Unique(ts: seq<Tuber>) { forall i, j | 0 <= i < j < |ts| :: ts[i].name != ts[j].name }

  /** The entries of a list by name; of two with one name the later wins. */
  function ByName(ts: seq<Tuber>): (m: map<Name, Tuber>)
    ensures m.Keys == Names(ts)
    ensures forall n | n in m :: m[n].name == n && m[n] in ts
  {
    if ts == [] then map[]
    else
      var last := ts[|ts| - 1];
      assert forall i | 0 <= i < |ts| :: ts[i].name == last.name || ts[i].name in Names(ts[..|ts| - 1]) by {
        forall i | 0 <= i < |ts| - 1 ensures ts[i].name in Names(ts[..|ts| - 1]) {
          assert ts[..|ts| - 1][i] == ts[i];
        }
      }
      ByName(ts[..|ts| - 1])[last.name := last]
  }

  /** What becomes of one tuber: `prev` is the entry and config it had, ok whether a Start would
      bind. */
  function Next(prev: Option<(Live, Tuber)>, t: Tuber, oldDefaults: Defaults, d: Defaults, ok: bool): Live {
    if prev.None? then (if t.enabled then StartLive(New(t, d), ok) else New(t, d))
    else
      var (l, c) := prev.value;
      if TuberChanged(c, t) || !Equal(oldDefaults, d) then Reconfigured(l, t, d, ok)
      else if c.tags != t.tags then Relabelled(l, t, d)
      else l
  }

  function Paired(tubers: map<Name, Live>, configs: map<Name, Tuber>, n: Name): Option<(Live, Tuber)> {
    if n in configs && n in tubers then Some((tubers[n], configs[n])) else None
  }

  /** What becomes of every tuber; `binds` are the names whose listener can be bound. */
  function NextAll(tubers: map<Name, Live>, configs: map<Name, Tuber>, newSet: map<Name, Tuber>,
                   oldDefaults: Defaults, d: Defaults, binds: set<Name>): map<Name, Live>
  {
    map n | n in newSet :: Next(Paired(tubers, configs, n), newSet[n], oldDefaults, d, n in binds)
  }

  /** The engine after Reload. */
  function Reloaded(v: View, cfg: Config, binds: set<Name>): View {
    var latest := ByName(cfg.tubers);
    View(cfg, cfg.defaults, NextAll(v.tubers, v.configs, latest, v.defaults, cfg.defaults, binds), latest)
  }

  lemma SurvivorsSuffice(tubers: map<Name, Live>, configs: map<Name, Tuber>, newSet: map<Name, Tuber>,
                         oldDefaults: Defaults, d: Defaults, binds: set<Name>)
    ensures NextAll(map n | n in tubers && n in newSet :: tubers[n], configs, newSet, oldDefaults, d, binds)
      == NextAll(tubers, configs, newSet, oldDefaults, d, binds)
  {
    var kept := map n | n in tubers && n in newSet :: tubers[n];
    assert forall n | n in newSet :: Paired(kept, configs, n) == Paired(tubers, configs, n);
  }

  lemma ByNameExtends(ts: seq<Tuber>, i: nat)
    requires i < |ts|
    ensures ByName(ts[..i + 1]) == ByName(ts[..i])[ts[i].name := ts[i]]
    ensures Unique(ts) ==> ts[i].name !in ByName(ts[..i])
  {
    assert ts[..i + 1][..i] == ts[..i];
  }

  /** The entries of a list by name; of two with one name the earlier wins. */
  function FirstByName(ts: seq<Tuber>): map<Name, Tuber> {
    if ts == [] then map[]
    else
      var m := FirstByName(ts[..|ts| - 1]);
      var last := ts[|ts| - 1];
      if last.name in m then m else m[last.name := last]
  }

  lemma {:induction false} FirstNames(ts: seq<Tuber>)
    ensures FirstByName(ts).Keys == Names(ts)
    decreases |ts|
  {
    if ts != [] {
      var k := |ts| - 1;
      FirstNames(ts[..k]);
      assert forall i | 0 <= i < k :: ts[..k][i] == ts[i];
    }
  }

  lemma {:induction false} FirstWins(ts: seq<Tuber>, i: nat)
    requires i < |ts| && forall j | 0 <= j < i :: ts[j].name != ts[i].name
    ensures ts[i].name in FirstByName(ts) && FirstByName(ts)[ts[i].name] == ts[i]
    decreases |ts|
  {
    var k := |ts| - 1;
    if i < k {
      FirstWins(ts[..k], i);
    } else {
      FirstNames(ts[..k]);
    }
  }

  lemma FirstByNameExtends(ts: seq<Tuber>, i: nat)
    requires i < |ts|
    ensures FirstByName(ts[..i + 1])
      == if ts[i].name in FirstByName(ts[..i]) then FirstByName(ts[..i]) else FirstByName(ts[..i])[ts[i].name := ts[i]]
  {
    assert ts[..i + 1][..i] == ts[..i];
  }

  /** In a config that validation accepts, building and reloading choose the same entries. */
  lemma {:induction false} UniqueNamesAgree(ts: seq<Tuber>)
    requires Unique(ts)
    ensures FirstByName(ts) == ByName(ts)
  {
    if ts != [] {
      var k := |ts| - 1;
      UniqueNamesAgree(ts[..k]);
      ByNameExtends(ts, k);
      assert ts[..k + 1] == ts;
    }
  }

  function Built(cfg: Config): View {
    View(cfg, cfg.defaults, AllNew(FirstByName(cfg.tubers), cfg.defaults), FirstByName(cfg.tubers))
  }

  /** While the names in `todo` have not been looked at: what is still there, and what has been
      dropped, stopped. */
  function Remaining(tubers: map<Name, Live>, newSet: map<Name, Tuber>, todo: set<Name>): map<Name, Live> {
    map n | n in tubers && (n in newSet || n in todo) :: tubers[n]
  }

  function DroppedSoFar(tubers: map<Name, Live>, newSet: map<Name, Tuber>, todo: set<Name>): map<Name, Live> {
    map n | n in tubers && n !in newSet && n !in todo :: StopLive(tubers[n])
  }

  /** What a reload drops, stopped. */
  function Dropped(tubers: map<Name, Live>, newSet: map<Name, Tuber>): map<Name, Live> {
    DroppedSoFar(tubers, newSet, {})
  }

  lemma OneLookedAt(tubers: map<Name, Live>, newSet: map<Name, Tuber>, todo: set<Name>, n: Name)
    requires n in todo && todo <= tubers.Keys
    ensures Remaining(tubers, newSet, todo - {n})
      == if n in newSet then Remaining(tubers, newSet, todo) else Remaining(tubers, newSet, todo) - {n}
    ensures n in Remaining(tubers, newSet, todo) && Remaining(tubers, newSet, todo)[n] == tubers[n]
    ensures DroppedSoFar(tubers, newSet, todo - {n})
      == if n in newSet then DroppedSoFar(tubers, newSet, todo)
         else DroppedSoFar(tubers, newSet, todo)[n := StopLive(tubers[n])]
  {
  }

  predicate AllStopped(m: map<Name, Live>) { forall n | n in m :: !m[n].running }

  function AllNew(configs: map<Name, Tuber>, d: Defaults): map<Name, Live> {
    map n | n in configs :: New(configs[n], d)
  }

  lemma AllNewExtends(configs: map<Name, Tuber>, t: Tuber, d: Defaults)
    ensures AllNew(configs[t.name := t], d) == AllNew(configs, d)[t.name := New(t, d)]
  {
  }

  /** `retired` records what each reload stopped and dropped; the code only lets go of it. */
  class EngineObject {
    var cfg: Config
    var defaults: Defaults
    var tubers: map<Name, Live>
    var configs: map<Name, Tuber>
    var retired: seq<map<Name, Live>>

    ghost function Abs(): View
      reads this
    {
      View(cfg, defaults, tubers, configs)
    }

    constructor (c: Config)
      ensures Abs() == Built(c) && retired == []
    {
      cfg, defaults := c, c.defaults;
      tubers, configs, retired := map[], map[], [];
      new;
      BuildAll();
    }

    /** buildAll: a name that is there already is passed over. */
    method BuildAll()
      requires tubers == map[] && configs == map[] && defaults == cfg.defaults
      modifies this`tubers, this`configs
      ensures Abs() == Built(cfg)
    {
      var i := 0;
      while i < |cfg.tubers|
        invariant 0 <= i <= |cfg.tubers|
        invariant configs == FirstByName(cfg.tubers[..i]) && tubers == AllNew(configs, defaults)
      {
        var t := cfg.tubers[i];
        FirstByNameExtends(cfg.tubers, i);
        AllNewExtends(configs, t, defaults);
        if t.name !in tubers {
          tubers := tubers[t.name := New(t, defaults)];
          configs := configs[t.name := t];
        }
        i := i + 1;
      }
      assert cfg.tubers[..i] == cfg.tubers;
    }

    /** Reload's removal loop, in whatever order the map gives its keys: what is missing from the new
        set is stopped and dropped, nothing else is touched. */
    method DropMissing(newSet: map<Name, Tuber>)
      modifies this`tubers, this`retired
      ensures tubers == map n | n in old(tubers) && n in newSet :: old(tubers)[n]
      ensures retired == old(retired) + [Dropped(old(tubers), newSet)]
      ensures AllStopped(retired[|retired| - 1])
    {
      ghost var start := tubers;
      var todo := tubers.Keys;
      var dropped: map<Name, Live> := map[];
      assert Remaining(start, newSet, todo) == start && DroppedSoFar(start, newSet, todo) == map[];
      while todo != {}
        invariant todo <= start.Keys && retired == old(retired)
        invariant tubers == Remaining(start, newSet, todo) && dropped == DroppedSoFar(start, newSet, todo)
        decreases |todo|
      {
        var n :| n in todo;
        OneLookedAt(start, newSet, todo, n);
        todo := todo - {n};
        if n !in newSet {
          dropped := dropped[n := StopLive(tubers[n])];
          tubers := tubers - {n};
        }
      }
      retired := retired + [dropped];
    }

    /** Reload's loop over the new set, in whatever order the map gives its keys; `want` says what
        each turn leaves. */
    method Reconcile(newSet: map<Name, Tuber>, oldDefaults: Defaults, binds: set<Name>, ghost want: map<Name, Live>)
      requires tubers.Keys == configs.Keys * newSet.Keys && want.Keys == newSet.Keys
      requires forall n {:trigger Paired(tubers, configs, n)} | n in newSet ::
        want[n] == Next(Paired(tubers, configs, n), newSet[n], oldDefaults, defaults, n in binds)
      modifies this`tubers
      ensures tubers == want
    {
      var todo := newSet.Keys;
      ghost var start := tubers;
      while todo != {}
        invariant todo <= newSet.Keys && start.Keys <= tubers.Keys <= newSet.Keys
        invariant forall n | n in todo && n in start :: tubers[n] == start[n]
        invariant forall n | n in todo && n !in start :: n !in tubers
        invariant forall n | n in newSet && n !in todo :: n in tubers && tubers[n] == want[n]
        decreases |todo|
      {
        var n :| n in todo;
        todo := todo - {n};
        assert Paired(tubers, configs, n) == Paired(start, configs, n);
        ReconcileOne(n, newSet[n], oldDefaults, n in binds);
      }
    }

    /** One turn of that loop. */
    method ReconcileOne(n: Name, t: Tuber, oldDefaults: Defaults, ok: bool)
      requires n in configs ==> n in tubers
      modifies this`tubers
      ensures tubers == old(tubers)[n := Next(Paired(old(tubers), configs, n), t, oldDefaults, defaults, ok)]
    {
      if n !in configs {
        var tn := New(t, defaults);
        if t.enabled {
          tn := StartLive(tn, ok);
        }
        tubers := tubers[n := tn];
      } else if TuberChanged(configs[n], t) || !Equal(oldDefaults, defaults) {
        tubers := tubers[n := Reconfigured(tubers[n], t, defaults, ok)];
      } else if configs[n].tags != t.tags {
        tubers := tubers[n := Relabelled(tubers[n], t, defaults)];
      }
    }

    method Reload(c: Config, binds: set<Name>)
      requires configs.Keys == tubers.Keys
      modifies this
      ensures Abs() == Reloaded(old(Abs()), c, binds)
      ensures retired == old(retired) + [Dropped(old(tubers), ByName(c.tubers))]
    {
      var oldDefaults := defaults;
      cfg, defaults := c, c.defaults;
      var newSet := CollectByName(c.tubers);
      DropMissing(newSet);
      SurvivorsSuffice(old(tubers), configs, newSet, oldDefaults, defaults, binds);
      Reconcile(newSet, oldDefaults, binds, NextAll(old(tubers), configs, newSet, oldDefaults, defaults, binds));
      configs := newSet;
    }
  }

  method CollectByName(ts: seq<Tuber>) returns (m: map<Name, Tuber>)
    ensures m == ByName(ts)
  {
    m := map[];
    var i := 0;
    while i < |ts|
      invariant 0 <= i <= |ts| && m == ByName(ts[..i])
    {
      ByNameExtends(ts, i);
      m := m[ts[i].name := ts[i]];
      i := i + 1;
    }
    assert ts[..i] == ts;
  }

  // ----- What any sequence of operations keeps -----

  datatype Act = Enable | Disable | Restart

  datatype Op = ReloadOp(cfg: Config, binds: set<Name>) | Control(name: Name, act: Act, ok: bool)

  function Acted(l: Live, act: Act, ok: bool): Live {
    match act
    case Enable => StartLive(l, ok)
    case Disable => StopLive(l)
    case Restart => StartLive(StopLive(l), ok)
  }

  predicate Allowed(op: Op) { op.ReloadOp? ==> Unique(op.cfg.tubers) }

  function Apply(v: View, op: Op): View {
    match op
    case ReloadOp(c, binds) => Reloaded(v, c, binds)
    case Control(n, act, ok) => if n in v.tubers then v.(tubers := v.tubers[n := Acted(v.tubers[n], act, ok)]) else v
  }

  function Run(v: View, ops: seq<Op>): View
    decreases |ops|
  {
    if ops == [] then v else Run(Apply(v, ops[0]), ops[1..])
  }

  /** The three maps agree, and every tuber works from its current config (flags and derived fields
      that need no restart aside) and from the current defaults (update_check aside). */
  ghost predicate Reconciled(v: View) {
    && Unique(v.cfg.tubers) && v.defaults == v.cfg.defaults
    && v.tubers.Keys == v.configs.Keys == Names(v.cfg.tubers)
    && (forall i | 0 <= i < |v.cfg.tubers| :: v.configs[v.cfg.tubers[i].name] == v.cfg.tubers[i])
    && (forall n | n in v.tubers ::
          SameTuber(v.tubers[n].cfg, v.configs[n]) && SameDefaults(v.tubers[n].defaults, v.defaults))
  }

  lemma {:induction false} ByNameFinds(ts: seq<Tuber>, i: nat)
    requires Unique(ts) && i < |ts|
    ensures ts[i].name in ByName(ts) && ByName(ts)[ts[i].name] == ts[i]
  {
    if i < |ts| - 1 { ByNameFinds(ts[..|ts| - 1], i); }
  }

  lemma AllFound(ts: seq<Tuber>)
    requires Unique(ts)
    ensures forall i | 0 <= i < |ts| :: ts[i].name in ByName(ts) && ByName(ts)[ts[i].name] == ts[i]
  {
    forall i | 0 <= i < |ts| ensures ts[i].name in ByName(ts) && ByName(ts)[ts[i].name] == ts[i] {
      ByNameFinds(ts, i);
    }
  }

  lemma NextAgrees(prev: Option<(Live, Tuber)>, t: Tuber, oldDefaults: Defaults, d: Defaults, ok: bool)
    requires prev.Some? ==>
      SameTuber(prev.value.0.cfg, prev.value.1) && SameDefaults(prev.value.0.defaults, oldDefaults)
    ensures var l := Next(prev, t, oldDefaults, d, ok); SameTuber(l.cfg, t) && SameDefaults(l.defaults, d)
  {
    if prev.Some? { ComparedFields(prev.value.1, t); }
  }

  lemma ReloadReconciles(v: View, c: Config, binds: set<Name>)
    requires Reconciled(v) && Unique(c.tubers)
    ensures Reconciled(Reloaded(v, c, binds))
  {
    AllFound(c.tubers);
    var v' := Reloaded(v, c, binds);
    forall n | n in v'.tubers
      ensures SameTuber(v'.tubers[n].cfg, v'.configs[n]) && SameDefaults(v'.tubers[n].defaults, v'.defaults)
    {
      NextAgrees(Paired(v.tubers, v.configs, n), v'.configs[n], v.defaults, c.defaults, n in binds);
    }
  }

  lemma ControlReconciles(v: View, n: Name, act: Act, ok: bool)
    requires Reconciled(v)
    ensures Reconciled(Apply(v, Control(n, act, ok)))
  {
    if n in v.tubers {
      var l := Acted(v.tubers[n], act, ok);
      assert l.cfg == v.tubers[n].cfg && l.defaults == v.tubers[n].defaults;
      assert v.tubers[n := l].Keys == v.tubers.Keys;
    }
  }

  lemma {:induction false} RunReconciles(v: View, ops: seq<Op>)
    requires Reconciled(v) && forall i | 0 <= i < |ops| :: Allowed(ops[i])
    ensures Reconciled(Run(v, ops))
    decreases |ops|
  {
    if ops != [] {
      if ops[0].ReloadOp? {
        ReloadReconciles(v, ops[0].cfg, ops[0].binds);
      } else {
        ControlReconciles(v, ops[0].name, ops[0].act, ops[0].ok);
      }
      RunReconciles(Apply(v, ops[0]), ops[1..]);
    }
  }

  lemma BuiltIsReconciled(c: Config)
    requires Unique(c.tubers)
    ensures Reconciled(Built(c))
  {
    UniqueNamesAgree(c.tubers);
    AllFound(c.tubers);
    var configs := ByName(c.tubers);
    assert AllNew(configs, c.defaults).Keys == configs.Keys;
  }

  /** From construction on, over any sequence of reloads and control operations. */
  lemma AlwaysReconciled(c: Config, ops: seq<Op>)
    requires Unique(c.tubers) && forall i | 0 <= i < |ops| :: Allowed(ops[i])
    ensures Reconciled(Built(c)) && Reconciled(Run(Built(c), ops))
  {
    BuiltIsReconciled(c);
    RunReconciles(Built(c), ops);
  }

  /** A reload touches the connection of a surviving tuber only if a compared field or the defaults
      changed, and an edited tuber runs afterwards only if it ran before. */
  lemma NextDisturbsOnlyEdits(l: Live, c: Tuber, t: Tuber, oldDefaults: Defaults, d: Defaults, ok: bool)
    ensures var l' := Next(Some((l, c)), t, oldDefaults, d, ok);
      && (l'.running ==> l.running)
      && (!l.running ==> l'.starts == l.starts && l'.stops == l.stops)
      && (if SameConnection(c, t) && SameDefaults(oldDefaults, d)
          then l'.running == l.running && l'.starts == l.starts && l'.stops == l.stops
          else l'.cfg == t && l'.defaults == d && (l.running ==> l'.stops == l.stops + 1 && l'.running == ok))
  {
    ComparedFields(c, t);
  }

  /** The same of every name at once; besides, what is not in the new config is gone, and what is
      new runs exactly if it is enabled and its listener binds. */
  lemma ReloadDisturbsOnlyEdits(v: View, c: Config, binds: set<Name>, n: Name)
    requires Reconciled(v) && Unique(c.tubers)
    ensures var v' := Reloaded(v, c, binds);
      && (n in v'.tubers <==> n in Names(c.tubers))
      && (n in v'.tubers && n in v.tubers ==>
            var (l, l') := (v.tubers[n], v'.tubers[n]);
            && (l'.running ==> l.running)
            && (if SameConnection(v.configs[n], v'.configs[n]) && SameDefaults(v.defaults, c.defaults)
                then l'.running == l.running && l'.starts == l.starts && l'.stops == l.stops
                else l.running ==> l'.stops == l.stops + 1 && l'.running == (n in binds)))
      && (n in v'.tubers && n !in v.tubers ==>
            v'.tubers[n].running == (v'.configs[n].enabled && n in binds) && v'.tubers[n].stops == 0)
  {
    if n in Names(c.tubers) && n in v.tubers {
      NextDisturbsOnlyEdits(v.tubers[n], v.configs[n], ByName(c.tubers)[n], v.defaults, c.defaults, n in binds);
    }
  }

  /** Enable, Disable and Restart act on one tuber alone and leave its config as it is: enabling one
      that runs does nothing, disabling stops it if it runs, and restarting is the one then the
      other. */
  lemma ControlsActOnOne(v: View, n: Name, m: Name, act: Act, ok: bool)
    requires m in v.tubers
    ensures var v' := Apply(v, Control(n, act, ok));
      && v' == v.(tubers := v'.tubers) && v'.tubers.Keys == v.tubers.Keys
      && (m != n ==> v'.tubers[m] == v.tubers[m])
      && (m == n ==>
            var (l, l') := (v.tubers[m], v'.tubers[m]);
            && l'.cfg == l.cfg && l'.defaults == l.defaults
            && l'.running == (match act
                              case Enable => l.running || ok
                              case Disable => false
                              case Restart => ok)
            && l'.stops == l.stops + (if l.running && act != Enable then 1 else 0)
            && l'.starts - l'.stops - (if l'.running then 1 else 0)
              == l.starts - l.stops - (if l.running then 1 else 0))
  {
    if n in v.tubers { assert v.tubers[n := Acted(v.tubers[n], act, ok)].Keys == v.tubers.Keys; }
  }

  ghost predicate SameAs(v: View, c: Config) {
    && Names(c.tubers) == v.configs.Keys && SameDefaults(v.defaults, c.defaults)
    && forall n | n in v.configs :: SameTuber(v.configs[n], ByName(c.tubers)[n])
  }

  /** Reloading a config equal to the current one (enabled flags and derived fields aside) changes
      no tuber. */
  lemma EqualReloadChangesNothing(v: View, c: Config, binds: set<Name>)
    requires v.tubers.Keys == v.configs.Keys && SameAs(v, c)
    ensures Reloaded(v, c, binds).tubers == v.tubers
  {
    var latest := ByName(c.tubers);
    forall n | n in latest
      ensures Next(Paired(v.tubers, v.configs, n), latest[n], v.defaults, c.defaults, n in binds) == v.tubers[n]
    {
      NextSame(v.tubers[n], v.configs[n], latest[n], v.defaults, c.defaults, n in binds);
    }
  }

  lemma NextSame(l: Live, c: Tuber, t: Tuber, oldDefaults: Defaults, d: Defaults, ok: bool)
    requires SameTuber(c, t) && SameDefaults(oldDefaults, d)
    ensures Next(Some((l, c)), t, oldDefaults, d, ok) == l
  {
    ComparedFields(c, t);
  }

  /** A reload loses no tuber: each is in the map afterwards or was stopped and dropped, once if it
      was running. */
  lemma ReloadLosesNone(v: View, c: Config, binds: set<Name>, n: Name)
    requires v.tubers.Keys == v.configs.Keys && n in v.tubers
    ensures var gone := Dropped(v.tubers, ByName(c.tubers));
      && AllStopped(gone) && (n in Reloaded(v, c, binds).tubers <==> n !in gone)
      && (n in gone ==> gone[n].stops == v.tubers[n].stops + if v.tubers[n].running then 1 else 0)
  {
  }

  /** What ReloadAll keeps: agreement, and that all that left the map was stopped. */
  ghost predicate InOrder(e: EngineObject)
    reads e
  {
    Reconciled(e.Abs()) && forall m <- e.retired :: AllStopped(m)
  }

  method ReloadInOrder(e: EngineObject, c: Config, binds: set<Name>)
    requires InOrder(e) && Unique(c.tubers)
    modifies e
    ensures InOrder(e) && e.cfg == c && |e.retired| == |old(e.retired)| + 1
  {
    ghost var v := e.Abs();
    ghost var gone := Dropped(e.tubers, ByName(c.tubers));
    assert AllStopped(gone);
    assert Reconciled(Reloaded(v, c, binds)) by { ReloadReconciles(v, c, binds); }
    assert e.configs.Keys == e.tubers.Keys;
    e.Reload(c, binds);
    assert e.Abs() == Reloaded(v, c, binds);
  }

  /** The engine object itself, reloaded any number of times with any ports free each time, stays
      reconciled, and whatever left its map has been stopped. */
  method ReloadAll(c: Config, cs: seq<Config>, binds: seq<set<Name>>) returns (e: EngineObject)
    requires Unique(c.tubers) && (forall i | 0 <= i < |cs| :: Unique(cs[i].tubers)) && |binds| == |cs|
    ensures fresh(e) && InOrder(e) && e.cfg == (if cs == [] then c else cs[|cs| - 1]) && |e.retired| == |cs|
  {
    e := new EngineObject(c);
    BuiltIsReconciled(c);
    var i := 0;
    while i < |cs|
      invariant 0 <= i <= |cs| && fresh(e) && InOrder(e)
      invariant e.cfg == (if i == 0 then c else cs[i - 1]) && |e.retired| == i
    {
      ReloadInOrder(e, cs[i], binds[i]);
      i := i + 1;
    }
  }
}
