/** In-memory edits of the configuration, and their agreement with the edits of the file
    (internal/config/patch.go; prepareWith and Validate of config.go).

    YAML encoding and decoding of single tubers and of `defaults:`, the user's ssh_config and the
    checks of Validate other than those on names are what `Env` answers. */
module ConfigPatch {

  import opened Text
  import opened Wrappers
  import opened ConfigTree
  import J = JumpChain

  /** What a tuber's entry holds: the fields that preparation reads, and the others as one text. */
  datatype Saved = Saved(name: string, typ: string, ssh: string, jump: string, identity: string, rest: string)

  datatype Tuber = Tuber(saved: Saved, derived: J.Derived)

  datatype Conf = Conf(defaults: string, tubers: seq<Tuber>)

  datatype Env = Env(
    encode: Saved -> Node,
    decode: Node -> Option<Saved>,
    defaults: Option<Node> -> Option<string>,
    user: User,
    prepare: Tuber -> Option<Tuber>,
    accepts: (string, seq<(Saved, J.Hop)>) -> bool)

  /** What preparation reads besides the config: the user's ssh_config, name and home. */
  datatype User = User(ssh: J.Config, me: string, expand: (string, string, string) -> string)

  function Typed(s: Saved): Saved { if TrimSpace(s.typ) == "" then s.(typ := "local") else s }

  /** One turn of prepareWith: the type's default, and what is derived from `ssh:` and `jump:`. */
  function PrepareTuber(u: User, t: Tuber): Option<Tuber> {
    match J.Prepared(t.saved.ssh, t.saved.jump, t.saved.identity, t.derived, u.ssh, u.me, u.expand)
    case None => None
    case Some(d) => Some(Tuber(Typed(t.saved), d))
  }

  predicate PlainText(n: Node) { n.kind.ScalarNode? && n.tag != "!!binary" }

  /** The node spells key and value of its name itself, neither through an alias nor in base64. */
  predicate PlainName(n: Node) {
    var i := KeyIndex(n.content, "name", 0);
    n.kind.MappingNode? && i >= 0 && PlainText(n.content[i]) && PlainText(n.content[i + 1])
  }

  /** Preparing is prepareWith's turn; decoding inverts encoding; and a name written as plain text is
      decoded to that text, or to nothing when it is YAML's null. */
  ghost predicate Lawful(env: Env) {
    && (forall t {:trigger PrepareTuber(env.user, t)} :: env.prepare(t) == PrepareTuber(env.user, t))
    && (forall s :: env.decode(env.encode(s)) == Some(s))
    && (forall n :: env.decode(n).Some? && TuberName(n) != "" && PlainName(n) ==>
          env.decode(n).value.name == TuberName(n) || env.decode(n).value.name == "")
  }

  // ----- Preparing and validating -----

  function Afresh(s: Saved): Tuber { Tuber(s, J.NOTHING) }

  predicate AllPrepare(env: Env, ts: seq<Tuber>) { forall i | 0 <= i < |ts| :: env.prepare(ts[i]).Some? }

  function PrepareAll(env: Env, ts: seq<Tuber>): (r: Option<seq<Tuber>>)
    ensures r.Some? ==> |r.value| == |ts| && forall i | 0 <= i < |ts| :: env.prepare(ts[i]) == Some(r.value[i])
  {
    if AllPrepare(env, ts) then
      Some(seq(|ts|, i requires 0 <= i < |ts| && env.prepare(ts[i]).Some? => env.prepare(ts[i]).value))
    else None
  }

  predicate NamesOk(ts: seq<Tuber>) {
    && (forall i | 0 <= i < |ts| :: ts[i].saved.name != "")
    && (forall i, j | 0 <= i < j < |ts| :: ts[i].saved.name != ts[j].saved.name)
  }

  /** What Validate looks at: the saved fields and the resolved target. */
  function Seen(ts: seq<Tuber>): seq<(Saved, J.Hop)> {
    seq(|ts|, i requires 0 <= i < |ts| => (ts[i].saved, ts[i].derived.target))
  }

  predicate Valid(env: Env, c: Conf) { NamesOk(c.tubers) && env.accepts(c.defaults, Seen(c.tubers)) }

  function Checked(env: Env, c: Conf): Option<Conf> {
    match PrepareAll(env, c.tubers)
    case None => None
    case Some(ts) => if Valid(env, c.(tubers := ts)) then Some(c.(tubers := ts)) else None
  }

  function DecodeAll(env: Env, nodes: seq<Node>): Option<seq<Tuber>> {
    if forall i | 0 <= i < |nodes| :: env.decode(nodes[i]).Some? then
      Some(seq(|nodes|,
               i requires 0 <= i < |nodes| && env.decode(nodes[i]).Some? => Afresh(env.decode(nodes[i]).value)))
    else None
  }

  /** Loading a file: decode, prepare, validate. */
  function Load(env: Env, root: Node): Option<Conf> {
    var d := env.defaults(MappingValue(root, "defaults"));
    var ts := match Tubers(root)
      case Missing => Some([])
      case NotSequence => if MappingValue(root, "tubers").value.tag == "!!null" then Some([]) else None
      case At(_, nodes) => DecodeAll(env, nodes);
    if d.None? || ts.None? then None else Checked(env, Conf(d.value, ts.value))
  }

  function NameIndex(ts: seq<Tuber>, name: string): (r: int)
    ensures -1 <= r < |ts| && (r >= 0 ==> ts[r].saved.name == name)
    ensures forall j | 0 <= j < (if r < 0 then |ts| else r) :: ts[j].saved.name != name
  {
    if ts == [] then -1
    else if ts[0].saved.name == name then 0
    else
      var r := NameIndex(ts[1..], name);
      if r < 0 then -1 else r + 1
  }

  function WithAdded(env: Env, c: Conf, t: Tuber): Option<Conf> { Checked(env, c.(tubers := c.tubers + [t])) }

  function WithReplaced(env: Env, c: Conf, name: string, t: Tuber): Option<Conf> {
    var i := NameIndex(c.tubers, name);
    if i < 0 then None else Checked(env, c.(tubers := c.tubers[i := t]))
  }

  function WithRemoved(env: Env, c: Conf, name: string): Option<Conf> {
    var i := NameIndex(c.tubers, name);
    if i < 0 then None else Checked(env, c.(tubers := Without(c.tubers, i)))
  }

  /** A move out of bounds returns the copy as it is. */
  function WithMoved(env: Env, c: Conf, name: string, d: int): Option<Conf> {
    var i := NameIndex(c.tubers, name);
    if i < 0 then None
    else if !(0 <= i + d < |c.tubers|) then Some(c)
    else Checked(env, c.(tubers := Swap(c.tubers, i, d)))
  }

  // ----- The in-memory configuration as an object -----

  /** A config whose Tubers slice is `tubers[..len]`: its elements are written in place, so two configs
      over one array would see each other's edits. */
  class Config {
    var defaults: string
    var tubers: array<Tuber>
    var len: nat

    constructor (d: string, ts: array<Tuber>)
      ensures defaults == d && tubers == ts && len == ts.Length
    {
      defaults, tubers, len := d, ts, ts.Length;
    }

    ghost predicate Shaped()
      reads this
    {
      len <= tubers.Length
    }

    ghost function View(): Conf
      requires Shaped()
      reads this, tubers
    {
      Conf(defaults, tubers[..len])
    }

    /** A copy with an array of its own. */
    method Clone() returns (out: Config)
      requires Shaped()
      ensures fresh(out) && fresh(out.tubers) && out.Shaped() && out.View() == View()
    {
      var copy := CopyTubers(len);
      out := new Config(defaults, copy);
      assert copy[..len] == tubers[..len];
    }

    /** The slice's elements at the front of a new array of n elements. */
    method CopyTubers(n: nat) returns (copy: array<Tuber>)
      requires Shaped() && len <= n
      ensures fresh(copy) && copy.Length == n && copy[..len] == tubers[..len]
    {
      copy := new Tuber[n];
      var i := 0;
      while i < len
        invariant 0 <= i <= len && copy[..i] == tubers[..i]
      {
        copy[i] := tubers[i];
        i := i + 1;
      }
    }

    /** append of one tuber to a slice without spare capacity: a new array. */
    method Append(t: Tuber)
      requires Shaped()
      modifies this
      ensures Shaped() && fresh(tubers) && View() == old(View()).(tubers := old(View()).tubers + [t])
    {
      var longer := CopyTubers(len + 1);
      longer[len] := t;
      tubers, len := longer, len + 1;
      assert tubers[..len] == old(tubers[..len]) + [t];
    }

    /** append(s[:idx], s[idx+1:]...): the tail slides down in place. */
    method RemoveAt(idx: nat)
      requires Shaped() && idx < len
      modifies this`len, tubers
      ensures Shaped()
      ensures View() == old(View()).(tubers := Without(old(View()).tubers, idx))
    {
      var i := idx;
      while i < len - 1
        invariant idx <= i < len && len == old(len)
        invariant forall k | 0 <= k < tubers.Length :: tubers[k] == old(tubers[if idx <= k < i then k + 1 else k])
      {
        tubers[i] := tubers[i + 1];
        i := i + 1;
      }
      len := len - 1;
      assert tubers[..len] == old(tubers[..len])[..idx] + old(tubers[..len])[idx + 1..];
    }

    /** prepareWith: every tuber in place, up to the first that does not resolve. */
    method PrepareTubers(env: Env) returns (ok: bool)
      requires Shaped()
      modifies tubers
      ensures ok <==> AllPrepare(env, old(View()).tubers)
      ensures ok ==> Some(View().tubers) == PrepareAll(env, old(View()).tubers)
    {
      ghost var was := View().tubers;
      var i := 0;
      while i < len
        invariant 0 <= i <= len
        invariant forall k | 0 <= k < i :: env.prepare(was[k]) == Some(tubers[k])
        invariant forall k | i <= k < len :: tubers[k] == was[k]
      {
        var t := env.prepare(tubers[i]);
        if t.None? {
          return false;
        }
        tubers[i] := t.value;
        i := i + 1;
      }
      assert tubers[..len] == PrepareAll(env, was).value;
      return true;
    }

    method Finish(env: Env) returns (ok: bool)
      requires Shaped()
      modifies tubers
      ensures ok <==> Checked(env, old(View())).Some?
      ensures ok ==> Some(View()) == Checked(env, old(View()))
    {
      ok := PrepareTubers(env);
      if ok {
        ok := Valid(env, Conf(defaults, tubers[..len]));
      }
    }

    method IndexOfName(name: string) returns (idx: int)
      requires Shaped()
      ensures idx == NameIndex(View().tubers, name)
    {
      var i := 0;
      while i < len
        invariant 0 <= i <= len
        invariant forall j | 0 <= j < i :: tubers[j].saved.name != name
      {
        if tubers[i].saved.name == name {
          return i;
        }
        i := i + 1;
      }
      return -1;
    }

    // The With methods name nothing in a modifies clause: they write only arrays that Clone and Append
    // allocated, so the receiver and every other config read as before.

    method WithTuberAdded(env: Env, t: Tuber) returns (r: Config?)
      requires Shaped()
      ensures r == null <==> WithAdded(env, View(), t).None?
      ensures r != null ==> fresh(r) && fresh(r.tubers) && r.Shaped() && Some(r.View()) == WithAdded(env, View(), t)
    {
      var out := Clone();
      out.Append(t);
      var ok := out.Finish(env);
      r := if ok then out else null;
    }

    method WithTuberReplaced(env: Env, name: string, t: Tuber) returns (r: Config?)
      requires Shaped()
      ensures r == null <==> WithReplaced(env, View(), name, t).None?
      ensures r != null ==>
        fresh(r) && fresh(r.tubers) && r.Shaped() && Some(r.View()) == WithReplaced(env, View(), name, t)
    {
      var out := Clone();
      var idx := out.IndexOfName(name);
      if idx < 0 {
        return null;
      }
      out.tubers[idx] := t;
      assert out.tubers[..out.len] == tubers[..len][idx := t];
      var ok := out.Finish(env);
      r := if ok then out else null;
    }

    method WithTuberRemoved(env: Env, name: string) returns (r: Config?)
      requires Shaped()
      ensures r == null <==> WithRemoved(env, View(), name).None?
      ensures r != null ==>
        fresh(r) && fresh(r.tubers) && r.Shaped() && Some(r.View()) == WithRemoved(env, View(), name)
    {
      var out := Clone();
      var idx := out.IndexOfName(name);
      if idx < 0 {
        return null;
      }
      out.RemoveAt(idx);
      var ok := out.Finish(env);
      r := if ok then out else null;
    }

    method WithTuberMoved(env: Env, name: string, delta: int) returns (r: Config?)
      requires Shaped()
      ensures r == null <==> WithMoved(env, View(), name, delta).None?
      ensures r != null ==>
        fresh(r) && fresh(r.tubers) && r.Shaped() && Some(r.View()) == WithMoved(env, View(), name, delta)
    {
      var out := Clone();
      var idx := out.IndexOfName(name);
      if idx < 0 {
        return null;
      }
      var target := idx + delta;
      if target < 0 || target >= out.len {
        return out;
      }
      out.tubers[idx], out.tubers[target] := out.tubers[target], out.tubers[idx];
      assert out.tubers[..out.len] == Swap(tubers[..len], idx, delta);
      var ok := out.Finish(env);
      r := if ok then out else null;
    }
  }

  // ----- What preparing keeps -----

  lemma TypedTwice(s: Saved)
    ensures Typed(Typed(s)) == Typed(s)
  {
    J.TrimNothing("local");
  }

  lemma TuberSettles(u: User, t: Tuber)
    requires TrimSpace(t.saved.ssh) != "" && PrepareTuber(u, t).Some?
    ensures PrepareTuber(u, PrepareTuber(u, t).value) == PrepareTuber(u, t)
  {
    TypedTwice(t.saved);
    J.PreparingSettles(t.saved.ssh, t.saved.jump, t.saved.identity, t.derived, u.ssh, u.me, u.expand);
  }

  lemma PrepareSettles(env: Env, t: Tuber)
    requires Lawful(env) && TrimSpace(t.saved.ssh) != "" && env.prepare(t).Some?
    ensures env.prepare(env.prepare(t).value) == env.prepare(t)
  {
    TuberSettles(env.user, t);
    assert env.prepare(t) == PrepareTuber(env.user, t);
    var v := env.prepare(t).value;
    assert env.prepare(v) == PrepareTuber(env.user, v);
  }

  /** Preparing keeps the saved fields but for a blank type. */
  lemma PrepareKeeps(env: Env, t: Tuber)
    requires Lawful(env) && env.prepare(t).Some?
    ensures env.prepare(t).value.saved == Typed(t.saved)
  {
    assert env.prepare(t) == PrepareTuber(env.user, t);
  }

  /** Something derived for the tuber before that preparing would neither clear nor derive anew. */
  predicate Stale(env: Env, t: Tuber) {
    var v := J.Lookup(env.user.ssh, J.Written(t.saved.ssh, t.derived, env.user.me).hop.host);
    || (t.derived.sshIdentity != "" && !(TrimSpace(t.saved.identity) == "" && v.identity != ""))
    || (t.derived.jumps != [] && TrimSpace(t.saved.jump) == "" && v.proxyJump == "")
  }

  /** A tuber with a target to resolve, or with nothing derived yet. */
  predicate Resolvable(t: Tuber) { TrimSpace(t.saved.ssh) != "" || t.derived == J.NOTHING }

  /** Preparing from nothing gives the same target, and all the same unless something is stale. */
  lemma PreparedAfresh(env: Env, t: Tuber)
    requires Lawful(env) && Resolvable(t)
    ensures var a, b := env.prepare(Afresh(t.saved)), env.prepare(t);
      && (a.None? <==> b.None?)
      && (a.Some? ==> a.value.saved == b.value.saved && a.value.derived.target == b.value.derived.target)
      && (a == b <==> a.None? || !Stale(env, t))
  {
    assert env.prepare(t) == PrepareTuber(env.user, t);
    assert env.prepare(Afresh(t.saved)) == PrepareTuber(env.user, Afresh(t.saved));
    if TrimSpace(t.saved.ssh) != "" {
      var (s, d, u) := (t.saved, t.derived, env.user);
      J.PreparingKeepsStaleValues(s.ssh, s.jump, s.identity, d, u.ssh, u.me, u.expand);
      J.PreparingFindsTarget(s.ssh, s.jump, s.identity, d, u.ssh, u.me, u.expand);
    }
  }

  // ----- Edits of the file agree with edits in memory -----

  /** Node and tuber prepare to the same thing, or to the same but for stale values. */
  ghost predicate Match(env: Env, n: Node, t: Tuber) {
    env.decode(n).Some? && env.prepare(Afresh(env.decode(n).value)) == env.prepare(t)
  }

  ghost predicate Alike(env: Env, n: Node, t: Tuber) {
    && env.decode(n).Some?
    && var a, b := env.prepare(Afresh(env.decode(n).value)), env.prepare(t);
    && (a.None? <==> b.None?)
    && (a.Some? ==> a.value.saved == b.value.saved && a.value.derived.target == b.value.derived.target)
  }

  ghost predicate MatchBut(env: Env, nodes: seq<Node>, ts: seq<Tuber>, i: int) {
    && |nodes| == |ts|
    && forall j | 0 <= j < |ts| :: if j == i then Alike(env, nodes[j], ts[j]) else Match(env, nodes[j], ts[j])
  }

  lemma AllDecode(env: Env, nodes: seq<Node>, ts: seq<Tuber>, i: int)
    requires MatchBut(env, nodes, ts, i)
    ensures DecodeAll(env, nodes).Some?
    ensures AllPrepare(env, DecodeAll(env, nodes).value) <==> AllPrepare(env, ts)
  {
    forall j | 0 <= j < |nodes| ensures env.decode(nodes[j]).Some? {
      assert if j == i then Alike(env, nodes[j], ts[j]) else Match(env, nodes[j], ts[j]);
    }
    var ds := DecodeAll(env, nodes).value;
    forall j | 0 <= j < |ts| ensures env.prepare(ds[j]).None? <==> env.prepare(ts[j]).None? {
      assert if j == i then Alike(env, nodes[j], ts[j]) else Match(env, nodes[j], ts[j]);
    }
    if AllPrepare(env, ds) {
      forall j | 0 <= j < |ts| ensures env.prepare(ts[j]).Some? {
        assert env.prepare(ds[j]).Some?;
      }
    }
    if AllPrepare(env, ts) {
      forall j | 0 <= j < |ts| ensures env.prepare(ds[j]).Some? {
        assert env.prepare(ts[j]).Some?;
      }
    }
  }

  /** What the file's tubers prepare to, seen by validation as the tubers in memory. */
  lemma SeenAlike(env: Env, nodes: seq<Node>, ts: seq<Tuber>, i: int)
    requires MatchBut(env, nodes, ts, i) && AllPrepare(env, ts)
    ensures DecodeAll(env, nodes).Some? && AllPrepare(env, DecodeAll(env, nodes).value)
    ensures var a := PrepareAll(env, DecodeAll(env, nodes).value).value;
      var b := PrepareAll(env, ts).value;
      && Seen(a) == Seen(b) && (NamesOk(a) <==> NamesOk(b))
      && (forall j | 0 <= j < |ts| && j != i :: a[j] == b[j])
  {
    AllDecode(env, nodes, ts, i);
    var ds := DecodeAll(env, nodes).value;
    var a, b := PrepareAll(env, ds).value, PrepareAll(env, ts).value;
    forall j | 0 <= j < |ts|
      ensures a[j].saved == b[j].saved && a[j].derived.target == b[j].derived.target && (j != i ==> a[j] == b[j])
    {
      assert if j == i then Alike(env, nodes[j], ts[j]) else Match(env, nodes[j], ts[j]);
      assert env.prepare(ds[j]) == Some(a[j]) && env.prepare(ts[j]) == Some(b[j]);
    }
  }

  /** A file whose nodes match some tubers, one of them perhaps but for stale values, loads as those
      tubers checked exactly if they fail the check or that one matches too. */
  lemma LoadsExactly(env: Env, root: Node, c: Conf, ts: seq<Tuber>, i: int)
    requires env.defaults(MappingValue(root, "defaults")) == Some(c.defaults)
    requires Tubers(root).At? && MatchBut(env, Tubers(root).nodes, ts, i)
    ensures Load(env, root).None? <==> Checked(env, c.(tubers := ts)).None?
    ensures Load(env, root) == Checked(env, c.(tubers := ts)) <==>
      || Checked(env, c.(tubers := ts)).None?
      || !(0 <= i < |ts|)
      || Match(env, Tubers(root).nodes[i], ts[i])
  {
    var nodes := Tubers(root).nodes;
    AllDecode(env, nodes, ts, i);
    if AllPrepare(env, ts) {
      SeenAlike(env, nodes, ts, i);
      var ds := DecodeAll(env, nodes).value;
      var a, b := PrepareAll(env, ds).value, PrepareAll(env, ts).value;
      if 0 <= i < |ts| {
        assert env.prepare(ds[i]) == Some(a[i]) && env.prepare(ts[i]) == Some(b[i]);
        assert a[i] == b[i] ==> a == b;
      } else {
        assert a == b;
      }
    }
  }

  /** Every tuber of a loaded config can be resolved anew. */
  predicate Settled(c: Conf) { forall t | t in c.tubers :: TrimSpace(t.saved.ssh) != "" }

  /** What a loaded configuration and its file have in common. */
  lemma LoadedMatches(env: Env, root: Node, c: Conf)
    requires Lawful(env) && Load(env, root) == Some(c) && Settled(c)
    ensures env.defaults(MappingValue(root, "defaults")) == Some(c.defaults) && NamesOk(c.tubers)
    ensures Tubers(root).At? ==>
      var nodes := Tubers(root).nodes;
      && MatchBut(env, nodes, c.tubers, -1)
      && forall i | 0 <= i < |c.tubers| :: env.decode(nodes[i]).value.name == c.tubers[i].saved.name
    ensures !Tubers(root).At? ==> c.tubers == []
  {
    if Tubers(root).At? {
      var nodes := Tubers(root).nodes;
      var ds := DecodeAll(env, nodes).value;
      forall i | 0 <= i < |c.tubers|
        ensures Match(env, nodes[i], c.tubers[i]) && env.decode(nodes[i]).value.name == c.tubers[i].saved.name
      {
        assert env.prepare(ds[i]) == Some(c.tubers[i]);
        assert c.tubers[i] in c.tubers;
        PrepareKeeps(env, ds[i]);
        PrepareSettles(env, ds[i]);
      }
    }
  }

  /** The file's search by name finds the tuber that the search in memory finds. */
  lemma SameIndex(env: Env, root: Node, c: Conf, name: string)
    requires Lawful(env) && Load(env, root) == Some(c) && Settled(c) && Tubers(root).At? && name != ""
    requires var i := TuberIndex(Tubers(root).nodes, name); i >= 0 && PlainName(Tubers(root).nodes[i])
    ensures NameIndex(c.tubers, name) == TuberIndex(Tubers(root).nodes, name)
  {
    LoadedMatches(env, root, c);
    var nodes := Tubers(root).nodes;
    var i := TuberIndex(nodes, name);
    assert Match(env, nodes[i], c.tubers[i]);
    assert c.tubers[i].saved.name == name;
    var j := NameIndex(c.tubers, name);
    assert j >= 0 && c.tubers[j].saved.name == c.tubers[i].saved.name;
  }

  /** The file after an edit of its nodes. */
  lemma EditedLoads(env: Env, root: Node, c: Conf, nodes: seq<Node>, ts: seq<Tuber>, i: int)
    requires Lawful(env) && Load(env, root) == Some(c) && Settled(c) && Tubers(root).At? && MatchBut(env, nodes, ts, i)
    ensures Load(env, WithNodes(root, Tubers(root).k, nodes)).None? <==> Checked(env, c.(tubers := ts)).None?
    ensures Load(env, WithNodes(root, Tubers(root).k, nodes)) == Checked(env, c.(tubers := ts)) <==>
      || Checked(env, c.(tubers := ts)).None?
      || !(0 <= i < |ts|)
      || Match(env, nodes[i], ts[i])
  {
    LoadedMatches(env, root, c);
    OtherKeysStay(root, "tubers", nodes, "defaults");
    TubersOf(root, nodes);
    LoadsExactly(env, WithNodes(root, Tubers(root).k, nodes), c, ts, i);
  }

  lemma NewIsAlike(env: Env, t: Tuber)
    requires Lawful(env) && Resolvable(t)
    ensures var n := env.encode(t.saved);
      Alike(env, n, t) && (Match(env, n, t) <==> env.prepare(t).None? || !Stale(env, t))
  {
    PreparedAfresh(env, t);
  }

  lemma CheckedPrepares(env: Env, c: Conf, i: nat)
    requires i < |c.tubers| && env.prepare(c.tubers[i]).None?
    ensures Checked(env, c).None?
  {
  }

  /** Loading the file with a tuber added fails if adding it in memory does, and else gives the same
      exactly if the tuber holds nothing stale. */
  lemma AddAgrees(env: Env, root: Node, c: Conf, t: Tuber)
    requires Lawful(env) && Paired(root) && Load(env, root) == Some(c) && Settled(c) && Resolvable(t)
    requires AddNode(root, env.encode(t.saved)).Some?
    ensures Load(env, AddNode(root, env.encode(t.saved)).value).None? <==> WithAdded(env, c, t).None?
    ensures WithAdded(env, c, t).Some? ==>
      (Load(env, AddNode(root, env.encode(t.saved)).value) == WithAdded(env, c, t) <==> !Stale(env, t))
  {
    var n := env.encode(t.saved);
    NewIsAlike(env, t);
    LoadedMatches(env, root, c);
    var ts := c.tubers + [t];
    if env.prepare(t).None? { CheckedPrepares(env, c.(tubers := ts), |c.tubers|); }
    if Tubers(root).At? {
      AppendedMatches(env, Tubers(root).nodes, c.tubers, n, t);
      EditedLoads(env, root, c, Tubers(root).nodes + [n], ts, |c.tubers|);
    } else {
      FirstNodeAdded(root, n);
      assert ts == [t];
      LoadsExactly(env, AddNode(root, n).value, c, [t], 0);
    }
  }

  lemma AppendedMatches(env: Env, nodes: seq<Node>, ts: seq<Tuber>, n: Node, t: Tuber)
    requires MatchBut(env, nodes, ts, -1) && Alike(env, n, t)
    ensures MatchBut(env, nodes + [n], ts + [t], |ts|)
  {
  }

  /** The same for a replacement. */
  lemma ReplaceAgrees(env: Env, root: Node, c: Conf, name: string, t: Tuber)
    requires Lawful(env) && Load(env, root) == Some(c) && Settled(c) && Resolvable(t)
    requires name != "" && ReplaceNode(root, name, env.encode(t.saved)).Some?
    requires PlainName(Tubers(root).nodes[TuberIndex(Tubers(root).nodes, name)])
    ensures Load(env, ReplaceNode(root, name, env.encode(t.saved)).value).None? <==> WithReplaced(env, c, name, t).None?
    ensures WithReplaced(env, c, name, t).Some? ==>
      (Load(env, ReplaceNode(root, name, env.encode(t.saved)).value) == WithReplaced(env, c, name, t)
       <==> !Stale(env, t))
  {
    var n := env.encode(t.saved);
    NewIsAlike(env, t);
    LoadedMatches(env, root, c);
    SameIndex(env, root, c, name);
    var nodes := Tubers(root).nodes;
    var i := TuberIndex(nodes, name);
    var ts := c.tubers[i := t];
    if env.prepare(t).None? { CheckedPrepares(env, c.(tubers := ts), i); }
    EditedLoads(env, root, c, nodes[i := n], ts, i);
  }

  lemma RemovedMatches(env: Env, nodes: seq<Node>, ts: seq<Tuber>, i: nat)
    requires MatchBut(env, nodes, ts, -1) && i < |nodes|
    ensures MatchBut(env, Without(nodes, i), Without(ts, i), -1)
  {
    var ns, us := Without(nodes, i), Without(ts, i);
    forall j | 0 <= j < |us| ensures Match(env, ns[j], us[j]) {
      RemovedMatch(env, nodes, ts, i, j);
    }
  }

  lemma RemovedMatch(env: Env, nodes: seq<Node>, ts: seq<Tuber>, i: nat, j: nat)
    requires MatchBut(env, nodes, ts, -1) && i < |nodes| && j < |nodes| - 1
    ensures Match(env, Without(nodes, i)[j], Without(ts, i)[j])
  {
    var was := if j < i then j else j + 1;
    assert Match(env, nodes[was], ts[was]);
  }

  /** A removal agrees without further condition. */
  lemma DeleteAgrees(env: Env, root: Node, c: Conf, name: string)
    requires Lawful(env) && Load(env, root) == Some(c) && Settled(c) && name != "" && DeleteNode(root, name).Some?
    requires PlainName(Tubers(root).nodes[TuberIndex(Tubers(root).nodes, name)])
    ensures Load(env, DeleteNode(root, name).value) == WithRemoved(env, c, name)
  {
    LoadedMatches(env, root, c);
    SameIndex(env, root, c, name);
    var nodes := Tubers(root).nodes;
    var i := TuberIndex(nodes, name);
    RemovedMatches(env, nodes, c.tubers, i);
    EditedLoads(env, root, c, Without(nodes, i), Without(c.tubers, i), -1);
  }

  lemma SwappedMatches(env: Env, nodes: seq<Node>, ts: seq<Tuber>, i: nat, d: int)
    requires MatchBut(env, nodes, ts, -1) && i < |nodes|
    ensures MatchBut(env, Swap(nodes, i, d), Swap(ts, i, d), -1)
  {
  }

  /** Nor does a move need any. */
  lemma MoveAgrees(env: Env, root: Node, c: Conf, name: string, d: int)
    requires Lawful(env) && Load(env, root) == Some(c) && Settled(c) && name != "" && MoveNode(root, name, d).Some?
    requires PlainName(Tubers(root).nodes[TuberIndex(Tubers(root).nodes, name)])
    ensures Load(env, MoveNode(root, name, d).value) == WithMoved(env, c, name, d)
  {
    LoadedMatches(env, root, c);
    SameIndex(env, root, c, name);
    var nodes := Tubers(root).nodes;
    var i := TuberIndex(nodes, name);
    if 0 <= i + d < |nodes| {
      SwappedMatches(env, nodes, c.tubers, i, d);
      EditedLoads(env, root, c, Swap(nodes, i, d), Swap(c.tubers, i, d), -1);
    } else {
      SameNodes(root, Tubers(root).k);
    }
  }

  // ----- When the file refuses an edit -----

  /** Of a file that loads, the tree refuses a new tuber exactly if `tubers:` stands there with nothing
      under it, where the config in memory takes the tuber. */
  lemma AddIsRefusedIff(env: Env, root: Node, c: Conf, n: Node)
    requires Load(env, root) == Some(c)
    ensures AddNode(root, n).None? <==>
      var v := MappingValue(root, "tubers"); v.Some? && !v.value.kind.SequenceNode? && v.value.tag == "!!null"
  {
  }

  /** The other edits find a tuber in the file exactly if the config in memory has it and its node spells
      the name itself, not through an alias. */
  lemma FileFindsIff(env: Env, root: Node, c: Conf, name: string)
    requires Lawful(env) && Load(env, root) == Some(c) && Settled(c) && name != "" && Tubers(root).At?
    requires forall n <- Tubers(root).nodes :: TuberName(n) == name ==> PlainName(n)
    ensures |c.tubers| == |Tubers(root).nodes|
    ensures var nodes := Tubers(root).nodes;
      var i := NameIndex(c.tubers, name);
      TuberIndex(nodes, name) >= 0 <==> i >= 0 && TuberName(nodes[i]) == name
  {
    LoadedMatches(env, root, c);
    var nodes := Tubers(root).nodes;
    var k := TuberIndex(nodes, name);
    if k >= 0 {
      assert nodes[k] in nodes;
      SameIndex(env, root, c, name);
    }
  }

  // ----- Why the conditions are there -----

  function SampleEncode(s: Saved): Node {
    Node(MappingNode, "!!map", "",
         [ScalarOf("!!str", "name"), ScalarOf("!!str", s.name), ScalarOf("!!str", "type"), ScalarOf("!!str", s.typ),
          ScalarOf("!!str", "ssh"), ScalarOf("!!str", s.ssh), ScalarOf("!!str", "jump"), ScalarOf("!!str", s.jump),
          ScalarOf("!!str", "identity"), ScalarOf("!!str", s.identity),
          ScalarOf("!!str", "rest"), ScalarOf("!!str", s.rest)],
         "")
  }

  const ALIASED := Saved("x", "local", "h", "", "", "")

  /** Reads that form, and any alias as one tuber. */
  function SampleDecode(n: Node): Option<Saved> {
    if n.kind.AliasNode? then Some(ALIASED)
    else if n.kind.MappingNode? && |n.content| == 12
      && n.content[0].value == "name" && n.content[1].kind.ScalarNode? then
      Some(Saved(n.content[1].value, n.content[3].value, n.content[5].value, n.content[7].value, n.content[9].value,
                 n.content[11].value))
    else None
  }

  function SampleEnv(ssh: J.Config): Env {
    var u := User(ssh, "me", (i, user, h) => i);
    Env(SampleEncode, SampleDecode, _ => Some(""), u, t => PrepareTuber(u, t), (d, s) => true)
  }

  lemma SampleNames(n: Node)
    requires SampleDecode(n).Some? && n.kind.MappingNode?
    ensures SampleDecode(n).value.name == TuberName(n)
  {
    assert KeyIndex(n.content, "name", 0) == 0;
  }

  lemma SampleIsLawful(ssh: J.Config)
    ensures Lawful(SampleEnv(ssh))
  {
    forall n | SampleDecode(n).Some? && TuberName(n) != "" ensures SampleDecode(n).value.name == TuberName(n) {
      if n.kind.MappingNode? { SampleNames(n); }
    }
    forall s ensures SampleDecode(SampleEncode(s)) == Some(s) {}
  }

  function SampleRoot(n: Node): Node {
    Node(MappingNode, "!!map", "", [ScalarOf("!!str", "tubers"), Node(SequenceNode, "!!seq", "", [n], "")], "")
  }

  lemma SampleTubers(n: Node)
    ensures Tubers(SampleRoot(n)) == At(0, [n])
  {
    assert KeyIndex(SampleRoot(n).content, "tubers", 0) == 0;
  }

  /** An environment whose validation asks no more than names. */
  ghost predicate Lenient(env: Env) {
    (forall d :: env.defaults(d) == Some("")) && (forall d, s :: env.accepts(d, s))
  }

  lemma OneChecked(env: Env, t: Tuber, p: Tuber)
    requires Lenient(env) && env.prepare(t) == Some(p) && p.saved.name != ""
    ensures Checked(env, Conf("", [t])) == Some(Conf("", [p]))
  {
    assert PrepareAll(env, [t]).value == [p];
  }

  lemma OneLoads(env: Env, n: Node, s: Saved, p: Tuber)
    requires Lenient(env) && env.decode(n) == Some(s) && env.prepare(Afresh(s)) == Some(p) && p.saved.name != ""
    ensures Load(env, SampleRoot(n)) == Some(Conf("", [p]))
  {
    SampleTubers(n);
    assert DecodeAll(env, [n]).value == [Afresh(s)];
    OneChecked(env, Afresh(s), p);
  }

  lemma NoneLoads(env: Env, root: Node)
    requires Lenient(env) && Tubers(root).At? && Tubers(root).nodes == []
    ensures Load(env, root) == Some(Conf("", []))
  {
    assert DecodeAll(env, []).value == [];
    assert PrepareAll(env, []).value == [];
  }

  /** Without ssh_config and `jump:` preparing succeeds, and keeps name and `ssh:`. */
  lemma PlainPrepares(u: User, s: Saved)
    requires u.ssh.None? && TrimSpace(s.jump) == ""
    ensures var r := PrepareTuber(u, Afresh(s)); r.Some? && r.value.saved.name == s.name && r.value.saved.ssh == s.ssh
  {
  }

  lemma OneSettled(p: Tuber)
    requires p.saved.ssh == "h"
    ensures Settled(Conf("", [p]))
  {
    J.TrimNothing("h");
  }

  lemma NamelessIsDeleted(n: Node)
    requires TuberName(n) == ""
    ensures DeleteNode(SampleRoot(n), "") == Some(WithNodes(SampleRoot(n), 0, []))
  {
    SampleTubers(n);
    assert TuberIndex([n], "") == 0;
    assert Without([n], 0) == [];
  }

  lemma NamelessLost(env: Env, n: Node, p: Tuber)
    requires Lenient(env) && TuberName(n) == "" && p.saved.name != ""
    ensures var after := DeleteNode(SampleRoot(n), "");
      after.Some? && Load(env, after.value) != WithRemoved(env, Conf("", [p]), "")
  {
    NamelessIsDeleted(n);
    SampleTubers(n);
    TubersOf(SampleRoot(n), []);
    NoneLoads(env, WithNodes(SampleRoot(n), 0, []));
    assert NameIndex([p], "") == -1;
  }

  lemma PlainLoads(env: Env, n: Node, s: Saved) returns (p: Tuber)
    requires Lenient(env) && env.decode(n) == Some(s) && env.prepare(Afresh(s)) == PrepareTuber(env.user, Afresh(s))
    requires env.user.ssh.None? && TrimSpace(s.jump) == "" && s.name != ""
    ensures p.saved.name == s.name && p.saved.ssh == s.ssh && Load(env, SampleRoot(n)) == Some(Conf("", [p]))
  {
    PlainPrepares(env.user, s);
    p := PrepareTuber(env.user, Afresh(s)).value;
    OneLoads(env, n, s, p);
  }

  lemma AliasCase(env: Env, n: Node) returns (c: Conf)
    requires Lenient(env) && env.user.ssh.None? && TuberName(n) == ""
    requires env.decode(n) == Some(ALIASED) && env.prepare(Afresh(ALIASED)) == PrepareTuber(env.user, Afresh(ALIASED))
    ensures Load(env, SampleRoot(n)) == Some(c) && Settled(c) && DeleteNode(SampleRoot(n), "").Some?
    ensures Load(env, DeleteNode(SampleRoot(n), "").value) != WithRemoved(env, c, "")
  {
    var p := PlainLoads(env, n, ALIASED);
    c := Conf("", [p]);
    OneSettled(p);
    NamelessLost(env, n, p);
  }

  /** With an empty name the file's search hits an alias, and the file loses a tuber that the config
      in memory has under another name. */
  lemma EmptyNameHitsAnAlias(n: Node) returns (env: Env, c: Conf)
    requires n.kind.AliasNode?
    ensures Lawful(env) && Load(env, SampleRoot(n)) == Some(c) && Settled(c) && DeleteNode(SampleRoot(n), "").Some?
    ensures Load(env, DeleteNode(SampleRoot(n), "").value) != WithRemoved(env, c, "")
  {
    env := SampleEnv(None);
    c := AliasCase(env, n);
    SampleIsLawful(None);
  }

  lemma MovedByNothing(env: Env, n: Node, p: Tuber, q: Tuber)
    requires Lenient(env) && TuberName(n) == "y" && p.saved.name == q.saved.name == "y"
    requires Load(env, SampleRoot(n)) == Some(Conf("", [p])) && env.prepare(p) == Some(q) && p != q
    ensures MoveNode(SampleRoot(n), "y", 0) == Some(SampleRoot(n))
    ensures Load(env, SampleRoot(n)) != WithMoved(env, Conf("", [p]), "y", 0)
  {
    SampleTubers(n);
    SameNodes(SampleRoot(n), 0);
    assert TuberIndex([n], "y") == 0 && NameIndex([p], "y") == 0;
    assert Swap([n], 0, 0) == [n] && Swap([p], 0, 0) == [p];
    OneChecked(env, p, q);
  }

  /** With a blank `ssh:`, which a catch-all alias can fill, preparing resolves the resolved host again:
      here even a move by nothing changes the config in memory and not the file's. */
  lemma BlankSshIsResolvedTwice() returns (env: Env, root: Node, c: Conf)
    ensures Lawful(env) && Load(env, root) == Some(c) && MoveNode(root, "y", 0).Some?
    ensures Load(env, MoveNode(root, "y", 0).value) != WithMoved(env, c, "y", 0)
  {
    var ssh: J.Config := Some(h => J.Alias(if h == "a" then "b" else "a", "", "22", "", ""));
    env := SampleEnv(ssh);
    SampleIsLawful(ssh);
    var n := SampleEncode(BLANK);
    root := SampleRoot(n);
    var p, q := BlankPrepares(ssh, env.user);
    assert env.decode(n) == Some(BLANK) && env.prepare(Afresh(BLANK)) == Some(p) && env.prepare(p) == Some(q);
    OneLoads(env, n, BLANK, p);
    SampleNames(n);
    c := Conf("", [p]);
    MovedByNothing(env, n, p, q);
  }

  const BLANK := Saved("y", "local", "", "", "", "")

  lemma BlankPrepares(ssh: J.Config, u: User) returns (p: Tuber, q: Tuber)
    requires u.ssh == ssh && ssh.Some?
    requires ssh.value("") == J.Alias("a", "", "22", "", "") && ssh.value("a") == J.Alias("b", "", "22", "", "")
    ensures PrepareTuber(u, Afresh(BLANK)) == Some(p) && PrepareTuber(u, p) == Some(q) && p != q
    ensures p.saved.name == q.saved.name == "y"
  {
    J.BlankTargetMoves(ssh, u.me, u.expand);
    J.TrimNothing("local");
    p := PrepareTuber(u, Afresh(BLANK)).value;
    q := PrepareTuber(u, p).value;
  }
}
