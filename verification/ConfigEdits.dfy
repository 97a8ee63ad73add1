/** What the in-memory edits of a loaded configuration come to, and when they are refused
    (internal/config/patch.go; prepareWith and Validate of config.go). */
module ConfigEdits {

  import opened Text
  import opened Wrappers
  import opened ConfigTree
  import opened ConfigPatch

  /** No tuber is nameless, and no two have one name. */
  predicate Named(ts: seq<Tuber>) {
    && (forall i | 0 <= i < |ts| :: ts[i].saved.name != "")
    && forall i, j | 0 <= i < |ts| && 0 <= j < |ts| && ts[i].saved.name == ts[j].saved.name :: i == j
  }

  /** Preparing again changes no tuber. */
  ghost predicate Fixed(env: Env, ts: seq<Tuber>) { forall i | 0 <= i < |ts| :: env.prepare(ts[i]) == Some(ts[i]) }

  predicate Accepted(env: Env, d: string, ts: seq<Tuber>) {
    env.accepts(d, seq(|ts|, i requires 0 <= i < |ts| => (ts[i].saved, ts[i].derived.target)))
  }

  lemma NamedIsOk(ts: seq<Tuber>)
    ensures NamesOk(ts) <==> Named(ts)
  {
    if NamesOk(ts) {
      forall i, j | 0 <= i < |ts| && 0 <= j < |ts| && ts[i].saved.name == ts[j].saved.name ensures i == j {
        assert !(i < j) && !(j < i);
      }
    }
  }

  /** Preparing fills in a blank type and leaves every other saved field as it is. */
  lemma PrepareFillsType(env: Env, t: Tuber)
    requires Lawful(env) && env.prepare(t).Some?
    ensures var p := env.prepare(t).value;
      p.saved == t.saved.(typ := if TrimSpace(t.saved.typ) == "" then "local" else t.saved.typ)
  {
    PrepareKeeps(env, t);
  }

  /** A config that loads has tubers of distinct names and with a type, and is accepted as it stands; if
      each has a target of its own, loading has settled it. */
  lemma LoadedIsFixed(env: Env, root: Node, c: Conf)
    requires Lawful(env) && Load(env, root) == Some(c)
    ensures Named(c.tubers) && Accepted(env, c.defaults, c.tubers)
    ensures forall i | 0 <= i < |c.tubers| :: c.tubers[i].saved.typ != ""
    ensures Settled(c) ==> Fixed(env, c.tubers)
  {
    NamedIsOk(c.tubers);
    var ts := match Tubers(root)
      case At(_, nodes) => DecodeAll(env, nodes).value
      case _ => [];
    assert PrepareAll(env, ts) == Some(c.tubers);
    forall i | 0 <= i < |c.tubers|
      ensures c.tubers[i].saved.typ != "" && (Settled(c) ==> env.prepare(c.tubers[i]) == Some(c.tubers[i]))
    {
      assert env.prepare(ts[i]) == Some(c.tubers[i]) && c.tubers[i] in c.tubers;
      PrepareFillsType(env, ts[i]);
      if Settled(c) { PrepareSettles(env, ts[i]); }
    }
  }

  /** What checking makes of tubers that prepare to ps. */
  lemma CheckedIs(env: Env, c: Conf, ps: seq<Tuber>)
    requires |ps| == |c.tubers| && forall i | 0 <= i < |ps| :: env.prepare(c.tubers[i]) == Some(ps[i])
    ensures Checked(env, c)
      == if Named(ps) && Accepted(env, c.defaults, ps) then Some(c.(tubers := ps)) else None
  {
    assert PrepareAll(env, c.tubers).value == ps;
    NamedIsOk(ps);
  }

  lemma CheckedFails(env: Env, c: Conf, i: nat)
    requires i < |c.tubers| && env.prepare(c.tubers[i]).None?
    ensures Checked(env, c).None?
  {
  }

  /** Some other tuber has that name. */
  predicate Clashes(ts: seq<Tuber>, name: string, but: int) {
    exists i | 0 <= i < |ts| && i != but :: ts[i].saved.name == name
  }

  lemma NamedWith(ts: seq<Tuber>, p: Tuber)
    requires Named(ts)
    ensures Named(ts + [p]) <==> p.saved.name != "" && !Clashes(ts, p.saved.name, -1)
  {
    var us := ts + [p];
    assert us[|ts|] == p && forall i | 0 <= i < |ts| :: us[i] == ts[i];
    if i :| 0 <= i < |ts| && ts[i].saved.name == p.saved.name {
      assert us[i].saved.name == us[|ts|].saved.name;
    }
  }

  lemma NamedWithin(ts: seq<Tuber>, k: nat, p: Tuber)
    requires Named(ts) && k < |ts|
    ensures Named(ts[k := p]) <==> p.saved.name != "" && !Clashes(ts, p.saved.name, k)
  {
    var us := ts[k := p];
    assert us[k] == p && forall i | 0 <= i < |ts| && i != k :: us[i] == ts[i];
    if i :| 0 <= i < |ts| && i != k && ts[i].saved.name == p.saved.name {
      assert us[i].saved.name == us[k].saved.name;
    }
  }

  /** Adding puts the prepared tuber last and is refused exactly if it does not resolve, has no name or
      one that is taken, or the result is not accepted. */
  lemma AddedIs(env: Env, c: Conf, t: Tuber)
    requires Lawful(env) && Fixed(env, c.tubers) && Named(c.tubers)
    ensures WithAdded(env, c, t) ==
      match env.prepare(t)
      case None => None
      case Some(p) =>
        if t.saved.name == "" || Clashes(c.tubers, t.saved.name, -1) || !Accepted(env, c.defaults, c.tubers + [p])
        then None else Some(c.(tubers := c.tubers + [p]))
  {
    var ts := c.tubers + [t];
    if env.prepare(t).None? {
      CheckedFails(env, c.(tubers := ts), |c.tubers|);
    } else {
      var p := env.prepare(t).value;
      PrepareFillsType(env, t);
      NamedWith(c.tubers, p);
      CheckedIs(env, c.(tubers := ts), c.tubers + [p]);
    }
  }

  /** A name that no tuber has is refused by the other edits. */
  lemma UnknownNameIsRefused(env: Env, c: Conf, name: string, t: Tuber, d: int)
    requires !Clashes(c.tubers, name, -1)
    ensures WithReplaced(env, c, name, t).None? && WithRemoved(env, c, name).None? && WithMoved(env, c, name, d).None?
  {
  }

  lemma FoundAt(ts: seq<Tuber>, k: nat)
    requires Named(ts) && k < |ts|
    ensures NameIndex(ts, ts[k].saved.name) == k
  {
    var i := NameIndex(ts, ts[k].saved.name);
    assert i >= 0 ==> ts[i].saved.name == ts[k].saved.name;
  }

  /** Replacing puts the prepared tuber where the one of that name was, and is refused exactly if it does
      not resolve, has no name or another's, or the result is not accepted. */
  lemma ReplacedIs(env: Env, c: Conf, k: nat, t: Tuber)
    requires Lawful(env) && Fixed(env, c.tubers) && Named(c.tubers) && k < |c.tubers|
    ensures WithReplaced(env, c, c.tubers[k].saved.name, t) ==
      match env.prepare(t)
      case None => None
      case Some(p) =>
        if t.saved.name == "" || Clashes(c.tubers, t.saved.name, k) || !Accepted(env, c.defaults, c.tubers[k := p])
        then None else Some(c.(tubers := c.tubers[k := p]))
  {
    FoundAt(c.tubers, k);
    var ts := c.tubers[k := t];
    if env.prepare(t).None? {
      CheckedFails(env, c.(tubers := ts), k);
    } else {
      var p := env.prepare(t).value;
      PrepareFillsType(env, t);
      NamedWithin(c.tubers, k, p);
      CheckedIs(env, c.(tubers := ts), c.tubers[k := p]);
    }
  }

  lemma WithoutStays(env: Env, ts: seq<Tuber>, k: nat)
    requires k < |ts| && Fixed(env, ts) && Named(ts)
    ensures Without(ts, k) == ts[..k] + ts[k + 1..] && Fixed(env, Without(ts, k)) && Named(Without(ts, k))
  {
    var us := Without(ts, k);
    forall i, j | 0 <= i < |us| && 0 <= j < |us| && us[i].saved.name == us[j].saved.name ensures i == j {
      assert us[i] == ts[if i < k then i else i + 1] && us[j] == ts[if j < k then j else j + 1];
    }
  }

  /** Removing takes out that tuber and keeps the others in order; it is refused exactly if the rest is
      not accepted. */
  lemma RemovedIs(env: Env, c: Conf, k: nat)
    requires Fixed(env, c.tubers) && Named(c.tubers) && k < |c.tubers|
    ensures var rest := c.tubers[..k] + c.tubers[k + 1..];
      WithRemoved(env, c, c.tubers[k].saved.name)
      == if Accepted(env, c.defaults, rest) then Some(c.(tubers := rest)) else None
  {
    FoundAt(c.tubers, k);
    WithoutStays(env, c.tubers, k);
    CheckedIs(env, c.(tubers := Without(c.tubers, k)), Without(c.tubers, k));
  }

  lemma SwapStays(env: Env, ts: seq<Tuber>, i: nat, j: nat)
    requires i < |ts| && j < |ts| && Fixed(env, ts) && Named(ts)
    ensures var us := ts[i := ts[j]][j := ts[i]]; Swap(ts, i, j - i) == us && Fixed(env, us) && Named(us)
  {
  }

  /** Moving swaps that tuber with the one d places on, and leaves the config as it is if there is no such
      place; it is refused exactly if the result is not accepted. */
  lemma MovedIs(env: Env, c: Conf, i: nat, d: int)
    requires Fixed(env, c.tubers) && Named(c.tubers) && i < |c.tubers|
    ensures WithMoved(env, c, c.tubers[i].saved.name, d) ==
      if !(0 <= i + d < |c.tubers|) then Some(c)
      else
        var us := c.tubers[i := c.tubers[i + d]][i + d := c.tubers[i]];
        if Accepted(env, c.defaults, us) then Some(c.(tubers := us)) else None
  {
    FoundAt(c.tubers, i);
    if 0 <= i + d < |c.tubers| {
      var us := c.tubers[i := c.tubers[i + d]][i + d := c.tubers[i]];
      SwapStays(env, c.tubers, i, i + d);
      CheckedIs(env, c.(tubers := us), us);
    }
  }
}
