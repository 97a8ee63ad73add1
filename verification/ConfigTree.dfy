/** The configuration file's YAML tree and its edits (internal/config/patch.go).

    A node is what the YAML library makes it: kind, tag, value, children and comment. */
module ConfigTree {

  import opened Wrappers

  // ----- The tree -----

  datatype Kind = SequenceNode | MappingNode | ScalarNode | AliasNode

  datatype Node = Node(kind: Kind, tag: string, value: string, content: seq<Node>, comment: string)

  function ScalarOf(tag: string, value: string): Node { Node(ScalarNode, tag, value, [], "") }

  /** The position of the first key of that name at or after i, or -1: keys stand before their values. */
  function KeyIndex(content: seq<Node>, key: string, i: nat): (r: int)
    ensures r == -1 || (i <= r && r + 1 < |content| && content[r].value == key && (r - i) % 2 == 0)
    ensures forall j | i <= j && j + 1 < (if r < 0 then |content| else r + 1) && (j - i) % 2 == 0 ::
      content[j].value != key
    decreases |content| - i
  {
    if i + 1 >= |content| then -1
    else if content[i].value == key then i
    else KeyIndex(content, key, i + 2)
  }

  function MappingValue(m: Node, key: string): Option<Node> {
    var i := KeyIndex(m.content, key, 0);
    if i < 0 then None else Some(m.content[i + 1])
  }

  function TuberName(n: Node): string {
    var v := if n.kind.MappingNode? then MappingValue(n, "name") else None;
    if v.None? || !v.value.kind.ScalarNode? then "" else v.value.value
  }

  /** A node has a name exactly if it is a mapping that spells it under its first `name:`, not through an
      alias. */
  lemma NamedByItsOwnText(n: Node, name: string)
    requires name != ""
    ensures TuberName(n) == name <==>
      && n.kind.MappingNode? && MappingValue(n, "name").Some?
      && MappingValue(n, "name").value.kind.ScalarNode? && MappingValue(n, "name").value.value == name
  {
  }

  /** The first node of that tuber name, or -1. */
  function TuberIndex(nodes: seq<Node>, name: string): (r: int)
    ensures -1 <= r < |nodes| && (r >= 0 ==> TuberName(nodes[r]) == name)
    ensures forall j | 0 <= j < (if r < 0 then |nodes| else r) :: TuberName(nodes[j]) != name
  {
    if nodes == [] then -1
    else if TuberName(nodes[0]) == name then 0
    else
      var r := TuberIndex(nodes[1..], name);
      if r < 0 then -1 else r + 1
  }

  method FindKey(m: Node, key: string) returns (r: int)
    ensures r == KeyIndex(m.content, key, 0)
  {
    var i := 0;
    while i + 1 < |m.content|
      invariant KeyIndex(m.content, key, 0) == KeyIndex(m.content, key, i)
      decreases |m.content| - i
    {
      if m.content[i].value == key {
        return i;
      }
      i := i + 2;
    }
    return -1;
  }

  method FindTuberIndex(nodes: seq<Node>, name: string) returns (r: int)
    ensures r == TuberIndex(nodes, name)
  {
    var i := 0;
    while i < |nodes|
      invariant 0 <= i <= |nodes|
      invariant forall j | 0 <= j < i :: TuberName(nodes[j]) != name
    {
      if TuberName(nodes[i]) == name {
        return i;
      }
      i := i + 1;
    }
    return -1;
  }

  // ----- Edits of the tubers sequence -----

  /** A root mapping with other nodes under `tubers:`; the key's position is k. */
  function WithNodes(root: Node, k: nat, nodes: seq<Node>): Node
    requires k + 1 < |root.content|
  {
    root.(content := root.content[k + 1 := root.content[k + 1].(content := nodes)])
  }

  datatype Found = Missing | NotSequence | At(k: nat, nodes: seq<Node>)

  function Tubers(root: Node): (r: Found)
    ensures r.At? ==>
      r.k + 1 < |root.content| && root.content[r.k + 1].kind.SequenceNode? && root.content[r.k + 1].content == r.nodes
  {
    var k := KeyIndex(root.content, "tubers", 0);
    if k < 0 then Missing
    else if !root.content[k + 1].kind.SequenceNode? then NotSequence
    else At(k, root.content[k + 1].content)
  }

  function AddNode(root: Node, n: Node): Option<Node> {
    match Tubers(root)
    case Missing =>
      Some(root.(content := root.content + [ScalarOf("!!str", "tubers"), Node(SequenceNode, "!!seq", "", [n], "")]))
    case NotSequence => None
    case At(k, nodes) => Some(WithNodes(root, k, nodes + [n]))
  }

  function ReplaceNode(root: Node, name: string, n: Node): Option<Node> {
    match Tubers(root)
    case At(k, nodes) =>
      var i := TuberIndex(nodes, name);
      if i < 0 then None else Some(WithNodes(root, k, nodes[i := n]))
    case _ => None
  }

  function Without<T>(s: seq<T>, i: nat): (r: seq<T>)
    requires i < |s|
    ensures |r| == |s| - 1 && forall j | 0 <= j < |r| :: r[j] == s[if j < i then j else j + 1]
  {
    s[..i] + s[i + 1..]
  }

  function DeleteNode(root: Node, name: string): Option<Node> {
    match Tubers(root)
    case At(k, nodes) =>
      var i := TuberIndex(nodes, name);
      if i < 0 then None else Some(WithNodes(root, k, Without(nodes, i)))
    case _ => None
  }

  function Swap<T>(s: seq<T>, i: int, d: int): (r: seq<T>)
    requires 0 <= i < |s|
    ensures |r| == |s|
  {
    if 0 <= i + d < |s| then s[i := s[i + d]][i + d := s[i]] else s
  }

  function MoveNode(root: Node, name: string, d: int): Option<Node> {
    match Tubers(root)
    case At(k, nodes) =>
      var i := TuberIndex(nodes, name);
      if i < 0 then None else Some(WithNodes(root, k, Swap(nodes, i, d)))
    case _ => None
  }

  // ----- Setting a boolean default -----

  function BoolText(b: bool): string { if b then "true" else "false" }

  function SetBool(root: Node, key: string, value: Option<bool>): Option<Node> {
    var k := KeyIndex(root.content, "defaults", 0);
    match value
    case None =>
      if k < 0 || !root.content[k + 1].kind.MappingNode? then Some(root)
      else
        var d := root.content[k + 1];
        var i := KeyIndex(d.content, key, 0);
        if i < 0 then Some(root) else Some(WithNodes(root, k, d.content[..i] + d.content[i + 2..]))
    case Some(b) =>
      if k < 0 then
        Some(root.(content := root.content
          + [ScalarOf("!!str", "defaults"),
             Node(MappingNode, "!!map", "", [ScalarOf("!!str", key), ScalarOf("!!bool", BoolText(b))], "")]))
      else if !root.content[k + 1].kind.MappingNode? then None
      else
        var d := root.content[k + 1];
        var i := KeyIndex(d.content, key, 0);
        Some(WithNodes(root, k,
          if i < 0 then d.content + [ScalarOf("!!str", key), ScalarOf("!!bool", BoolText(b))]
          else d.content[i + 1 := d.content[i + 1].(tag := "!!bool", value := BoolText(b))]))
  }

  // ----- The file -----

  /** The file's tree; each edit loads it, edits it and saves it, or leaves the file as it is. */
  class ConfigFile {
    var root: Option<Node>

    constructor (r: Option<Node>)
      ensures root == r
    {
      root := r;
    }

    method AddTuberNode(n: Node) returns (ok: bool)
      modifies this
      ensures var r := if old(Mapping(root)) then AddNode(old(root).value, n) else None;
        ok == r.Some? && root == if ok then r else old(root)
    {
      if !Mapping(root) {
        return false;
      }
      var tree := root.value;
      var k := FindKey(tree, "tubers");
      if k < 0 {
        k := |tree.content|;
        tree := tree.(content := tree.content + [ScalarOf("!!str", "tubers"), Node(SequenceNode, "!!seq", "", [], "")]);
      } else if !tree.content[k + 1].kind.SequenceNode? {
        return false;
      }
      var nodes := tree.content[k + 1].content;
      assert k == |root.value.content| ==> nodes + [n] == [n];
      root := Some(WithNodes(tree, k, nodes + [n]));
      assert k == |old(root).value.content| ==>
        root.value.content ==
        old(root).value.content + [ScalarOf("!!str", "tubers"), Node(SequenceNode, "!!seq", "", [n], "")];
      return true;
    }

    method ReplaceTuberNode(name: string, n: Node) returns (ok: bool)
      modifies this
      ensures var r := if old(Mapping(root)) then ReplaceNode(old(root).value, name, n) else None;
        ok == r.Some? && root == if ok then r else old(root)
    {
      var k, idx := Locate(name);
      if idx < 0 {
        return false;
      }
      var nodes := root.value.content[k + 1].content;
      root := Some(WithNodes(root.value, k, nodes[idx := n]));
      return true;
    }

    method DeleteTuberNode(name: string) returns (ok: bool)
      modifies this
      ensures var r := if old(Mapping(root)) then DeleteNode(old(root).value, name) else None;
        ok == r.Some? && root == if ok then r else old(root)
    {
      var k, idx := Locate(name);
      if idx < 0 {
        return false;
      }
      var nodes := root.value.content[k + 1].content;
      root := Some(WithNodes(root.value, k, nodes[..idx] + nodes[idx + 1..]));
      return true;
    }

    method MoveTuberNode(name: string, delta: int) returns (ok: bool)
      modifies this
      ensures var r := if old(Mapping(root)) then MoveNode(old(root).value, name, delta) else None;
        ok == r.Some? && root == if ok then r else old(root)
    {
      var k, idx := Locate(name);
      if idx < 0 {
        return false;
      }
      var nodes := root.value.content[k + 1].content;
      var target := idx + delta;
      if target < 0 || target >= |nodes| {
        SameNodes(root.value, k);
        return true;
      }
      root := Some(WithNodes(root.value, k, nodes[idx := nodes[target]][target := nodes[idx]]));
      return true;
    }

    /** Where a named tuber stands: its position in the sequence that follows key k, or -1. */
    method Locate(name: string) returns (k: nat, idx: int)
      ensures idx >= 0 <==> Mapping(root) && Tubers(root.value).At? && TuberIndex(Tubers(root.value).nodes, name) >= 0
      ensures idx >= 0 ==> k == Tubers(root.value).k && idx == TuberIndex(Tubers(root.value).nodes, name)
    {
      k, idx := 0, -1;
      if Mapping(root) {
        var key := FindKey(root.value, "tubers");
        if key >= 0 && root.value.content[key + 1].kind.SequenceNode? {
          k := key;
          idx := FindTuberIndex(root.value.content[k + 1].content, name);
        }
      }
    }

    method SetDefaultsBoolNode(key: string, value: Option<bool>) returns (ok: bool)
      modifies this
      ensures var r := if old(Mapping(root)) then SetBool(old(root).value, key, value) else None;
        ok == r.Some? && root == if ok then r else old(root)
    {
      if !Mapping(root) {
        return false;
      }
      var tree := root.value;
      var k := FindKey(tree, "defaults");
      if value.None? {
        if k >= 0 && tree.content[k + 1].kind.MappingNode? {
          var d := tree.content[k + 1];
          var i := FindKey(d, key);
          if i >= 0 {
            root := Some(WithNodes(tree, k, d.content[..i] + d.content[i + 2..]));
          }
        }
        return true;
      }
      var v := if value.value then "true" else "false";
      if k < 0 {
        root := Some(tree.(content := tree.content
          + [ScalarOf("!!str", "defaults"),
             Node(MappingNode, "!!map", "", [ScalarOf("!!str", key), ScalarOf("!!bool", v)], "")]));
        return true;
      }
      var d := tree.content[k + 1];
      if !d.kind.MappingNode? {
        return false;
      }
      var i := FindKey(d, key);
      if i >= 0 {
        root := Some(WithNodes(tree, k, d.content[i + 1 := d.content[i + 1].(tag := "!!bool", value := v)]));
      } else {
        root := Some(WithNodes(tree, k, d.content + [ScalarOf("!!str", key), ScalarOf("!!bool", v)]));
      }
      return true;
    }
  }

  predicate Mapping(root: Option<Node>) { root.Some? && root.value.kind.MappingNode? }

  lemma SameNodes(root: Node, k: nat)
    requires k + 1 < |root.content|
    ensures WithNodes(root, k, root.content[k + 1].content) == root
  {
    assert root.content[k + 1 := root.content[k + 1]] == root.content;
  }

  // ----- Keys that an edit does not touch -----

  function ValueFrom(content: seq<Node>, key: string, i: nat): Option<Node> {
    var r := KeyIndex(content, key, i);
    if r < 0 then None else Some(content[r + 1])
  }

  /** Keys and values alternate. */
  predicate Paired(n: Node) { |n.content| % 2 == 0 }

  lemma {:induction false} SameKeys(a: seq<Node>, b: seq<Node>, key: string, i: nat)
    requires |a| == |b| && forall j | i <= j < |a| && (j - i) % 2 == 0 :: a[j].value == b[j].value
    ensures KeyIndex(a, key, i) == KeyIndex(b, key, i)
    decreases |a| - i
  {
    if i + 1 < |a| && a[i].value != key { SameKeys(a, b, key, i + 2); }
  }

  /** Changing a value leaves every key where it was. */
  lemma KeysStay(content: seq<Node>, k: nat, v: Node, key: string)
    requires k + 1 < |content| && k % 2 == 0
    ensures KeyIndex(content[k + 1 := v], key, 0) == KeyIndex(content, key, 0)
  {
    SameKeys(content[k + 1 := v], content, key, 0);
  }

  lemma {:induction false} KeyAppended(content: seq<Node>, more: seq<Node>, key: string, i: nat)
    requires i <= |content| && (|content| - i) % 2 == 0
    ensures KeyIndex(content + more, key, i) ==
            if KeyIndex(content, key, i) >= 0 then KeyIndex(content, key, i)
            else KeyIndex(content + more, key, |content|)
    decreases |content| - i
  {
    if i + 1 < |content| && content[i].value != key { KeyAppended(content, more, key, i + 2); }
  }

  lemma {:induction false} SameTail(a: seq<Node>, i: nat, b: seq<Node>, j: nat, key: string)
    requires i <= |a| && j <= |b| && a[i..] == b[j..]
    ensures ValueFrom(a, key, i) == ValueFrom(b, key, j)
    ensures KeyIndex(a, key, i) < 0 <==> KeyIndex(b, key, j) < 0
    decreases |a| - i
  {
    if i + 1 < |a| {
      assert a[i] == a[i..][0] && b[j] == b[j..][0] && a[i + 1] == a[i..][1] && b[j + 1] == b[j..][1];
      assert a[i + 2..] == a[i..][2..] && b[j + 2..] == b[j..][2..];
      if a[i].value != key { SameTail(a, i + 2, b, j + 2, key); }
    }
  }

  /** Removing the entry at i leaves the first value of every other key, and of that key the next one. */
  lemma {:induction false} EntryRemoved(content: seq<Node>, i: nat, key: string, j: nat)
    requires j <= i && i + 1 < |content| && (i - j) % 2 == 0
    requires content[i].value != key || KeyIndex(content, key, j) == i
    ensures ValueFrom(content[..i] + content[i + 2..], key, j) ==
            if content[i].value == key then ValueFrom(content, key, i + 2) else ValueFrom(content, key, j)
    decreases i - j
  {
    var r := content[..i] + content[i + 2..];
    if j == i {
      assert r[i..] == content[i + 2..];
      SameTail(r, i, content, i + 2, key);
      ValueSkips(content, key, i);
    } else {
      assert r[j] == content[j] && r[j + 1] == content[j + 1];
      ValueSkips(content, key, j);
      ValueSkips(r, key, j);
      if content[j].value != key { EntryRemoved(content, i, key, j + 2); }
    }
  }

  lemma ValueSkips(content: seq<Node>, key: string, j: nat)
    requires j + 1 < |content|
    ensures ValueFrom(content, key, j)
      == if content[j].value == key then Some(content[j + 1]) else ValueFrom(content, key, j + 2)
  {
  }

  /** Putting other nodes under a key changes what the root holds for that key alone. */
  lemma OtherKeysStay(root: Node, name: string, nodes: seq<Node>, key: string)
    requires KeyIndex(root.content, name, 0) >= 0 && key != name
    ensures var k := KeyIndex(root.content, name, 0);
      && MappingValue(WithNodes(root, k, nodes), key) == MappingValue(root, key)
      && MappingValue(WithNodes(root, k, nodes), name) == Some(root.content[k + 1].(content := nodes))
  {
    var k := KeyIndex(root.content, name, 0);
    var v := root.content[k + 1].(content := nodes);
    KeysStay(root.content, k, v, key);
    KeysStay(root.content, k, v, name);
  }

  /** A root that had no `tubers:` once a first node is added. */
  lemma FirstNodeAdded(root: Node, n: Node)
    requires Paired(root) && Tubers(root).Missing?
    ensures AddNode(root, n).Some?
    ensures var r := AddNode(root, n).value;
      Tubers(r) == At(|root.content|, [n]) && MappingValue(r, "defaults") == MappingValue(root, "defaults")
  {
    var more := [ScalarOf("!!str", "tubers"), Node(SequenceNode, "!!seq", "", [n], "")];
    var r := AddNode(root, n).value;
    KeyAppended(root.content, more, "tubers", 0);
    KeyAppended(root.content, more, "defaults", 0);
    assert r.content[|root.content|] == more[0] && r.content[|root.content| + 1] == more[1];
    assert KeyIndex(r.content, "tubers", |root.content|) == |root.content|;
    assert KeyIndex(r.content, "defaults", |root.content| + 2) == -1;
  }

  /** An edit of the tubers touches nothing else in the file. */
  lemma EditsTouchTubersOnly(root: Node, name: string, n: Node, d: int, key: string)
    requires Paired(root) && key != "tubers"
    ensures AddNode(root, n).Some? ==> MappingValue(AddNode(root, n).value, key) == MappingValue(root, key)
    ensures ReplaceNode(root, name, n).Some? ==>
      MappingValue(ReplaceNode(root, name, n).value, key) == MappingValue(root, key)
    ensures DeleteNode(root, name).Some? ==> MappingValue(DeleteNode(root, name).value, key) == MappingValue(root, key)
    ensures MoveNode(root, name, d).Some? ==>
      MappingValue(MoveNode(root, name, d).value, key) == MappingValue(root, key)
  {
    match Tubers(root)
    case At(k, nodes) =>
      forall more: seq<Node> ensures MappingValue(WithNodes(root, k, more), key) == MappingValue(root, key) {
        OtherKeysStay(root, "tubers", more, key);
      }
    case Missing =>
      var more := [ScalarOf("!!str", "tubers"), Node(SequenceNode, "!!seq", "", [n], "")];
      var r := root.content + more;
      KeyAppended(root.content, more, key, 0);
      assert r[|root.content|] == more[0];
      assert KeyIndex(r, key, |root.content| + 2) == -1;
    case NotSequence =>
  }

  // ----- Moving there and back -----

  ghost predicate DistinctNames(nodes: seq<Node>) {
    forall i, j | 0 <= i < j < |nodes| :: TuberName(nodes[i]) != TuberName(nodes[j])
  }

  lemma SwapBack(nodes: seq<Node>, i: nat, d: int)
    requires i < |nodes| && 0 <= i + d < |nodes|
    ensures Swap(Swap(nodes, i, d), i + d, -d) == nodes
  {
  }

  /** The only node of a name is the one that is found. */
  lemma IndexIsUnique(nodes: seq<Node>, j: nat)
    requires j < |nodes| && DistinctNames(nodes)
    ensures TuberIndex(nodes, TuberName(nodes[j])) == j
  {
    var r := TuberIndex(nodes, TuberName(nodes[j]));
    assert r >= 0 ==> TuberName(nodes[r]) == TuberName(nodes[j]);
  }

  lemma SwapKeepsDistinct(nodes: seq<Node>, i: nat, d: int)
    requires i < |nodes| && 0 <= i + d < |nodes| && DistinctNames(nodes)
    ensures DistinctNames(Swap(nodes, i, d))
  {
  }

  lemma IndexAfterSwap(nodes: seq<Node>, i: nat, d: int)
    requires i < |nodes| && 0 <= i + d < |nodes| && DistinctNames(nodes)
    ensures TuberIndex(Swap(nodes, i, d), TuberName(nodes[i])) == i + d
  {
    SwapKeepsDistinct(nodes, i, d);
    IndexIsUnique(Swap(nodes, i, d), i + d);
  }

  lemma TubersOf(root: Node, nodes: seq<Node>)
    requires Tubers(root).At?
    ensures Tubers(WithNodes(root, Tubers(root).k, nodes)) == At(Tubers(root).k, nodes)
  {
    var k := Tubers(root).k;
    KeysStay(root.content, k, root.content[k + 1].(content := nodes), "tubers");
  }

  lemma WithNodesTwice(root: Node, k: nat, a: seq<Node>, b: seq<Node>)
    requires k + 1 < |root.content|
    ensures WithNodes(WithNodes(root, k, a), k, b) == WithNodes(root, k, b)
    ensures WithNodes(root, k, b) == root <==> b == root.content[k + 1].content
  {
    SameNodes(root, k);
    assert WithNodes(root, k, b).content[k + 1].content == b;
  }

  lemma SwapIsFelt(nodes: seq<Node>, i: nat, d: int)
    requires i < |nodes| && 0 <= i + d < |nodes| && d != 0 && DistinctNames(nodes)
    ensures Swap(nodes, i, d) != nodes
  {
    assert TuberName(nodes[i]) != TuberName(nodes[i + d]);
    assert Swap(nodes, i, d)[i] == nodes[i + d];
  }

  function MoveNodes(nodes: seq<Node>, name: string, d: int): Option<seq<Node>> {
    var i := TuberIndex(nodes, name);
    if i < 0 then None else Some(Swap(nodes, i, d))
  }

  lemma MoveNodesIn(nodes: seq<Node>, i: nat, d: int)
    requires DistinctNames(nodes) && i < |nodes| && 0 <= i + d < |nodes|
    ensures MoveNodes(Swap(nodes, i, d), TuberName(nodes[i]), -d) == Some(nodes)
  {
    IndexAfterSwap(nodes, i, d);
    SwapBack(nodes, i, d);
  }

  lemma MoveNodesOut(nodes: seq<Node>, name: string, d: int)
    requires DistinctNames(nodes) && TuberIndex(nodes, name) >= 0 && !(0 <= TuberIndex(nodes, name) + d < |nodes|)
    ensures MoveNodes(Swap(nodes, TuberIndex(nodes, name), d), name, -d) == Some(nodes) <==>
            !(0 <= TuberIndex(nodes, name) - d < |nodes|)
  {
    var i := TuberIndex(nodes, name);
    if 0 <= i - d < |nodes| { SwapIsFelt(nodes, i, -d); }
  }

  lemma MoveAgain(root: Node, name: string, d: int)
    requires MoveNode(root, name, d).Some?
    ensures var nodes := Tubers(root).nodes;
      MoveNode(MoveNode(root, name, d).value, name, -d) == Some(root) <==>
      MoveNodes(Swap(nodes, TuberIndex(nodes, name), d), name, -d) == Some(nodes)
  {
    var k, nodes := Tubers(root).k, Tubers(root).nodes;
    var there := Swap(nodes, TuberIndex(nodes, name), d);
    TubersOf(root, there);
    var back := MoveNodes(there, name, -d);
    if back.Some? { WithNodesTwice(root, k, there, back.value); }
  }

  /** Moving by d and then by -d restores the file exactly when the first move stays in bounds or the
      second one leaves them. */
  lemma MoveBack(root: Node, name: string, d: int)
    requires MoveNode(root, name, d).Some? && DistinctNames(Tubers(root).nodes)
    ensures var n := |Tubers(root).nodes|;
      var i := TuberIndex(Tubers(root).nodes, name);
      MoveNode(MoveNode(root, name, d).value, name, -d) == Some(root) <==> (0 <= i + d < n || !(0 <= i - d < n))
  {
    var nodes := Tubers(root).nodes;
    MoveAgain(root, name, d);
    if 0 <= TuberIndex(nodes, name) + d < |nodes| {
      MoveNodesIn(nodes, TuberIndex(nodes, name), d);
    } else {
      MoveNodesOut(nodes, name, d);
    }
  }

  // ----- Setting and reading a boolean default -----

  function DefaultOf(root: Node, key: string): Option<Node> {
    match MappingValue(root, "defaults")
    case Some(d) => if d.kind.MappingNode? then MappingValue(d, key) else None
    case None => None
  }

  function ReadBool(root: Node, key: string): Option<bool> {
    match DefaultOf(root, key)
    case Some(v) => if v.kind.ScalarNode? && v.tag == "!!bool" then Some(v.value == "true") else None
    case None => None
  }

  ghost predicate PairedThroughout(root: Node) {
    Paired(root) && (MappingValue(root, "defaults").Some? ==> Paired(MappingValue(root, "defaults").value))
  }

  /** The defaults with other entries. */
  lemma DefaultsReplaced(root: Node, content: seq<Node>, key: string)
    requires MappingValue(root, "defaults").Some? && MappingValue(root, "defaults").value.kind.MappingNode?
    ensures DefaultOf(WithNodes(root, KeyIndex(root.content, "defaults", 0), content), key)
      == ValueFrom(content, key, 0)
  {
    OtherKeysStay(root, "defaults", content, "");
  }

  lemma PairAppended(content: seq<Node>, key: string, v: Node, other: string)
    requires |content| % 2 == 0
    ensures ValueFrom(content + [ScalarOf("!!str", key), v], other, 0) ==
            if ValueFrom(content, other, 0).Some? then ValueFrom(content, other, 0)
            else if other == key then Some(v)
            else None
  {
    var pair := [ScalarOf("!!str", key), v];
    KeyAppended(content, pair, other, 0);
    assert (content + pair)[|content|] == pair[0] && (content + pair)[|content| + 1] == v;
    assert KeyIndex(content + pair, other, |content| + 2) == -1;
    var i := KeyIndex(content, other, 0);
    assert i >= 0 ==> (content + pair)[i + 1] == content[i + 1];
  }

  lemma ValueChanged(content: seq<Node>, key: string, v: Node, other: string)
    requires KeyIndex(content, key, 0) >= 0
    ensures ValueFrom(content[KeyIndex(content, key, 0) + 1 := v], other, 0) ==
            if other == key then Some(v) else ValueFrom(content, other, 0)
  {
    KeysStay(content, KeyIndex(content, key, 0), v, other);
  }

  /** A key `other` of the defaults once `key` is set to b there. */
  function AfterSet(root: Node, key: string, b: bool, other: string): Option<Node> {
    var v := DefaultOf(root, key);
    if other != key then DefaultOf(root, other)
    else Some(if v.None? then ScalarOf("!!bool", BoolText(b)) else v.value.(tag := "!!bool", value := BoolText(b)))
  }

  lemma SetBoolNoDefaults(root: Node, key: string, b: bool, other: string)
    requires Paired(root) && MappingValue(root, "defaults").None?
    ensures DefaultOf(SetBool(root, key, Some(b)).value, other) == AfterSet(root, key, b, other)
  {
    var leaf := ScalarOf("!!bool", BoolText(b));
    var d := Node(MappingNode, "!!map", "", [ScalarOf("!!str", key), leaf], "");
    PairAppended(root.content, "defaults", d, "defaults");
    PairAppended([], key, leaf, other);
    assert [] + [ScalarOf("!!str", key), leaf] == d.content;
  }

  lemma SetBoolNewKey(root: Node, key: string, b: bool, other: string)
    requires PairedThroughout(root) && MappingValue(root, "defaults").Some? && SetBool(root, key, Some(b)).Some?
    requires DefaultOf(root, key).None?
    ensures DefaultOf(SetBool(root, key, Some(b)).value, other) == AfterSet(root, key, b, other)
  {
    var d := MappingValue(root, "defaults").value;
    var leaf := ScalarOf("!!bool", BoolText(b));
    DefaultsReplaced(root, d.content + [ScalarOf("!!str", key), leaf], other);
    PairAppended(d.content, key, leaf, other);
  }

  lemma SetBoolOldKey(root: Node, key: string, b: bool, other: string)
    requires DefaultOf(root, key).Some?
    ensures DefaultOf(SetBool(root, key, Some(b)).value, other) == AfterSet(root, key, b, other)
  {
    var d := MappingValue(root, "defaults").value;
    var i := KeyIndex(d.content, key, 0);
    var v := d.content[i + 1].(tag := "!!bool", value := BoolText(b));
    DefaultsReplaced(root, d.content[i + 1 := v], other);
    ValueChanged(d.content, key, v, other);
  }

  /** A key of the defaults after another key, or the key itself, is set. */
  lemma SetBoolDefault(root: Node, key: string, b: bool, other: string)
    requires PairedThroughout(root) && SetBool(root, key, Some(b)).Some?
    ensures DefaultOf(SetBool(root, key, Some(b)).value, other) == AfterSet(root, key, b, other)
  {
    if MappingValue(root, "defaults").None? {
      SetBoolNoDefaults(root, key, b, other);
    } else if DefaultOf(root, key).None? {
      SetBoolNewKey(root, key, b, other);
    } else {
      SetBoolOldKey(root, key, b, other);
    }
  }

  /** What was set is read back exactly when the key was absent or held a scalar; nothing else changes. */
  lemma SetThenGet(root: Node, key: string, b: bool, other: string)
    requires PairedThroughout(root) && SetBool(root, key, Some(b)).Some?
    ensures var r := SetBool(root, key, Some(b)).value;
      && (ReadBool(r, key) == Some(b) <==> DefaultOf(root, key).None? || DefaultOf(root, key).value.kind.ScalarNode?)
      && (other != key ==> DefaultOf(r, other) == DefaultOf(root, other))
  {
    SetBoolDefault(root, key, b, key);
    SetBoolDefault(root, key, b, other);
  }

  /** Over an alias node the value that was set is lost on reading. */
  lemma SetOverAliasIsLost(key: string, b: bool)
    ensures var defaults := Node(MappingNode, "", "", [ScalarOf("", key), Node(AliasNode, "", "a", [], "")], "");
      var root := Node(MappingNode, "", "", [ScalarOf("", "defaults"), defaults], "");
      && SetBool(root, key, Some(b)).Some?
      && ReadBool(SetBool(root, key, Some(b)).value, key) != Some(b)
  {
    var defaults := Node(MappingNode, "", "", [ScalarOf("", key), Node(AliasNode, "", "a", [], "")], "");
    var root := Node(MappingNode, "", "", [ScalarOf("", "defaults"), defaults], "");
    assert KeyIndex(root.content, "defaults", 0) == 0 && KeyIndex(defaults.content, key, 0) == 0;
    SetThenGet(root, key, b, key);
  }

  lemma RemovedEntry(root: Node, key: string, other: string)
    requires MappingValue(root, "defaults").Some? && MappingValue(root, "defaults").value.kind.MappingNode?
    requires KeyIndex(MappingValue(root, "defaults").value.content, key, 0) >= 0
    ensures var content := MappingValue(root, "defaults").value.content;
      var i := KeyIndex(content, key, 0);
      DefaultOf(SetBool(root, key, None).value, other) == ValueFrom(content[..i] + content[i + 2..], other, 0)
  {
    var content := MappingValue(root, "defaults").value.content;
    var i := KeyIndex(content, key, 0);
    DefaultsReplaced(root, content[..i] + content[i + 2..], other);
  }

  lemma DefaultIs(root: Node, key: string)
    requires MappingValue(root, "defaults").Some? && MappingValue(root, "defaults").value.kind.MappingNode?
    ensures DefaultOf(root, key) == ValueFrom(MappingValue(root, "defaults").value.content, key, 0)
  {
  }

  lemma OtherDefaultKept(root: Node, key: string, other: string)
    requires MappingValue(root, "defaults").Some? && MappingValue(root, "defaults").value.kind.MappingNode?
    requires other != key
    ensures DefaultOf(SetBool(root, key, None).value, other) == DefaultOf(root, other)
  {
    var content := MappingValue(root, "defaults").value.content;
    var i := KeyIndex(content, key, 0);
    if i >= 0 {
      RemovedEntry(root, key, other);
      EntryRemoved(content, i, other, 0);
      DefaultIs(root, other);
    }
  }

  lemma NextDefaultShows(root: Node, key: string)
    requires MappingValue(root, "defaults").Some? && MappingValue(root, "defaults").value.kind.MappingNode?
    requires KeyIndex(MappingValue(root, "defaults").value.content, key, 0) >= 0
    ensures var content := MappingValue(root, "defaults").value.content;
      DefaultOf(SetBool(root, key, None).value, key) == ValueFrom(content, key, KeyIndex(content, key, 0) + 2)
  {
    var content := MappingValue(root, "defaults").value.content;
    RemovedEntry(root, key, key);
    EntryRemoved(content, KeyIndex(content, key, 0), key, 0);
  }

  /** A removed key is gone exactly when it was there at most once; nothing else changes. */
  lemma RemoveThenGet(root: Node, key: string, other: string)
    requires MappingValue(root, "defaults").Some? && MappingValue(root, "defaults").value.kind.MappingNode?
    ensures var r := SetBool(root, key, None).value;
      var content := MappingValue(root, "defaults").value.content;
      var i := KeyIndex(content, key, 0);
      && (DefaultOf(r, key) == None <==> i < 0 || KeyIndex(content, key, i + 2) < 0)
      && (other != key ==> DefaultOf(r, other) == DefaultOf(root, other))
  {
    if KeyIndex(MappingValue(root, "defaults").value.content, key, 0) >= 0 { NextDefaultShows(root, key); }
    if other != key { OtherDefaultKept(root, key, other); }
  }

  /** Setting or removing a default leaves the rest of the file alone. */
  lemma SetBoolTouchesDefaultsOnly(root: Node, key: string, value: Option<bool>, other: string)
    requires Paired(root) && SetBool(root, key, value).Some? && other != "defaults"
    ensures MappingValue(SetBool(root, key, value).value, other) == MappingValue(root, other)
  {
    var r := SetBool(root, key, value).value;
    var k := KeyIndex(root.content, "defaults", 0);
    if k < 0 {
      if value.Some? { PairAppended(root.content, "defaults", r.content[|root.content| + 1], other); }
    } else if r != root {
      OtherKeysStay(root, "defaults", r.content[k + 1].content, other);
    }
  }
}
