/** The preset document: a tree of folders whose leaves are the usable presets. */
module Presets {
  import opened Wrappers

  /** A node: anything but a dict, a folder, or a leaf with the fields a job uses. */
  datatype Node =
    | NotDict
    | Folder(children: Children)
    | Leaf(name: Option<string>, encoder: Option<string>, format: string)

  datatype Children = NotList | List(nodes: seq<Node>)

  datatype PresetError = NotFound | NoEncoder | BadFormat

  /** Every leaf below, depth first, in document order. */
  function Leaves(children: Children): seq<Node>
    decreases children, 0
  {
    if children.NotList? then [] else LeavesOf(children.nodes)
  }

  function LeavesIn(node: Node): seq<Node>
    decreases node, 0
  {
    match node
    case NotDict => []
    case Folder(children) => Leaves(children)
    case Leaf(_, _, _) => [node]
  }

  function LeavesOf(nodes: seq<Node>): seq<Node>
    decreases nodes, 0
  {
    if nodes == [] then [] else LeavesIn(nodes[0]) + LeavesOf(nodes[1..])
  }

  lemma {:induction false} LeavesConcat(a: seq<Node>, b: seq<Node>)
    ensures LeavesOf(a + b) == LeavesOf(a) + LeavesOf(b)
    decreases |a|
  {
    if a == [] {
      assert a + b == b;
    } else {
      assert (a + b)[1..] == a[1..] + b;
      LeavesConcat(a[1..], b);
    }
  }

  // ---- the walk, by paths ------------------------------------------------

  /** Where a node is: its index in the list, then in the folder below, and so on. */
  type Spot = seq<nat>

  predicate LeafAt(children: Children, p: Spot, leaf: Node)
    decreases |p|
  {
    && p != [] && children.List? && p[0] < |children.nodes|
    && var node := children.nodes[p[0]];
       if |p| == 1 then node.Leaf? && node == leaf
       else node.Folder? && LeafAt(node.children, p[1..], leaf)
  }

  /** Document order: the first index that differs decides. */
  predicate Before(p: Spot, q: Spot)
    decreases |p|
  {
    && p != [] && q != []
    && (p[0] < q[0] || (p[0] == q[0] && Before(p[1..], q[1..])))
  }

  /** `ps` says where each of `found` is, in document order, from index `k` on. */
  ghost predicate Located(children: Children, k: nat, found: seq<Node>, ps: seq<Spot>) {
    && |ps| == |found|
    && (forall i :: 0 <= i < |ps| ==> LeafAt(children, ps[i], found[i]) && ps[i][0] >= k)
    && (forall i, j :: 0 <= i < j < |ps| ==> Before(ps[i], ps[j]))
  }

  lemma LocatedConcat(children: Children, k: nat, a: seq<Node>, qs: seq<Spot>, b: seq<Node>, rs: seq<Spot>)
    requires Located(children, k, a, qs) && (forall i :: 0 <= i < |qs| ==> qs[i][0] == k)
    requires Located(children, k + 1, b, rs)
    ensures Located(children, k, a + b, qs + rs)
  {
    var ps := qs + rs;
    forall i, j | 0 <= i < j < |ps| ensures Before(ps[i], ps[j]) {
      if |qs| <= i {
        assert Before(rs[i - |qs|], rs[j - |qs|]);
      } else if |qs| <= j {
        assert LeafAt(children, rs[j - |qs|], b[j - |qs|]) && LeafAt(children, qs[i], a[i]);
      }
    }
    forall i | 0 <= i < |ps| ensures LeafAt(children, ps[i], (a + b)[i]) && ps[i][0] >= k {
      if |qs| <= i {
        assert LeafAt(children, rs[i - |qs|], b[i - |qs|]);
      }
    }
  }

  function Under(k: nat, ps: seq<Spot>): seq<Spot> {
    seq(|ps|, i requires 0 <= i < |ps| => [k] + ps[i])
  }

  /** The spots of the leaves below one node of a list. */
  lemma {:induction false} NodeLocated(children: Children, k: nat) returns (ps: seq<Spot>)
    requires children.List? && k < |children.nodes|
    ensures Located(children, k, LeavesIn(children.nodes[k]), ps)
    ensures forall i :: 0 <= i < |ps| ==> ps[i][0] == k
    decreases children.nodes[k], 1
  {
    var node := children.nodes[k];
    match node
    case NotDict => ps := [];
    case Leaf(_, _, _) => ps := [[k]];
    case Folder(below) =>
      var qs := WalkLocated(below, 0);
      ps := Under(k, qs);
      forall i | 0 <= i < |ps| ensures LeafAt(children, ps[i], Leaves(below)[i]) {
        assert ps[i][1..] == qs[i];
      }
      forall i, j | 0 <= i < j < |ps| ensures Before(ps[i], ps[j]) {
        assert ps[i][1..] == qs[i] && ps[j][1..] == qs[j];
      }
  }

  /** And of all from one index of the list on. */
  lemma {:induction false} WalkLocated(children: Children, k: nat) returns (ps: seq<Spot>)
    requires children.List? ==> k <= |children.nodes|
    ensures Located(children, k, if children.List? then LeavesOf(children.nodes[k..]) else [], ps)
    decreases children, 0, if children.List? then |children.nodes| - k else 0
  {
    if children.NotList? || k == |children.nodes| {
      ps := [];
    } else {
      var qs := NodeLocated(children, k);
      var rs := WalkLocated(children, k + 1);
      assert children.nodes[k..][1..] == children.nodes[k + 1..];
      LocatedConcat(children, k, LeavesIn(children.nodes[k]), qs, LeavesOf(children.nodes[k + 1..]), rs);
      ps := qs + rs;
    }
  }

  /** Nothing is missed: a leaf anywhere below is in the walk. */
  lemma {:induction false} LeafIsWalked(children: Children, p: Spot, leaf: Node)
    requires LeafAt(children, p, leaf)
    ensures leaf in Leaves(children)
    decreases |p|
  {
    var nodes := children.nodes;
    var node := nodes[p[0]];
    if |p| > 1 {
      LeafIsWalked(node.children, p[1..], leaf);
    }
    assert leaf in LeavesIn(node);
    assert nodes == nodes[..p[0]] + nodes[p[0]..] && nodes[p[0]..][0] == node;
    LeavesConcat(nodes[..p[0]], nodes[p[0]..]);
  }

  /** iter_presets lists exactly the leaves of the document, in document order. */
  lemma LeavesAreTheLeaves(doc: Children) returns (ps: seq<Spot>)
    ensures |ps| == |Leaves(doc)| && forall i :: 0 <= i < |ps| ==> LeafAt(doc, ps[i], Leaves(doc)[i])
    ensures forall i, j :: 0 <= i < j < |ps| ==> Before(ps[i], ps[j])
    ensures forall p, leaf :: LeafAt(doc, p, leaf) ==> leaf in Leaves(doc)
  {
    ps := WalkLocated(doc, 0);
    assert doc.List? ==> doc.nodes[0..] == doc.nodes;
    forall p, leaf | LeafAt(doc, p, leaf) ensures leaf in Leaves(doc) {
      LeafIsWalked(doc, p, leaf);
    }
  }

  /** iter_presets' list, appended to by the recursive walk. */
  class Walker {
    var found: seq<Node>

    constructor ()
      ensures found == []
    {
      found := [];
    }

    method Walk(children: Children)
      modifies this
      ensures found == old(found) + Leaves(children)
      decreases children
    {
      if children.NotList? {
        return;
      }
      var nodes := children.nodes;
      for i := 0 to |nodes|
        invariant found == old(found) + LeavesOf(nodes[..i])
      {
        assert nodes[..i + 1] == nodes[..i] + [nodes[i]];
        LeavesConcat(nodes[..i], [nodes[i]]);
        assert [nodes[i]][1..] == [];
        match nodes[i] {
          case NotDict =>
          case Folder(below) => Walk(below);
          case Leaf(_, _, _) => found := found + [nodes[i]];
        }
      }
      assert nodes[..|nodes|] == nodes;
    }
  }

  method IterPresets(doc: Children) returns (found: seq<Node>)
    ensures found == Leaves(doc)
  {
    var walker := new Walker();
    walker.Walk(doc);
    found := walker.found;
  }

  function FirstNamed(leaves: seq<Node>, name: string): (r: Result<Node, PresetError>)
    ensures r.Success? ==> r.value.Leaf?
  {
    if leaves == [] then Failure(NotFound)
    else if leaves[0].Leaf? && leaves[0].name == Some(name) then Success(leaves[0])
    else FirstNamed(leaves[1..], name)
  }

  function FindPreset(doc: Children, name: string): Result<Node, PresetError> {
    FirstNamed(Leaves(doc), name)
  }

  lemma {:induction false} LeavesAreLeaves(children: Children)
    ensures forall n :: n in Leaves(children) ==> n.Leaf?
    decreases children, 0
  {
    if children.List? {
      LeavesOfAreLeaves(children.nodes);
    }
  }

  lemma {:induction false} LeavesInAreLeaves(node: Node)
    ensures forall n :: n in LeavesIn(node) ==> n.Leaf?
    decreases node, 0
  {
    if node.Folder? {
      LeavesAreLeaves(node.children);
    }
  }

  lemma {:induction false} LeavesOfAreLeaves(nodes: seq<Node>)
    ensures forall n :: n in LeavesOf(nodes) ==> n.Leaf?
    decreases nodes, 0
  {
    if nodes != [] {
      LeavesInAreLeaves(nodes[0]);
      LeavesOfAreLeaves(nodes[1..]);
    }
  }

  /** `i` is where the first leaf of that name is, or the end. */
  lemma {:induction false} FirstNamedIsFirst(leaves: seq<Node>, name: string) returns (i: nat)
    requires forall n :: n in leaves ==> n.Leaf?
    ensures i <= |leaves| && forall k :: 0 <= k < i ==> leaves[k].name != Some(name)
    ensures FirstNamed(leaves, name) == if i < |leaves| then Success(leaves[i]) else Failure(NotFound)
    ensures i < |leaves| ==> leaves[i].name == Some(name)
    decreases |leaves|
  {
    i := 0;
    if leaves != [] && leaves[0].name != Some(name) {
      i := FirstNamedIsFirst(leaves[1..], name);
      i := i + 1;
    }
  }

  predicate HasLeaf(nodes: seq<Node>, name: string) {
    exists i :: 0 <= i < |nodes| && nodes[i].Leaf? && nodes[i].name == Some(name)
  }

  /** `node` is a leaf of that name, and every node before it is a leaf of another name. */
  predicate IsFirstLeaf(nodes: seq<Node>, name: string, node: Node) {
    exists i :: 0 <= i < |nodes| && nodes[i] == node && node.Leaf? && node.name == Some(name)
      && forall k :: 0 <= k < i ==> nodes[k].Leaf? && nodes[k].name != Some(name)
  }

  lemma FirstNamedMeans(leaves: seq<Node>, name: string)
    requires forall n :: n in leaves ==> n.Leaf?
    ensures FirstNamed(leaves, name).Success? <==> HasLeaf(leaves, name)
    ensures FirstNamed(leaves, name).Failure? ==> FirstNamed(leaves, name) == Failure(NotFound)
    ensures FirstNamed(leaves, name).Success? ==> IsFirstLeaf(leaves, name, FirstNamed(leaves, name).value)
  {
    var i := FirstNamedIsFirst(leaves, name);
    if i < |leaves| {
      assert leaves[i].Leaf?;
    }
  }

  /** The lookup returns the first leaf of that name in document order, never a folder,
      and fails exactly when no leaf has it. */
  lemma FindPresetIsFirst(doc: Children, name: string)
    ensures FindPreset(doc, name).Success? <==> HasLeaf(Leaves(doc), name)
    ensures FindPreset(doc, name).Failure? ==> FindPreset(doc, name) == Failure(NotFound)
    ensures FindPreset(doc, name).Success? ==> IsFirstLeaf(Leaves(doc), name, FindPreset(doc, name).value)
  {
    LeavesAreLeaves(doc);
    FirstNamedMeans(Leaves(doc), name);
  }

  lemma FirstLeafIsNamed(leaves: seq<Node>, name: string, leaf: Node)
    requires (forall n :: n in leaves ==> n.Leaf?) && IsFirstLeaf(leaves, name, leaf)
    ensures FirstNamed(leaves, name) == Success(leaf)
  {
    var k := FirstNamedIsFirst(leaves, name);
    var i :| 0 <= i < |leaves| && leaves[i] == leaf && leaf.Leaf? && leaf.name == Some(name)
               && forall k :: 0 <= k < i ==> leaves[k].Leaf? && leaves[k].name != Some(name);
  }

  /** There is one such leaf, and the lookup returns it. */
  lemma FirstLeafIsFound(doc: Children, name: string, leaf: Node)
    requires IsFirstLeaf(Leaves(doc), name, leaf)
    ensures FindPreset(doc, name) == Success(leaf)
  {
    LeavesAreLeaves(doc);
    FirstLeafIsNamed(Leaves(doc), name, leaf);
  }

  function EncoderOf(preset: Node): Result<string, PresetError>
    requires preset.Leaf?
  {
    if preset.encoder.None? || preset.encoder.value == "" then Failure(NoEncoder) else Success(preset.encoder.value)
  }

  function ExtensionOf(preset: Node): Result<string, PresetError>
    requires preset.Leaf?
  {
    if preset.format == "av_mkv" then Success("mkv")
    else if preset.format == "av_mp4" then Success("mp4")
    else if preset.format == "av_webm" then Success("webm")
    else Failure(BadFormat)
  }

  /** The encoder is the leaf's own, and a leaf without one, or with an empty one, is refused. */
  lemma EncoderIff(preset: Node, encoder: string)
    requires preset.Leaf?
    ensures EncoderOf(preset) == Success(encoder) <==> preset.encoder == Some(encoder) && encoder != ""
    ensures EncoderOf(preset).Failure? ==> EncoderOf(preset) == Failure(NoEncoder)
  {
  }

  /** The extension is the muxer's name without its first three letters, for the three
      muxers known, and any other is refused. */
  lemma ExtensionIff(preset: Node, ext: string)
    requires preset.Leaf?
    ensures ExtensionOf(preset) == Success(ext) <==> preset.format == "av_" + ext && ext in {"mkv", "mp4", "webm"}
    ensures ExtensionOf(preset).Failure? ==> ExtensionOf(preset) == Failure(BadFormat)
  {
    assert forall a: string :: ("av_" + a)[3..] == a;
    assert "av_" + "mkv" == "av_mkv" && "av_" + "mp4" == "av_mp4" && "av_" + "webm" == "av_webm";
  }
}
