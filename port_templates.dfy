/**
 * The pure side of `GraphNode` (src/graph/graph-node.ts): how `makeTemplate`
 * turns a node's data model into the values its markup embeds. For each side
 * it keeps the visible ports, sorts them by descending id, and gives the port
 * at index `i` of the `n` sorted ones the placement `createPortMatrix(n, i,
 * radius, side)`. The SVG text itself is not modelled: a template here is the
 * record of the values the markup would carry.
 */
module PortTemplates {
  import opened Wrappers
  import opened StringOrder
  import opened PortAngles

  /** A port of the data model: `{ id, label?, connectionId, isVisible }`. */
  datatype Port = Port(id: string, labelText: Option<string>, connectionId: string, isVisible: bool)

  /** The three kinds of data model a node can show (the `instanceof` tests of the source). */
  datatype Kind = Step | InputParameter | OutputParameter

  /** A node's data model; `inPorts` and `outPorts` are the possibly undefined `in` and `out` lists. */
  datatype NodeModel = NodeModel(
    kind: Kind,
    id: string,
    labelText: Option<string>,
    connectionId: string,
    inPorts: Option<seq<Port>>,
    outPorts: Option<seq<Port>>)

  /** The values the markup of one port carries. */
  datatype PortTemplate = PortTemplate(portClass: string, id: string, connectionId: string, labelText: string, transform: Transform)

  /** The values the markup of one node carries. */
  datatype NodeTemplate = NodeTemplate(
    nodeTypeClass: string,
    id: string,
    connectionId: string,
    x: real,
    y: real,
    title: string,
    inputs: seq<PortTemplate>,
    outputs: seq<PortTemplate>)

  const InputPortClass: string := "input-port"
  const OutputPortClass: string := "output-port"

  /** `label || id`: an absent or empty label falls back to the id. */
  function DisplayLabel(labelText: Option<string>, id: string): (r: string)
    ensures labelText.Some? && labelText.value != "" ==> r == labelText.value
    ensures labelText.None? || labelText.value == "" ==> r == id
    ensures r == "" ==> id == ""
  {
    if labelText.Some? && labelText.value != "" then labelText.value else id
  }

  /**
   * The class of a port group: `input-port` exactly when the type argument is
   * "input"; anything else, including the missing argument of `addPort`'s
   * call (`None`), gives `output-port`.
   */
  function PortClass(portType: Option<Side>): (r: string)
    ensures r == InputPortClass <==> portType == Some(Input)
    ensures r == OutputPortClass <==> portType != Some(Input)
  {
    if portType == Some(Input) then InputPortClass else OutputPortClass
  }

  /** `makePortTemplate(port, type, transform)`. */
  function MakePortTemplate(port: Port, portType: Option<Side>, transform: Transform): (t: PortTemplate)
    ensures t.id == port.id && t.connectionId == port.connectionId && t.transform == transform
    ensures t.portClass == PortClass(portType)
    ensures t.labelText == DisplayLabel(port.labelText, port.id)
  {
    PortTemplate(PortClass(portType), port.id, port.connectionId, DisplayLabel(port.labelText, port.id), transform)
  }

  /** `ports.filter(p => p.isVisible)`. */
  function VisiblePorts(ports: seq<Port>): (r: seq<Port>)
    ensures forall p :: p in r <==> p in ports && p.isVisible
    ensures |r| <= |ports|
  {
    if ports == [] then []
    else (if ports[0].isVisible then [ports[0]] else []) + VisiblePorts(ports[1..])
  }

  lemma {:induction false} VisiblePortsAppend(a: seq<Port>, b: seq<Port>)
    ensures VisiblePorts(a + b) == VisiblePorts(a) + VisiblePorts(b)
  {
    if a == [] {
      assert a + b == b;
    } else {
      assert (a + b)[1..] == a[1..] + b;
      VisiblePortsAppend(a[1..], b);
    }
  }

  /** Ids never increase along `s` (index 0 holds the greatest id). */
  predicate DescendingById(s: seq<Port>) {
    forall i, j :: 0 <= i < j < |s| ==> StrLeq(s[j].id, s[i].id)
  }

  /** No two ports of `s` share an id. */
  predicate UniqueIds(s: seq<Port>) {
    forall i, j :: 0 <= i < j < |s| ==> s[i].id != s[j].id
  }

  /** Inserts `p` before the first port whose id is not greater than its own. */
  function InsertById(p: Port, s: seq<Port>): (r: seq<Port>)
    ensures |r| == |s| + 1
    ensures multiset(r) == multiset(s) + multiset{p}
  {
    if s == [] then [p]
    else if StrLeq(s[0].id, p.id) then [p] + s
    else
      assert s == [s[0]] + s[1..];
      [s[0]] + InsertById(p, s[1..])
  }

  lemma {:induction false} InsertByIdDescending(p: Port, s: seq<Port>)
    requires DescendingById(s)
    ensures DescendingById(InsertById(p, s))
  {
    if s == [] {
    } else if StrLeq(s[0].id, p.id) {
      forall j | 1 < j < |s| + 1
        ensures StrLeq(([p] + s)[j].id, p.id)
      {
        StrLeqTransitive(s[j - 1].id, s[0].id, p.id);
      }
    } else {
      StrLeqTotal(s[0].id, p.id);
      var rest := InsertById(p, s[1..]);
      InsertByIdDescending(p, s[1..]);
      forall k | 0 <= k < |rest|
        ensures StrLeq(rest[k].id, s[0].id)
      {
        assert rest[k] in multiset(rest);
        if rest[k] != p {
          assert rest[k] in multiset(s[1..]);
          var m :| 0 <= m < |s[1..]| && s[1..][m] == rest[k];
          assert s[m + 1] == rest[k];
        }
      }
    }
  }

  /** `.sort((a, b) => -a.id.localeCompare(b.id))`: a sort by descending id. */
  function SortByIdDescending(s: seq<Port>): (r: seq<Port>)
    ensures |r| == |s|
    ensures multiset(r) == multiset(s)
  {
    if s == [] then []
    else
      assert s == [s[0]] + s[1..];
      InsertById(s[0], SortByIdDescending(s[1..]))
  }

  /** The sort yields descending ids; together with its contract, it is a sorted permutation. */
  lemma {:induction false} SortByIdDescendingSorted(s: seq<Port>)
    ensures DescendingById(SortByIdDescending(s))
  {
    if s != [] {
      SortByIdDescendingSorted(s[1..]);
      InsertByIdDescending(s[0], SortByIdDescending(s[1..]));
    }
  }

  /** Ports with ids "b", "a", "c" are laid out in the order "c", "b", "a". */
  lemma SortExample(b: Port, a: Port, c: Port)
    requires b.id == "b" && a.id == "a" && c.id == "c"
    ensures SortByIdDescending([b, a, c]) == [c, b, a]
  {
    assert [b, a, c][1..] == [a, c] && [a, c][1..] == [c] && [c][1..] == [];
    assert !StrLeq("c", "a") && !StrLeq("c", "b") && StrLeq("a", "b");
    calc {
      SortByIdDescending([b, a, c]);
      InsertById(b, SortByIdDescending([a, c]));
      { assert SortByIdDescending([a, c]) == InsertById(a, SortByIdDescending([c])); }
      InsertById(b, InsertById(a, SortByIdDescending([c])));
      { assert SortByIdDescending([c]) == [c]; }
      InsertById(b, InsertById(a, [c]));
      { assert [c][1..] == [] && InsertById(a, [c]) == [c] + InsertById(a, []); }
      InsertById(b, [c, a]);
      { assert [c, a][1..] == [a]; }
      [c] + InsertById(b, [a]);
      [c, b, a];
    }
  }

  /** In a descending sequence, the first port has the greatest id. */
  lemma FirstHasGreatestId(s: seq<Port>, x: Port)
    requires DescendingById(s) && x in s
    ensures StrLeq(x.id, s[0].id)
  {
    var j :| 0 <= j < |s| && s[j] == x;
    if j == 0 {
      StrLeqReflexive(x.id);
    }
  }

  /** Two descending orderings of the same ports with unique ids are the same sequence. */
  lemma {:induction false} DescendingOrderUnique(s: seq<Port>, t: seq<Port>)
    requires DescendingById(s) && DescendingById(t)
    requires multiset(s) == multiset(t)
    requires UniqueIds(s)
    ensures s == t
    decreases |s|
  {
    assert |s| == |multiset(s)| == |multiset(t)| == |t|;
    if s != [] {
      assert s[0] in multiset(t) && t[0] in multiset(s);
      FirstHasGreatestId(t, s[0]);
      FirstHasGreatestId(s, t[0]);
      StrLeqAntisymmetric(s[0].id, t[0].id);
      var i :| 0 <= i < |s| && s[i] == t[0];
      assert i == 0;
      SameTails(s, t);
      DescendingOrderUnique(s[1..], t[1..]);
      assert s == [s[0]] + s[1..] && t == [t[0]] + t[1..];
    }
  }

  lemma SameTails(s: seq<Port>, t: seq<Port>)
    requires s != [] && t != [] && s[0] == t[0] && multiset(s) == multiset(t)
    ensures multiset(s[1..]) == multiset(t[1..])
  {
    assert s == [s[0]] + s[1..] && t == [t[0]] + t[1..];
    assert multiset(s[1..]) == multiset(s) - multiset{s[0]};
    assert multiset(t[1..]) == multiset(t) - multiset{s[0]};
  }

  /** With unique ids, the sorted order depends only on which ports there are, not on their document order. */
  lemma SortOrderIndependent(s: seq<Port>, t: seq<Port>)
    requires multiset(s) == multiset(t)
    requires UniqueIds(s)
    ensures SortByIdDescending(s) == SortByIdDescending(t)
  {
    var ss, st := SortByIdDescending(s), SortByIdDescending(t);
    SortByIdDescendingSorted(s);
    SortByIdDescendingSorted(t);
    UniqueIdsPermutation(s, ss);
    DescendingOrderUnique(ss, st);
  }

  /** A port occurs at most once in a sequence whose ids are unique. */
  lemma {:induction false} OccursAtMostOnce(s: seq<Port>, x: Port)
    requires UniqueIds(s)
    ensures multiset(s)[x] <= 1
  {
    if s != [] {
      assert s == [s[0]] + s[1..];
      OccursAtMostOnce(s[1..], x);
      if x == s[0] {
        forall k | 0 <= k < |s[1..]|
          ensures s[1..][k] != x
        {
          assert s[k + 1].id != s[0].id;
        }
        assert x !in s[1..];
      }
    }
  }

  /** Unique ids survive any permutation. */
  lemma UniqueIdsPermutation(s: seq<Port>, r: seq<Port>)
    requires multiset(r) == multiset(s) && UniqueIds(s)
    ensures UniqueIds(r)
  {
    forall i, j | 0 <= i < j < |r|
      ensures r[i].id != r[j].id
    {
      assert r == r[..i] + [r[i]] + r[i + 1..j] + [r[j]] + r[j + 1..];
      if r[i] == r[j] {
        assert multiset(r)[r[i]] >= 2;
        OccursAtMostOnce(s, r[i]);
      }
      assert r[i] in multiset(s) && r[j] in multiset(s);
      var a :| 0 <= a < |s| && s[a] == r[i];
      var b :| 0 <= b < |s| && s[b] == r[j];
    }
  }

  /**
   * The `.map` step: the port at index `k` of the `n` sorted ones gets the
   * placement `createPortMatrix(n, k, radius, side)`, which is the angle
   * `distributePorts` gives index `k` of `n` on that side.
   */
  function PlacePorts(sorted: seq<Port>, side: Side): (r: seq<PortTemplate>)
    ensures |r| == |sorted|
    ensures forall k :: 0 <= k < |r| ==>
      r[k] == MakePortTemplate(sorted[k], Some(side), OuterEdge(SideAngle(side, k, |r|), Radius))
  {
    seq(|sorted|, k requires 0 <= k < |sorted| => MakePortTemplate(sorted[k], Some(side), PortMatrix(|sorted|, k, Radius, side)))
  }

  /**
   * One side of `makeTemplate`: `(ports || []).filter(visible).sort(descending
   * id).map((p, i, arr) => makePortTemplate(p, side, createPortMatrix(arr.length,
   * i, radius, side)))`. The placement uses `n` = the number of VISIBLE ports.
   */
  function LayoutPorts(ports: Option<seq<Port>>, side: Side): (r: seq<PortTemplate>)
    ensures |r| == |VisiblePorts(ports.GetOr([]))|
    ensures forall k :: 0 <= k < |r| ==>
      r[k].portClass == PortClass(Some(side)) && r[k].transform == OuterEdge(SideAngle(side, k, |r|), Radius)
    ensures forall i, j :: 0 <= i < j < |r| ==> StrLeq(r[j].id, r[i].id)
    ensures exists s :: multiset(s) == multiset(VisiblePorts(ports.GetOr([]))) && DescendingById(s) && r == PlacePorts(s, side)
  {
    var visible := VisiblePorts(ports.GetOr([]));
    var sorted := SortByIdDescending(visible);
    SortByIdDescendingSorted(visible);
    assert multiset(sorted) == multiset(visible) && DescendingById(sorted);
    PlacePorts(sorted, side)
  }

  /**
   * Every laid-out port sits strictly inside its side's arc, and of two ports
   * the later one sits further along it.
   */
  lemma LayoutPortsWithinArc(ports: Option<seq<Port>>, side: Side, i: nat, j: nat)
    requires i < |LayoutPorts(ports, side)| && j < |LayoutPorts(ports, side)|
    ensures var r := LayoutPorts(ports, side);
      match side
      case Output => -70.0 < r[i].transform.angle < 70.0 && (i < j ==> r[i].transform.angle < r[j].transform.angle)
      case Input => 110.0 < r[i].transform.angle < 250.0 && (i < j ==> r[j].transform.angle < r[i].transform.angle)
  {
    var n := |LayoutPorts(ports, side)|;
    if i < j {
      if side == Output {
        OutputAngleIncreasing(i, j, n);
      } else {
        InputAngleDecreasing(i, j, n);
      }
    }
  }

  /** A hidden port, wherever it stands in the list, changes nothing in the layout of the visible ones. */
  lemma HiddenPortIgnored(ports: seq<Port>, k: nat, hidden: Port, side: Side)
    requires k <= |ports| && !hidden.isVisible
    ensures LayoutPorts(Some(ports[..k] + [hidden] + ports[k..]), side) == LayoutPorts(Some(ports), side)
  {
    var before, after := ports[..k], ports[k..];
    assert VisiblePorts([hidden]) == [] by {
      assert [hidden][1..] == [];
    }
    calc {
      VisiblePorts(before + [hidden] + after);
      { VisiblePortsAppend(before + [hidden], after); }
      VisiblePorts(before + [hidden]) + VisiblePorts(after);
      { VisiblePortsAppend(before, [hidden]); }
      VisiblePorts(before) + VisiblePorts(after);
      { VisiblePortsAppend(before, after); assert before + after == ports; }
      VisiblePorts(ports);
    }
  }

  /** With unique ids, reordering a side's visible ports in the document does not move any of them. */
  lemma LayoutOrderIndependent(a: seq<Port>, b: seq<Port>, side: Side)
    requires multiset(VisiblePorts(a)) == multiset(VisiblePorts(b))
    requires UniqueIds(VisiblePorts(a))
    ensures LayoutPorts(Some(a), side) == LayoutPorts(Some(b), side)
  {
    SortOrderIndependent(VisiblePorts(a), VisiblePorts(b));
  }

  /** The class `makeTemplate` gives a node of each kind. */
  function NodeTypeClass(kind: Kind): (r: string)
    ensures r in {"step", "input", "output"}
    ensures r == "input" <==> kind == InputParameter
    ensures r == "output" <==> kind == OutputParameter
  {
    match kind
    case InputParameter => "input"
    case OutputParameter => "output"
    case Step => "step"
  }

  /** `makeTemplate(x, y, dataModel)`. */
  function MakeTemplate(x: real, y: real, m: NodeModel): (r: NodeTemplate)
    ensures r.id == m.id && r.connectionId == m.connectionId && r.x == x && r.y == y
    ensures r.nodeTypeClass == NodeTypeClass(m.kind)
    ensures r.title == DisplayLabel(m.labelText, m.id)
    ensures |r.inputs| == |VisiblePorts(m.inPorts.GetOr([]))|
    ensures |r.outputs| == |VisiblePorts(m.outPorts.GetOr([]))|
    ensures forall k :: 0 <= k < |r.inputs| ==>
      r.inputs[k].portClass == InputPortClass && r.inputs[k].transform == OuterEdge(InputAngle(k, |r.inputs|), Radius)
    ensures forall k :: 0 <= k < |r.outputs| ==>
      r.outputs[k].portClass == OutputPortClass && r.outputs[k].transform == OuterEdge(OutputAngle(k, |r.outputs|), Radius)
    ensures r.inputs == LayoutPorts(m.inPorts, Input) && r.outputs == LayoutPorts(m.outPorts, Output)
  {
    NodeTemplate(
      NodeTypeClass(m.kind), m.id, m.connectionId, x, y, DisplayLabel(m.labelText, m.id),
      LayoutPorts(m.inPorts, Input), LayoutPorts(m.outPorts, Output))
  }

  /** The single port `patchModelPorts` gives a parameter node: its own id and connection id, visible, no label. */
  function ParameterPort(m: NodeModel): Port {
    Port(m.id, None, m.connectionId, true)
  }

  /**
   * `patchModelPorts(model)`: a workflow input parameter gets `out` replaced by
   * its one parameter port, a workflow output parameter gets `in` replaced
   * likewise, and a step is returned unchanged.
   */
  function PatchModelPorts(m: NodeModel): (r: NodeModel)
    ensures r.kind == m.kind && r.id == m.id && r.labelText == m.labelText && r.connectionId == m.connectionId
    ensures m.kind == InputParameter ==> r.outPorts == Some([ParameterPort(m)]) && r.inPorts == m.inPorts
    ensures m.kind == OutputParameter ==> r.inPorts == Some([ParameterPort(m)]) && r.outPorts == m.outPorts
    ensures m.kind == Step ==> r == m
  {
    var patch := [ParameterPort(m)];
    match m.kind
    case InputParameter => m.(outPorts := Some(patch))
    case OutputParameter => m.(inPorts := Some(patch))
    case Step => m
  }

  /**
   * A patched workflow input parameter is drawn with exactly one output port,
   * labelled with the parameter's id, at 0 degrees; a patched workflow output
   * parameter with exactly one input port at 180 degrees.
   */
  lemma PatchedParameterLayout(x: real, y: real, m: NodeModel)
    requires m.kind != Step
    ensures var t := MakeTemplate(x, y, PatchModelPorts(m));
      var port := PortTemplate(if m.kind == InputParameter then OutputPortClass else InputPortClass,
                               m.id, m.connectionId, m.id,
                               OuterEdge(if m.kind == InputParameter then 0.0 else 180.0, Radius));
      if m.kind == InputParameter then t.outputs == [port] else t.inputs == [port]
  {
    var p := ParameterPort(m);
    var side := if m.kind == InputParameter then Output else Input;
    SinglePortLayout(p, side);
    assert PatchModelPorts(m).outPorts == Some([p]) || m.kind != InputParameter;
    assert PatchModelPorts(m).inPorts == Some([p]) || m.kind != OutputParameter;
  }

  /** A side with one visible port lays it out alone, at the middle of the side's arc. */
  lemma SinglePortLayout(p: Port, side: Side)
    requires p.isVisible
    ensures LayoutPorts(Some([p]), side) == [MakePortTemplate(p, Some(side), OuterEdge(SideAngle(side, 0, 1), Radius))]
  {
    assert VisiblePorts([p]) == [p];
    assert SortByIdDescending([p]) == [p];
  }
}
