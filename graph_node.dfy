/**
 * The stateful side of `GraphNode` (src/graph/graph-node.ts): the node's SVG
 * group holds one group element per port, whose transform `distributePorts`
 * rewrites in place, and `addPort` appends a port element and re-runs the
 * distribution over every port of the node.
 */
module GraphNodes {
  import opened Wrappers
  import opened PortAngles
  import opened PortTemplates

  datatype NodePosition = NodePosition(x: real, y: real)

  /** A port group inside the node's SVG group, parsed from a port template. Only its transform changes. */
  class PortElement {
    const portClass: string
    const id: string
    const connectionId: string
    const labelText: string
    var transform: Transform

    constructor (t: PortTemplate)
      ensures portClass == t.portClass && id == t.id && connectionId == t.connectionId
      ensures labelText == t.labelText && transform == t.transform
    {
      portClass, id, connectionId, labelText := t.portClass, t.id, t.connectionId, t.labelText;
      transform := t.transform;
    }
  }

  /**
   * The port groups whose class is `cls`, in document order: what
   * `querySelectorAll("." + cls)` returns as long as no whitespace-separated
   * token of a port id is one of the two port class names (the id is also
   * written into the class list of each port group and of its inner group).
   */
  function WithClass(elements: seq<PortElement>, cls: string): (r: seq<PortElement>)
    ensures forall e | e in r :: e in elements && e.portClass == cls
    ensures forall e | e in elements && e.portClass == cls :: e in r
    ensures forall k | 0 <= k < |r| :: r[k].portClass == cls
    ensures |r| <= |elements|
  {
    if elements == [] then []
    else (if elements[0].portClass == cls then [elements[0]] else []) + WithClass(elements[1..], cls)
  }

  /** No element occurs twice. */
  predicate Distinct(s: seq<PortElement>) {
    forall i, j :: 0 <= i < j < |s| ==> s[i] != s[j]
  }

  lemma {:induction false} WithClassDistinct(s: seq<PortElement>, cls: string)
    requires Distinct(s)
    ensures Distinct(WithClass(s, cls))
  {
    if s != [] {
      WithClassDistinct(s[1..], cls);
      assert s[0] !in s[1..] by {
        forall k | 0 <= k < |s[1..]|
          ensures s[1..][k] != s[0]
        {
          assert s[k + 1] != s[0];
        }
      }
    }
  }

  /** The element at index `k` of `els` sits at the angle `distributePorts` gives index `k` of `|els|` on `side`. */
  ghost predicate SideDistributed(els: seq<PortElement>, side: Side)
    reads els
  {
    forall k :: 0 <= k < |els| ==> els[k].transform == OuterEdge(SideAngle(side, k, |els|), Radius)
  }

  /**
   * `movePortToOuterEdge(el, angle, radius)`: replaces the element's transform
   * by the placement at `angle` degrees on the circle of `radius`.
   */
  method MovePortToOuterEdge(el: PortElement, angle: real, radius: real)
    modifies el
    ensures el.transform == OuterEdge(angle, radius)
  {
    el.transform := OuterEdge(angle, radius);
  }

  class GraphNode {
    var position: NodePosition
    var dataModel: NodeModel
    /** The port groups of the node's SVG group, in document order. */
    var ports: seq<PortElement>

    /** Each port group occurs once, and is classed as an input or an output port. */
    ghost predicate Valid()
      reads this
    {
      Distinct(ports) &&
      forall e :: e in ports ==> e.portClass == InputPortClass || e.portClass == OutputPortClass
    }

    /** The output port groups, in document order. */
    function Outputs(): seq<PortElement>
      reads this
    {
      WithClass(ports, OutputPortClass)
    }

    /** The input port groups, in document order. */
    function Inputs(): seq<PortElement>
      reads this
    {
      WithClass(ports, InputPortClass)
    }

    /**
     * Every output group sits at the angle `distributePorts` gives its index
     * among the outputs, and likewise every input group.
     */
    ghost predicate Distributed()
      reads this, Outputs(), Inputs()
    {
      SideDistributed(Outputs(), Output) && SideDistributed(Inputs(), Input)
    }

    /** `new GraphNode(position, dataModel, paper)`: coordinates missing from the partial position stay 0. */
    constructor (x: Option<real>, y: Option<real>, dataModel: NodeModel)
      ensures Valid() && ports == []
      ensures position == NodePosition(x.GetOr(0.0), y.GetOr(0.0)) && this.dataModel == dataModel
    {
      position := NodePosition(x.GetOr(0.0), y.GetOr(0.0));
      this.dataModel := dataModel;
      ports := [];
    }

    /**
     * `distributePorts()`: the output groups, in document order, are placed at
     * OutputAngle(i, n) and the input groups at InputAngle(i, n), each side
     * counted on its own. The groups themselves and their order do not change.
     */
    method DistributePorts()
      requires Valid()
      modifies ports
      ensures Valid() && Distributed()
    {
      var outputs := WithClass(ports, OutputPortClass);
      var inputs := WithClass(ports, InputPortClass);
      WithClassDistinct(ports, OutputPortClass);
      WithClassDistinct(ports, InputPortClass);

      for i := 0 to |outputs|
        invariant forall k :: 0 <= k < i ==> outputs[k].transform == OuterEdge(OutputAngle(k, |outputs|), Radius)
      {
        var rotationAngle := OutputAngle(i, |outputs|);
        MovePortToOuterEdge(outputs[i], rotationAngle, Radius);
      }

      for i := 0 to |inputs|
        invariant forall k :: 0 <= k < |outputs| ==> outputs[k].transform == OuterEdge(OutputAngle(k, |outputs|), Radius)
        invariant forall k :: 0 <= k < i ==> inputs[k].transform == OuterEdge(InputAngle(k, |inputs|), Radius)
      {
        var rotationAngle := InputAngle(i, |inputs|);
        MovePortToOuterEdge(inputs[i], rotationAngle, Radius);
      }
    }

    /**
     * `addPort(port)`: appends a port group built by `makePortTemplate(port)`.
     * The type argument is not passed there, so the group is classed
     * `output-port` whichever side the port belongs to; then every port of the
     * node is redistributed.
     */
    method AddPort(port: Port)
      requires Valid()
      modifies this, ports
      ensures Valid() && Distributed()
      ensures position == old(position) && dataModel == old(dataModel)
      ensures |ports| == |old(ports)| + 1 && ports[..|old(ports)|] == old(ports)
      ensures var e := ports[|old(ports)|];
        fresh(e) && e.portClass == OutputPortClass && e.id == port.id && e.connectionId == port.connectionId &&
        e.labelText == DisplayLabel(port.labelText, port.id)
      ensures Outputs() == WithClass(old(ports), OutputPortClass) + [ports[|old(ports)|]]
      ensures Inputs() == WithClass(old(ports), InputPortClass)
    {
      var template := MakePortTemplate(port, None, Identity);
      var el := new PortElement(template);
      AppendOutputPort(ports, el);
      ports := ports + [el];
      DistributePorts();
    }
  }

  /** Appending an output port group extends the outputs by it and leaves the inputs as they were. */
  lemma AppendOutputPort(ports: seq<PortElement>, el: PortElement)
    requires el.portClass == OutputPortClass
    ensures WithClass(ports + [el], OutputPortClass) == WithClass(ports, OutputPortClass) + [el]
    ensures WithClass(ports + [el], InputPortClass) == WithClass(ports, InputPortClass)
  {
    assert WithClass([el], OutputPortClass) == [el] && WithClass([el], InputPortClass) == [] by {
      assert [el][1..] == [];
    }
    WithClassAppend(ports, [el], OutputPortClass);
    WithClassAppend(ports, [el], InputPortClass);
  }

  lemma {:induction false} WithClassAppend(a: seq<PortElement>, b: seq<PortElement>, cls: string)
    ensures WithClass(a + b, cls) == WithClass(a, cls) + WithClass(b, cls)
  {
    if a == [] {
      assert a + b == b;
    } else {
      assert (a + b)[1..] == a[1..] + b;
      WithClassAppend(a[1..], b, cls);
    }
  }
}
