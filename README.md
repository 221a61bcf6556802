# Radial port layout and nested-offset resolution of cwl-svg

This project models, in Dafny, the two pieces of geometry at the heart of the
cwl-svg workflow renderer:

- **Radial port layout of a graph node** (`GraphNode`, `src/graph/graph-node.ts`).
  Each node is a circle. Its output ports are spread over the 140-degree arc
  centred on 0 degrees, its input ports over the 140-degree arc centred on
  180 degrees. Port `i` of the `n` ports of a side sits at
  `-70 + (i+1)*140/(n+1)` degrees (outputs) or `250 - (i+1)*140/(n+1)` degrees
  (inputs). The formula exists twice in the code: in the loops of
  `distributePorts`, and in `createPortMatrix`, which `makeTemplate` uses after
  keeping only the visible ports and sorting them by descending id.
- **`Geometry.getTransformToElement`** (`src/utils/geometry.ts`). It walks each
  element's ancestors up to the root `<svg>`. On the way it sums the `e`/`f`
  translation entries of each element's first transform. It then returns the
  inverse of the translation by `to - from`.

Modules, one per concern:

| file | module | what it holds |
|---|---|---|
| `wrappers.dfy` | `Wrappers` | `Option`, for JavaScript values that may be undefined |
| `string_order.dfy` | `StringOrder` | lexicographic order on ids, the stand-in for `localeCompare` |
| `port_angles.dfy` | `PortAngles` | the angle formulas, `createPortMatrix`, symmetry and monotonicity lemmas |
| `port_templates.dfy` | `PortTemplates` | data model, `makePortTemplate`, the filter/sort/index pipeline of `makeTemplate`, `patchModelPorts` |
| `graph_node.dfy` | `GraphNodes` | class `GraphNode`: port groups whose transforms `distributePorts` rewrites in place; `addPort` |
| `geometry.dfy` | `Geometry` | SVG matrices, the ancestor chain, `getPosition`, `getTransformToElement` |

Modelling choices:

- Angles are exact `real`s. A port's placement matrix (rotate, translate, rotate
  back) is represented by the value `OuterEdge(angle, radius)`, not by its
  cosine/sine entries.
- The node kind (`instanceof StepModel` etc.) is a tagged datatype: `Step`,
  `InputParameter` or `OutputParameter`. The `in`/`out` lists that may be
  undefined are `Option<seq<Port>>`, read with `|| []`.
- `label || id` falls back to the id when the label is absent OR empty, as
  JavaScript's `||` does.
- `addPort` calls `makePortTemplate(port)` without a type argument. The new
  group is therefore always classed `output-port`, so `distributePorts` lays it
  out as an output. `GraphNode.AddPort` models this as written.
- The DOM queries of `distributePorts` become a field `ports: seq<PortElement>`:
  the port groups of the node's SVG group, in document order. Each
  `PortElement` is an object whose `transform` field is overwritten in place.
- An element of the scene is `Svg` (the root `<svg>`, the element without an
  `ownerSVGElement`) or `Group(transforms, parent)`. Every chain therefore ends
  at an `<svg>` root. In the source, an element with no `<svg>` ancestor also
  has no `ownerSVGElement`; `getPosition` stops there and calls
  `createSVGMatrix` on an element that is not an `<svg>`, which throws. The
  model has no value for such an element.
- `transform.baseVal.getItem(0)` throws on an empty transform list, and
  `from.ownerSVGElement.createSVGMatrix()` throws when `from` is the root. Both
  become `None`. So does `SVGMatrix.inverse()` of a singular matrix, which
  cannot arise here.
- Where a point of an element's frame lies on the canvas (`CanvasPoint`) uses
  each element's WHOLE transform list. `getTransformToElement` reads only the
  `e` and `f` of each first transform. The two agree when every element on
  both chains carries exactly one pure translation, as the port and node
  groups of this renderer do. `Geometry.RotatedGroupNotConverted` shows that
  they disagree once an ancestor rotates.

Ordering and redistribution in `addPort`, as the code has them:

- The comment at src/graph/graph-node.ts:193 asks for ports sorted in reverse
  by id, but the sort under it (line 194) is commented out. `distributePorts`
  therefore places port groups in document order. Only `makeTemplate` sorts.
- `addPort` calls `makePortTemplate(port)` with no type (line 189), so every
  added group is classed `output-port`.
- `addPort` then calls `distributePorts()` (line 196), which repositions the
  groups of both sides.

## Model

| member | source | states |
|---|---|---|
| `PortAngles.OutputAngle` | src/graph/graph-node.ts:239-248 | output port i of n (i < n) lies strictly between -70 and 70 degrees |
| `PortAngles.InputAngle` | src/graph/graph-node.ts:254-261 | input port i of n (i < n) lies strictly between 110 and 250 degrees (start term 180 - (140 / -2) = 250) |
| `PortAngles.PortMatrix` | src/graph/graph-node.ts:267-297 | createPortMatrix places port i of n at exactly the angle distributePorts assigns index i of n on that side, at the given radius |
| `PortAngles.OutputAngleStep` | src/graph/graph-node.ts:240-248 | consecutive output ports are exactly 140/(n+1) degrees apart |
| `PortAngles.OutputAngleIncreasing` | src/graph/graph-node.ts:240-248 | output angles strictly increase with the index |
| `PortAngles.InputMirrorsOutput` | src/graph/graph-node.ts:240-261 | the input angle of index i is 180 minus the output angle of index i |
| `PortAngles.InputAngleDecreasing` | src/graph/graph-node.ts:255-261 | input angles strictly decrease with the index, by 140/(n+1) per port |
| `PortAngles.OutputAngleSymmetric` | src/graph/graph-node.ts:240-248 | output ports i and n-1-i have opposite angles (symmetric about 0 degrees) |
| `PortAngles.InputAngleSymmetric` | src/graph/graph-node.ts:255-261 | input ports i and n-1-i have angles summing to 360 (symmetric about 180 degrees) |
| `PortAngles.MiddlePortCentred` | src/graph/graph-node.ts:240-261 | with an odd count, the middle port sits at 0 (output) or 180 (input) degrees |
| `PortAngles.SmallLayouts` | src/graph/graph-node.ts:240-261 | 3 output ports sit at -35, 0, 35; 2 input ports at 610/3 and 470/3 degrees |
| `StringOrder.StrLeqReflexive` | src/graph/graph-node.ts:82 | every id compares equal to itself |
| `StringOrder.StrLeqTotal` | src/graph/graph-node.ts:82 | any two ids are comparable, so the descending sort is well defined |
| `StringOrder.StrLeqTransitive` | src/graph/graph-node.ts:82 | the id order is transitive |
| `StringOrder.StrLeqAntisymmetric` | src/graph/graph-node.ts:82 | ids that compare equal both ways are equal |
| `PortTemplates.DisplayLabel` | src/graph/graph-node.ts:170 | the shown label is the label when present and non-empty, otherwise the id; it is empty only if the id is |
| `PortTemplates.PortClass` | src/graph/graph-node.ts:169 | class is input-port exactly when the type is input; output-port otherwise, including a missing type argument |
| `PortTemplates.MakePortTemplate` | src/graph/graph-node.ts:162-185 | a port's markup carries its id, connection id, given transform, the class PortClass gives its type (input-port exactly for input) and its display label |
| `PortTemplates.VisiblePorts` | src/graph/graph-node.ts:80-81 | keeps exactly the ports with isVisible, never more ports than given |
| `PortTemplates.VisiblePortsAppend` | src/graph/graph-node.ts:80-81 | filtering a concatenation is concatenating the filtered parts |
| `PortTemplates.InsertById` | src/graph/graph-node.ts:82 | inserting a port adds exactly that port to the multiset of ports |
| `PortTemplates.InsertByIdDescending` | src/graph/graph-node.ts:82 | inserting into a descending sequence keeps it descending |
| `PortTemplates.SortByIdDescending` | src/graph/graph-node.ts:82 | the sort returns a permutation of its input |
| `PortTemplates.SortByIdDescendingSorted` | src/graph/graph-node.ts:82 | the sort returns ids in descending order (index 0 holds the greatest id) |
| `PortTemplates.SortExample` | src/graph/graph-node.ts:82 | ports with ids b, a, c are laid out as c, b, a |
| `PortTemplates.DescendingOrderUnique` | src/graph/graph-node.ts:82 | two descending arrangements of the same ports with unique ids are identical |
| `PortTemplates.SortOrderIndependent` | src/graph/graph-node.ts:82 | with unique ids, the sorted order does not depend on the input order |
| `PortTemplates.PlacePorts` | src/graph/graph-node.ts:83-87 | the port at index k of n gets the distributePorts angle of index k of n on its side |
| `PortTemplates.LayoutPorts` | src/graph/graph-node.ts:80-98 | the result is PlacePorts of some arrangement of exactly the visible ports (same multiset) in descending id order; one template per visible port; n is the visible count; each template has its side's class and angle; ids descend along the result |
| `PortTemplates.SinglePortLayout` | src/graph/graph-node.ts:80-98 | a side with one visible port lays it out alone, at the middle angle of that side |
| `PortTemplates.LayoutPortsWithinArc` | src/graph/graph-node.ts:80-98 | every laid-out port, including the only one of a one-port side, lies strictly inside its side's arc; of two ports the later one lies further along it (strict angular order) |
| `PortTemplates.HiddenPortIgnored` | src/graph/graph-node.ts:80-87 | inserting a hidden port anywhere leaves the whole layout of that side unchanged |
| `PortTemplates.LayoutOrderIndependent` | src/graph/graph-node.ts:80-98 | with unique ids, reordering the visible ports in the model moves none of them |
| `PortTemplates.NodeTypeClass` | src/graph/graph-node.ts:73-78 | node class is input for a workflow input parameter, output for a workflow output parameter, step otherwise |
| `PortTemplates.MakeTemplate` | src/graph/graph-node.ts:71-115 | node template: id, connection id, position, class, title by label fallback; inputs are the layout of the model's in-ports on the input side and outputs that of its out-ports on the output side, hence as many as visible ports, each at its side's angle |
| `PortTemplates.PatchModelPorts` | src/graph/graph-node.ts:311-324 | input parameter: out becomes one visible port with the model's id and connectionId; output parameter: in likewise; other fields kept; a step is returned unchanged |
| `PortTemplates.PatchedParameterLayout` | src/graph/graph-node.ts:311-324 | a patched input parameter is drawn with one output port at 0 degrees, a patched output parameter with one input port at 180 degrees |
| `GraphNodes.WithClass` | src/graph/graph-node.ts:232-233 | the query returns exactly the port groups of that class, in document order |
| `GraphNodes.AppendOutputPort` | src/graph/graph-node.ts:187-196 | appending an output-classed group extends the outputs by it and leaves the inputs unchanged |
| `GraphNodes.MovePortToOuterEdge` | src/graph/graph-node.ts:214-224 | the element's transform becomes the placement at the given angle and radius |
| `GraphNodes.GraphNode.constructor` | src/graph/graph-node.ts:21-32 | position takes the given coordinates, missing ones stay 0; the node starts with no port groups |
| `GraphNodes.GraphNode.DistributePorts` | src/graph/graph-node.ts:230-265 | output group i of n (document order) is placed at OutputAngle(i, n), input group i of n at InputAngle(i, n), each side counted separately |
| `GraphNodes.GraphNode.AddPort` | src/graph/graph-node.ts:187-206 | appends one fresh group classed output-port with the port's id and display label, then every group is redistributed |
| `Geometry.Inverse` | src/utils/geometry.ts:32 | inverse() exists exactly for non-singular matrices, and multiplying by it gives the identity |
| `Geometry.TranslationInverse` | src/utils/geometry.ts:28-32 | the inverse of a pure translation negates e and f |
| `Geometry.GetPosition` | src/utils/geometry.ts:9-23 | succeeds exactly when every element below the root has a transform; returns a pure translation by the accumulators plus the sum of e (and of f) over the chain, root excluded |
| `Geometry.RelativeOffset` | src/utils/geometry.ts:25-30 | before inversion, the matrix is the translation by to minus from; it fails when from is the root |
| `Geometry.GetTransformToElement` | src/utils/geometry.ts:8-33 | the result is the translation by from minus to, under the same failure conditions |
| `Geometry.ApplySingle` | src/utils/geometry.ts:19 | a transform list of one matrix applies that matrix |
| `Geometry.CanvasPointIsOffset` | src/utils/geometry.ts:19-21 | on a chain where every element carries one pure translation, the canvas position of a point is the point moved by the chain's summed e and f |
| `Geometry.FromFrameToFrame` | src/utils/geometry.ts:8-33 | when every element on both chains carries one pure translation (and from is below the root), the result exists and maps a point of from's frame to the point of to's frame at the same place on the canvas |
| `Geometry.RotatedGroupResolvesToIdentity` | src/utils/geometry.ts:19-32 | a group rotated a quarter turn under the root has no translation, so it resolves against the root to the identity |
| `Geometry.RotatedGroupCanvasPoint` | src/utils/geometry.ts:19-21 | that group's point (1, 0) lies at (0, 1) on the canvas |
| `Geometry.RotatedGroupNotConverted` | src/utils/geometry.ts:8-33 | without the pure-translation condition the conversion fails: for the rotated group, the result does not carry (1, 0) to the same canvas point |
| `Geometry.SameOffsetIsIdentity` | src/utils/geometry.ts:28-32 | two elements with equal summed offsets resolve to the identity |
| `Geometry.NestedExample` | src/utils/geometry.ts:25-32 | offsets (10, 0) and (10, 20) give the relative offset (0, 20), returned as its inverse (0, -20) |
| `Geometry.OnlyTranslationRead` | src/utils/geometry.ts:19 | chains that agree on e/f of each first transform give the same position; a-d and later transforms never matter |
| `Geometry.SameTranslationsSameOffset` | src/utils/geometry.ts:19-30 | chains that agree on e/f of each first transform give the same relative offset |
| `Geometry.TransformReadsOnlyTranslation` | src/utils/geometry.ts:19-32 | hence the resolved transform depends only on those translations |

## Left out

- SVG markup text: the string templates of `makeTemplate` and `makePortTemplate` and the matrices' `.toString()`. A template is the record of the values its markup embeds.
- The placement matrix entries: `movePortToOuterEdge` and `createPortMatrix` compose rotate/translate/rotate, which needs cosine, sine and floating point. A placement is kept as its angle and radius.
- Floating point: angles and offsets are exact reals. The source's doubles round values such as 140/3.
- `makeIconFragment` and the icon markup of `draw()`: a lookup of constant image strings. The rest of `draw()` (Snap DOM calls, logging) and `createGhostIO` (DOM element creation) are left out for the same reason.
- The `|| 'matrix(1, 0, 0, 1, 0, 0)'` fallback inside `makePortTemplate`: the transforms passed are never empty strings.
- Creation of the node's SVG group: `GraphNode` declares `group` without an initializer (src/graph/graph-node.ts:17) and its constructor never assigns it, so where the group is created lies outside the modelled files. That a new `GraphNode` has no port groups (`ports == []` in the constructor) is an assumption of the model; `DistributePorts` and `AddPort` accept any port list that satisfies `Valid()`. `paper` is not modelled.
- GraphNodes.GraphNode.constructor: `Object.assign(this.position, position)` (src/graph/graph-node.ts:31) also copies a key present with the value `undefined`, so `{x: undefined, y: 5}` leaves `position.x` undefined; the model's `Option<real>` treats such a coordinate as absent and keeps 0.
- The commented-out auto-scaling of crowded nodes in `addPort`: dead code.
- `Geometry.distance`: a floating-point square root.
- `Object.create(model)` in `patchModelPorts` returns an object whose prototype is the model; the model returns a copy with the same field values, so prototype sharing is not captured.
- StringOrder.StrLeq: `localeCompare` depends on the locale; the model compares ids as plain character sequences.
- Elements with no `<svg>` ancestor: `getPosition` reaches an element without `ownerSVGElement` that is not an `<svg>` and throws on `createSVGMatrix`; every chain of the model ends at an `<svg>` root, so this failure is not represented.
- GraphNodes.WithClass: a port id is spliced into the whitespace-separated class list of its group and of its inner `io-port` group (src/graph/graph-node.ts:172 and 176), so an id with a token `input-port` (such as `a input-port`) makes `querySelectorAll(".input-port")` also return an output group and inner groups, and likewise for `output-port`; the model assumes no whitespace-separated token of a port id is `input-port` or `output-port`.
