/**
 * Radial port placement of a graph node (src/graph/graph-node.ts).
 *
 * Each side of a node spreads its ports evenly over an arc of 140 degrees:
 * the output side is centred on 0 degrees (the node's +x axis), the input side
 * on 180 degrees. A port of index `i` among `n` ports of its side sits
 * `(i + 1)` steps of `140 / (n + 1)` degrees into the arc, so no port touches
 * the ends of the arc and no two coincide.
 *
 * The source writes the formula twice: in the loops of `distributePorts`
 * (modelled by OutputAngle and InputAngle) and in `createPortMatrix`
 * (modelled by PortMatrix, with its own copy of the formula); PortMatrix's
 * own postcondition states that the two copies agree.
 */
module PortAngles {

  /** The side of a node a port sits on. */
  datatype Side = Input | Output

  /** The angular span, in degrees, shared by the ports of one side. */
  const AvailableAngle: real := 140.0

  /** The fixed radius of every node's circle (`GraphNode.radius`). */
  const Radius: real := 40.0

  /**
   * Where a port group is placed. `Identity` is the untransformed
   * `matrix(1, 0, 0, 1, 0, 0)`; `OuterEdge(angle, radius)` stands for the
   * matrix rotate(angle) . translate(radius, 0) . rotate(-angle), which moves
   * the port's origin to the point at `angle` degrees on a circle of `radius`
   * while keeping its label upright. The matrix entries themselves need
   * cosine and sine and are not computed here.
   */
  datatype Transform = Identity | OuterEdge(angle: real, radius: real)

  /** (i + 1) steps of 140 / (n + 1) degrees stay strictly inside the arc when i < n. */
  lemma OffsetInsideArc(i: nat, n: nat)
    ensures i < n ==> 0.0 < (i + 1) as real * AvailableAngle / (n + 1) as real < AvailableAngle
  {
    if i < n {
      var d := (n + 1) as real;
      var x := (i + 1) as real * AvailableAngle;
      assert x < d * AvailableAngle;
      assert x / d < AvailableAngle by {
        assert x / d * d == x;
      }
    }
  }

  /** The angle `distributePorts` gives output port `i` of `n`. */
  function OutputAngle(i: nat, n: nat): (r: real)
    ensures i < n ==> -70.0 < r < 70.0
  {
    OffsetInsideArc(i, n);
    (-AvailableAngle / 2.0) + ((i + 1) as real * AvailableAngle / (n + 1) as real)
  }

  /** The angle `distributePorts` gives input port `i` of `n`; the start term `180 - (140 / -2)` is 250. */
  function InputAngle(i: nat, n: nat): (r: real)
    ensures i < n ==> 110.0 < r < 250.0
  {
    OffsetInsideArc(i, n);
    180.0 - (AvailableAngle / -2.0) - (i + 1) as real * AvailableAngle / (n + 1) as real
  }

  /** The angle of port `i` of `n` on `side`, as `distributePorts` assigns it. */
  function SideAngle(side: Side, i: nat, n: nat): real {
    match side
    case Input => InputAngle(i, n)
    case Output => OutputAngle(i, n)
  }

  /**
   * `createPortMatrix(totalPortLength, portIndex, radius, type)`: computes the
   * output angle, overrides it with the input angle when `type` is input, and
   * places the port at that angle on the circle. The contract states that this
   * second copy of the formula agrees with the one in `distributePorts`.
   */
  function PortMatrix(totalPortLength: nat, portIndex: nat, radius: real, side: Side): (m: Transform)
    ensures m.OuterEdge? && m.radius == radius
    ensures side == Output ==> m.angle == OutputAngle(portIndex, totalPortLength)
    ensures side == Input ==> m.angle == InputAngle(portIndex, totalPortLength)
  {
    var outputAngle := (-AvailableAngle / 2.0) + ((portIndex + 1) as real * AvailableAngle / (totalPortLength + 1) as real);
    var rotationAngle :=
      if side == Input then 180.0 - (AvailableAngle / -2.0) - (portIndex + 1) as real * AvailableAngle / (totalPortLength + 1) as real
      else outputAngle;
    OuterEdge(rotationAngle, radius)
  }

  /** Consecutive output ports are exactly one step of 140 / (n + 1) degrees apart. */
  lemma OutputAngleStep(i: nat, n: nat)
    ensures OutputAngle(i + 1, n) - OutputAngle(i, n) == AvailableAngle / (n + 1) as real
  {
    var d := (n + 1) as real;
    assert (i + 2) as real * AvailableAngle / d == (i + 1) as real * AvailableAngle / d + AvailableAngle / d;
  }

  /** Output angles strictly increase with the index. */
  lemma {:induction false} OutputAngleIncreasing(i: nat, j: nat, n: nat)
    requires i < j
    ensures OutputAngle(i, n) < OutputAngle(j, n)
    decreases j - i
  {
    OutputAngleStep(i, n);
    if i + 1 < j {
      OutputAngleIncreasing(i + 1, j, n);
    }
  }

  /** Each input angle is the mirror image, across the vertical axis, of the output angle of the same index. */
  lemma InputMirrorsOutput(i: nat, n: nat)
    ensures InputAngle(i, n) == 180.0 - OutputAngle(i, n)
  {
  }

  /** Input angles strictly decrease with the index, one step of 140 / (n + 1) degrees at a time. */
  lemma InputAngleDecreasing(i: nat, j: nat, n: nat)
    requires i < j
    ensures InputAngle(j, n) < InputAngle(i, n)
    ensures InputAngle(i, n) - InputAngle(i + 1, n) == AvailableAngle / (n + 1) as real
  {
    InputMirrorsOutput(i, n);
    InputMirrorsOutput(j, n);
    InputMirrorsOutput(i + 1, n);
    OutputAngleIncreasing(i, j, n);
    OutputAngleStep(i, n);
  }

  /** Output ports are symmetric about 0 degrees: port i and port n-1-i have opposite angles. */
  lemma OutputAngleSymmetric(i: nat, n: nat)
    requires i < n
    ensures OutputAngle(i, n) + OutputAngle(n - 1 - i, n) == 0.0
  {
    var d := (n + 1) as real;
    assert (i + 1) as real * AvailableAngle / d + (n - 1 - i + 1) as real * AvailableAngle / d
        == d * AvailableAngle / d;
  }

  /** Input ports are symmetric about 180 degrees. */
  lemma InputAngleSymmetric(i: nat, n: nat)
    requires i < n
    ensures InputAngle(i, n) + InputAngle(n - 1 - i, n) == 360.0
  {
    InputMirrorsOutput(i, n);
    InputMirrorsOutput(n - 1 - i, n);
    OutputAngleSymmetric(i, n);
  }

  /** The middle port of an odd-sized side sits exactly at the side's centre. */
  lemma MiddlePortCentred(n: nat)
    requires n % 2 == 1
    ensures OutputAngle(n / 2, n) == 0.0 && InputAngle(n / 2, n) == 180.0
  {
    OutputAngleSymmetric(n / 2, n);
    InputMirrorsOutput(n / 2, n);
  }

  /** Three output ports sit at -35, 0 and 35 degrees; two input ports at 610/3 and 470/3 degrees. */
  lemma SmallLayouts()
    ensures OutputAngle(0, 3) == -35.0 && OutputAngle(1, 3) == 0.0 && OutputAngle(2, 3) == 35.0
    ensures InputAngle(0, 2) == 610.0 / 3.0 && InputAngle(1, 2) == 470.0 / 3.0
  {
  }
}
