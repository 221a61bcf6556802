/**
 * `Geometry.getTransformToElement` (src/utils/geometry.ts): the offset between
 * two elements nested in an SVG scene, found by summing the translation of
 * every element on each one's way up to the root `<svg>`.
 *
 * Matrices are SVG's `matrix(a b c d e f)` form (section 7.4 of SVG 1.1),
 * mapping a point (x, y) to (a*x + c*y + e, b*x + d*y + f); `e` and `f` are
 * its translation.
 */
module Geometry {
  import opened Wrappers

  datatype Matrix = Matrix(a: real, b: real, c: real, d: real, e: real, f: real)

  /** What `createSVGMatrix()` returns. */
  const IdentityMatrix: Matrix := Matrix(1.0, 0.0, 0.0, 1.0, 0.0, 0.0)

  /** The pure translation by (e, f). */
  function Translation(e: real, f: real): Matrix {
    Matrix(1.0, 0.0, 0.0, 1.0, e, f)
  }

  datatype Point = Point(x: real, y: real)

  /** The image of `p` under `m`. */
  function Apply(m: Matrix, p: Point): Point {
    Point(m.a * p.x + m.c * p.y + m.e, m.b * p.x + m.d * p.y + m.f)
  }

  /** The matrix product `m * n`: applying it is applying `n`, then `m`. */
  function Multiply(m: Matrix, n: Matrix): (r: Matrix)
    ensures forall p :: Apply(r, p) == Apply(m, Apply(n, p))
  {
    Matrix(
      m.a * n.a + m.c * n.b, m.b * n.a + m.d * n.b,
      m.a * n.c + m.c * n.d, m.b * n.c + m.d * n.d,
      m.a * n.e + m.c * n.f + m.e, m.b * n.e + m.d * n.f + m.f)
  }

  function Determinant(m: Matrix): real {
    m.a * m.d - m.b * m.c
  }

  /**
   * `SVGMatrix.inverse()`, which throws when the matrix is not invertible
   * (`None` here).
   */
  function Inverse(m: Matrix): (r: Option<Matrix>)
    ensures r.Some? <==> Determinant(m) != 0.0
    ensures r.Some? ==> Multiply(m, r.value) == IdentityMatrix
  {
    var det := Determinant(m);
    if det == 0.0 then None
    else
      var inv := Adjugate(m, det);
      InverseIsInverse(m, inv);
      Some(inv)
  }

  /** The candidate inverse of `m`, whose determinant is `det`. */
  function Adjugate(m: Matrix, det: real): Matrix
    requires det != 0.0
  {
    Matrix(m.d / det, -m.b / det, -m.c / det, m.a / det,
           (m.c * m.f - m.d * m.e) / det, (m.b * m.e - m.a * m.f) / det)
  }

  lemma InverseIsInverse(m: Matrix, inv: Matrix)
    requires Determinant(m) != 0.0 && inv == Adjugate(m, Determinant(m))
    ensures Multiply(m, inv) == IdentityMatrix
  {
    var det := Determinant(m);
    InverseLinearPart(m, det);
    InverseTranslationPart(m, det);
  }

  lemma InverseLinearPart(m: Matrix, det: real)
    requires det == Determinant(m) && det != 0.0
    ensures var p := Multiply(m, Adjugate(m, det)); p.a == 1.0 && p.b == 0.0 && p.c == 0.0 && p.d == 1.0
  {
    var k := 1.0 / det;
    var p := Multiply(m, Adjugate(m, det));
    assert det * k == 1.0;
    assert p.a == 1.0 by {
      ScaledSum(m.a, m.d, m.c, -m.b, det, k);
    }
    assert p.b == 0.0 by {
      ScaledSum(m.b, m.d, m.d, -m.b, det, k);
    }
    assert p.c == 0.0 by {
      ScaledSum(m.a, -m.c, m.c, m.a, det, k);
    }
    assert p.d == 1.0 by {
      ScaledSum(m.b, -m.c, m.d, m.a, det, k);
    }
  }

  lemma InverseTranslationPart(m: Matrix, det: real)
    requires det == Determinant(m) && det != 0.0
    ensures var p := Multiply(m, Adjugate(m, det)); p.e == 0.0 && p.f == 0.0
  {
  }

  /** x * (y / det) + u * (v / det) == (x * y + u * v) * k, where k = 1 / det. */
  lemma ScaledSum(x: real, y: real, u: real, v: real, det: real, k: real)
    requires det != 0.0 && k == 1.0 / det
    ensures x * (y / det) + u * (v / det) == (x * y + u * v) * k
  {
    assert y / det == y * k;
    assert v / det == v * k;
  }

  /** A pure translation is inverted by negating its translation. */
  lemma TranslationInverse(e: real, f: real)
    ensures Inverse(Translation(e, f)) == Some(Translation(-e, -f))
  {
    var m := Translation(e, f);
    assert Determinant(m) == 1.0;
    assert Adjugate(m, 1.0) == Translation(-e, -f);
  }

  /**
   * An element of the scene, seen from below: `Svg` is the root `<svg>` (the
   * element without an `ownerSVGElement`), `Group` an element inside it, with
   * its transform list and its parent node. Every chain ends at an `<svg>`
   * root; an element with no `<svg>` ancestor, on which the source calls
   * `createSVGMatrix` and throws, has no counterpart here.
   */
  datatype Element = Svg | Group(transforms: seq<Matrix>, parent: Element)

  /** Every element below the root on the chain has a first transform to read. */
  predicate HasTransforms(node: Element) {
    match node
    case Svg => true
    case Group(ts, parent) => |ts| > 0 && HasTransforms(parent)
  }

  /** The sum of `e` over the first transforms of the chain from `node` up to, but excluding, the root. */
  function OffsetE(node: Element): real {
    match node
    case Svg => 0.0
    case Group(ts, parent) => (if |ts| > 0 then ts[0].e else 0.0) + OffsetE(parent)
  }

  /** The sum of `f` over the first transforms of the chain from `node` up to, but excluding, the root. */
  function OffsetF(node: Element): real {
    match node
    case Svg => 0.0
    case Group(ts, parent) => (if |ts| > 0 then ts[0].f else 0.0) + OffsetF(parent)
  }

  /**
   * `getPosition(node, addE, addF)`: at the root, a fresh identity matrix
   * whose `e` and `f` are the accumulated sums; below it, the element's own
   * `e` and `f` (of `transform.baseVal.getItem(0)`) are added and the walk
   * continues with the parent. `getItem(0)` throws on an empty transform
   * list (`None` here).
   */
  function GetPosition(node: Element, addE: real, addF: real): (r: Option<Matrix>)
    ensures r.Some? <==> HasTransforms(node)
    ensures r.Some? ==> r.value == Translation(addE + OffsetE(node), addF + OffsetF(node))
  {
    match node
    case Svg =>
      Some(IdentityMatrix.(e := addE, f := addF))
    case Group(ts, parent) =>
      if |ts| == 0 then None
      else GetPosition(parent, ts[0].e + addE, ts[0].f + addF)
  }

  /**
   * The matrix `getTransformToElement` builds before inverting it: the
   * positions of `to` and of `from`, then a fresh matrix (created through
   * `from.ownerSVGElement`, which the root lacks) translating by `to - from`.
   */
  function RelativeOffset(from: Element, to: Element): (r: Option<Matrix>)
    ensures r.Some? <==> HasTransforms(from) && HasTransforms(to) && from.Group?
    ensures r.Some? ==> r.value == Translation(OffsetE(to) - OffsetE(from), OffsetF(to) - OffsetF(from))
  {
    var toPosition := GetPosition(to, 0.0, 0.0);
    var fromPosition := GetPosition(from, 0.0, 0.0);
    if toPosition.None? || fromPosition.None? || from.Svg? then None
    else
      Some(IdentityMatrix.(e := toPosition.value.e - fromPosition.value.e,
                           f := toPosition.value.f - fromPosition.value.f))
  }

  /** `getTransformToElement(from, to)`: the inverse of the relative offset, itself a pure translation. */
  function GetTransformToElement(from: Element, to: Element): (r: Option<Matrix>)
    ensures r.Some? <==> HasTransforms(from) && HasTransforms(to) && from.Group?
    ensures r.Some? ==> r.value == Translation(OffsetE(from) - OffsetE(to), OffsetF(from) - OffsetF(to))
  {
    match RelativeOffset(from, to)
    case None => None
    case Some(result) =>
      TranslationInverse(result.e, result.f);
      Inverse(result)
  }

  /**
   * A transform list applied to a point: the list `[t0, t1, ...]` stands for
   * the product `t0 * t1 * ...`, so the last transform is applied first.
   */
  function ApplyList(ts: seq<Matrix>, p: Point): Point
    decreases |ts|
  {
    if ts == [] then p else Apply(ts[0], ApplyList(ts[1..], p))
  }

  /** A one-element list applies its only transform. */
  lemma ApplySingle(ts: seq<Matrix>, p: Point)
    requires |ts| == 1
    ensures ApplyList(ts, p) == Apply(ts[0], p)
  {
    assert ts[1..] == [];
  }

  /**
   * Where point `p` of `node`'s frame lies on the root canvas: each element's
   * whole transform list applied in turn on the way up.
   */
  function CanvasPoint(node: Element, p: Point): Point {
    match node
    case Svg => p
    case Group(ts, parent) => CanvasPoint(parent, ApplyList(ts, p))
  }

  /** Every element below the root carries exactly one transform, and it is a pure translation. */
  predicate PureTranslations(node: Element) {
    match node
    case Svg => true
    case Group(ts, parent) =>
      |ts| == 1 && ts[0].a == 1.0 && ts[0].b == 0.0 && ts[0].c == 0.0 && ts[0].d == 1.0 &&
      PureTranslations(parent)
  }

  /** On a chain of pure translations, the canvas position is the point moved by the chain's summed offset. */
  lemma {:induction false} CanvasPointIsOffset(node: Element, p: Point)
    requires PureTranslations(node)
    ensures CanvasPoint(node, p) == Point(p.x + OffsetE(node), p.y + OffsetF(node))
  {
    match node
    case Svg =>
    case Group(ts, parent) =>
      var q := Apply(ts[0], p);
      ApplySingle(ts, p);
      assert q == Point(p.x + ts[0].e, p.y + ts[0].f);
      CanvasPointIsOffset(parent, q);
  }

  /**
   * The returned matrix converts coordinates when every element on both
   * chains is one pure translation: a point given in `from`'s frame, mapped by
   * it, is the point of `to`'s frame that lies at the same place of the canvas.
   */
  lemma FromFrameToFrame(from: Element, to: Element, p: Point)
    requires from.Group? && PureTranslations(from) && PureTranslations(to)
    ensures GetTransformToElement(from, to).Some?
    ensures CanvasPoint(to, Apply(GetTransformToElement(from, to).value, p)) == CanvasPoint(from, p)
  {
    PureTranslationsHaveTransforms(from);
    PureTranslationsHaveTransforms(to);
    var q := Apply(GetTransformToElement(from, to).value, p);
    CanvasPointIsOffset(to, q);
    CanvasPointIsOffset(from, p);
  }

  lemma {:induction false} PureTranslationsHaveTransforms(node: Element)
    requires PureTranslations(node)
    ensures HasTransforms(node)
  {
    match node
    case Svg =>
    case Group(_, parent) => PureTranslationsHaveTransforms(parent);
  }

  /** A group rotated by a quarter turn directly under the root carries no translation, so it resolves to the identity. */
  lemma RotatedGroupResolvesToIdentity(from: Element)
    requires from == Group([Matrix(0.0, 1.0, -1.0, 0.0, 0.0, 0.0)], Svg)
    ensures GetTransformToElement(from, Svg) == Some(IdentityMatrix)
  {
    assert OffsetE(from) == 0.0 && OffsetF(from) == 0.0;
    assert HasTransforms(from);
    assert Translation(0.0, 0.0) == IdentityMatrix;
  }

  /** The rotated group's point (1, 0) lies at (0, 1) on the canvas. */
  lemma RotatedGroupCanvasPoint(from: Element)
    requires from == Group([Matrix(0.0, 1.0, -1.0, 0.0, 0.0, 0.0)], Svg)
    ensures CanvasPoint(from, Point(1.0, 0.0)) == Point(0.0, 1.0)
  {
    ApplySingle(from.transforms, Point(1.0, 0.0));
  }

  /**
   * Without the pure-translation condition the conversion fails: the rotated
   * group above resolves to the identity, yet the identity does not carry its
   * point (1, 0) to the same place of the canvas.
   */
  lemma RotatedGroupNotConverted(from: Element)
    requires from == Group([Matrix(0.0, 1.0, -1.0, 0.0, 0.0, 0.0)], Svg)
    ensures GetTransformToElement(from, Svg).Some?
    ensures CanvasPoint(Svg, Apply(GetTransformToElement(from, Svg).value, Point(1.0, 0.0))) != CanvasPoint(from, Point(1.0, 0.0))
  {
    RotatedGroupResolvesToIdentity(from);
    RotatedGroupCanvasPoint(from);
    assert Apply(IdentityMatrix, Point(1.0, 0.0)) == Point(1.0, 0.0);
  }

  /** Two elements whose chains add up to the same offset resolve to the identity. */
  lemma SameOffsetIsIdentity(from: Element, to: Element)
    requires from.Group? && HasTransforms(from) && HasTransforms(to)
    requires OffsetE(from) == OffsetE(to) && OffsetF(from) == OffsetF(to)
    ensures GetTransformToElement(from, to) == Some(IdentityMatrix)
  {
  }

  /** An element offset by (10, 0) resolved against one offset by (10, 20): the inverse of the offset (0, 20). */
  lemma NestedExample(m1: Matrix, m2: Matrix)
    requires m1.e == 10.0 && m1.f == 0.0 && m2.e == 10.0 && m2.f == 20.0
    ensures GetTransformToElement(Group([m1], Svg), Group([m2], Svg)) == Some(Translation(0.0, -20.0))
  {
  }

  /** Two chains that agree, element by element, on the presence and on the `e` and `f` of the first transform. */
  predicate SameTranslations(m: Element, n: Element) {
    match m
    case Svg => n.Svg?
    case Group(ts, parent) =>
      n.Group? && (|ts| > 0 <==> |n.transforms| > 0) &&
      (|ts| > 0 ==> ts[0].e == n.transforms[0].e && ts[0].f == n.transforms[0].f) &&
      SameTranslations(parent, n.parent)
  }

  /** Only translation is read: the `a`-`d` entries, and every transform after the first, never matter. */
  lemma {:induction false} OnlyTranslationRead(m: Element, n: Element, addE: real, addF: real)
    requires SameTranslations(m, n)
    ensures GetPosition(m, addE, addF) == GetPosition(n, addE, addF)
  {
    match m
    case Svg =>
    case Group(ts, parent) =>
      if |ts| > 0 {
        OnlyTranslationRead(parent, n.parent, ts[0].e + addE, ts[0].f + addF);
      }
  }

  /** Chains with the same translations have the same shape and the same positions. */
  lemma SameTranslationsSameOffset(from: Element, to: Element, from': Element, to': Element)
    requires SameTranslations(from, from') && SameTranslations(to, to')
    ensures RelativeOffset(from, to) == RelativeOffset(from', to')
  {
    OnlyTranslationRead(from, from', 0.0, 0.0);
    OnlyTranslationRead(to, to', 0.0, 0.0);
    assert from.Group? <==> from'.Group?;
  }

  /** Hence the resolved transform depends only on the translations along both chains. */
  lemma TransformReadsOnlyTranslation(from: Element, to: Element, from': Element, to': Element)
    requires SameTranslations(from, from') && SameTranslations(to, to')
    ensures GetTransformToElement(from, to) == GetTransformToElement(from', to')
  {
    SameTranslationsSameOffset(from, to, from', to');
  }
}
