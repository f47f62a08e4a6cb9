/** 2D vector helpers of the sandbox (src/modules/matter/vector.ts), together
    with the few matter-js `Vector` operations they are built from.
    Coordinates are mathematical reals, not IEEE doubles. */
module Vectors {

  /** A matter-js `Vector`: an `{x, y}` pair, a value with no identity. */
  datatype Vector = Vector(x: real, y: real)

  /** A `{width, height}` record, as read from a canvas or a window. */
  datatype Size = Size(width: real, height: real)

  // matter-js Vector.add / sub / mult / div

  function Add(a: Vector, b: Vector): Vector {
    Vector(a.x + b.x, a.y + b.y)
  }

  function Sub(a: Vector, b: Vector): Vector {
    Vector(a.x - b.x, a.y - b.y)
  }

  function Mult(a: Vector, s: real): Vector {
    Vector(a.x * s, a.y * s)
  }

  function Div(a: Vector, s: real): Vector
    requires s != 0.0
  {
    Vector(a.x / s, a.y / s)
  }

  /** `originVector`, the shared (0, 0). */
  const Origin: Vector := Vector(0.0, 0.0)

  /** The origin is the neutral element of the vector arithmetic the rest of the
      code builds on: adding or subtracting it changes nothing. */
  lemma OriginIsNeutral(v: Vector)
    ensures Origin.x == 0.0 && Origin.y == 0.0
    ensures Add(v, Origin) == v && Add(Origin, v) == v
    ensures Sub(v, Origin) == v
    ensures Sub(v, v) == Origin
  {
  }

  /** The `clamp` helper (from ../helpers/clamp, which is not part of this model),
      taken to be `min(max(v, lo), hi)`. */
  function Clamp(v: real, lo: real, hi: real): (r: real)
    ensures lo <= hi ==> lo <= r <= hi
    ensures lo <= v <= hi ==> r == v
    ensures v < lo && lo <= hi ==> r == lo
    ensures hi < v ==> r == hi
    ensures r == v || r == lo || r == hi
  {
    var atLeastLo := if v < lo then lo else v;
    if atLeastLo > hi then hi else atLeastLo
  }

  /** True when each component of `v` lies in the box spanned by `lo` and `hi`. */
  predicate Within(v: Vector, lo: Vector, hi: Vector) {
    lo.x <= v.x <= hi.x && lo.y <= v.y <= hi.y
  }

  /** `clampVector`: each axis is clamped on its own. */
  function ClampVector(v: Vector, lo: Vector, hi: Vector): (r: Vector)
    ensures lo.x <= hi.x ==> lo.x <= r.x <= hi.x
    ensures lo.y <= hi.y ==> lo.y <= r.y <= hi.y
    ensures Within(v, lo, hi) ==> r == v
    ensures lo.x <= v.x <= hi.x ==> r.x == v.x
    ensures lo.y <= v.y <= hi.y ==> r.y == v.y
  {
    Vector(Clamp(v.x, lo.x, hi.x), Clamp(v.y, lo.y, hi.y))
  }

  /** Clamping twice is clamping once, for any bounds: with `lo > hi` every
      value clamps to `hi`, which a second clamp leaves at `hi`. */
  lemma ClampVectorIdempotent(v: Vector, lo: Vector, hi: Vector)
    ensures ClampVector(ClampVector(v, lo, hi), lo, hi) == ClampVector(v, lo, hi)
  {
    var once := ClampVector(v, lo, hi);
    if hi.x < lo.x { assert once.x == hi.x; }
    if hi.y < lo.y { assert once.y == hi.y; }
  }

  /** The x component of a clamped vector depends only on the x inputs, and the
      y component only on the y inputs. */
  lemma ClampVectorAxesIndependent(v: Vector, lo: Vector, hi: Vector, v': Vector, lo': Vector, hi': Vector)
    ensures v.x == v'.x && lo.x == lo'.x && hi.x == hi'.x ==>
      ClampVector(v, lo, hi).x == ClampVector(v', lo', hi').x
    ensures v.y == v'.y && lo.y == lo'.y && hi.y == hi'.y ==>
      ClampVector(v, lo, hi).y == ClampVector(v', lo', hi').y
  {
  }

  /** `lerpVector`: `vector + (target - vector) * amount`. */
  function LerpVector(v: Vector, t: Vector, amount: real): (r: Vector)
    ensures amount == 0.0 ==> r == v
    ensures amount == 1.0 ==> r == t
  {
    Add(v, Mult(Sub(t, v), amount))
  }

  /** `a` lies between `p` and `q`, whichever of the two is larger. */
  predicate Between(a: real, p: real, q: real) {
    (p <= a <= q) || (q <= a <= p)
  }

  /** Sign rule for products, stated once for the interpolation proofs. */
  lemma MulNonNegative(x: real, y: real)
    requires 0.0 <= x && 0.0 <= y
    ensures 0.0 <= x * y
  {
  }

  /** One component of a linear interpolation with an amount in [0, 1] lies
      between the two end points. */
  lemma LerpScalarBetween(p: real, q: real, a: real)
    requires 0.0 <= a <= 1.0
    ensures Between(p + (q - p) * a, p, q)
  {
    var d := q - p;
    if p <= q {
      MulNonNegative(d, a);
      MulNonNegative(d, 1.0 - a);
      assert d * (1.0 - a) == d - d * a;
    } else {
      MulNonNegative(-d, a);
      MulNonNegative(-d, 1.0 - a);
      assert (-d) * a == -(d * a);
      assert (-d) * (1.0 - a) == d * a - d;
    }
  }

  /** For an amount in [0, 1], every component of a linear interpolation lies
      between the matching components of the start and the target. */
  lemma LerpVectorBetween(v: Vector, t: Vector, a: real)
    requires 0.0 <= a <= 1.0
    ensures Between(LerpVector(v, t, a).x, v.x, t.x)
    ensures Between(LerpVector(v, t, a).y, v.y, t.y)
  {
    LerpScalarBetween(v.x, t.x, a);
    LerpScalarBetween(v.y, t.y, a);
  }

  /** `lerpVectorClamped`: interpolation with its amount clamped to [0, 1]. */
  function LerpVectorClamped(v: Vector, t: Vector, amount: real): (r: Vector)
    ensures amount <= 0.0 ==> r == v
    ensures amount >= 1.0 ==> r == t
    ensures Between(r.x, v.x, t.x) && Between(r.y, v.y, t.y)
  {
    var a := Clamp(amount, 0.0, 1.0);
    LerpVectorBetween(v, t, a);
    LerpVector(v, t, a)
  }

  /** Inside [0, 1] the clamp does nothing: the clamped interpolation is the
      plain one with the same amount. */
  lemma LerpVectorClampedInRange(v: Vector, t: Vector, amount: real)
    requires 0.0 <= amount <= 1.0
    ensures LerpVectorClamped(v, t, amount) == LerpVector(v, t, amount)
  {
  }

  /** `vectorFromSize`: the width becomes x and the height becomes y. */
  function VectorFromSize(size: Size): (r: Vector)
    ensures r.x == size.width && r.y == size.height
  {
    Vector(size.width, size.height)
  }
}
