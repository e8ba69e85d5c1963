/**
  The gradient-matching predicate of the gradient-table check script.

  Two diffusion gradients (a direction vector and a b-value each) describe the
  same acquisition when their directions are both zero (the usual encoding of
  b=0 volumes) or both
  non-zero and (anti)collinear up to a dot-product tolerance, and their
  b-values are within a fixed tolerance of each other.

  The predicate is modelled twice: `GradsMatch` over a four-field record, the
  decision tree itself, and `GradsMatchList` over the parsed list of numbers,
  which also models the out-of-range index error a short line raises. The two
  are proved to agree on every record with at least four entries.
 */
module Gradients {

  /** One parsed line of the gradient table: direction (x, y, z) and b-value. */
  datatype Gradient = Gradient(x: real, y: real, z: real, b: real)

  /** A line of the table as the list of numbers parsed from it. */
  type Line = seq<real>

  /** Minimum |dot product| for two non-zero directions to match. */
  const DotTolerance: real := 0.999

  /** Maximum difference between two matching b-values. */
  const BValueTolerance: real := 10.0

  function Abs(r: real): (a: real)
    ensures a >= 0.0
    ensures a == r || a == -r
  {
    if r < 0.0 then -r else r
  }

  /** A direction is "zero" when none of its components is truthy. */
  predicate IsZeroDirection(g: Gradient)
  {
    g.x == 0.0 && g.y == 0.0 && g.z == 0.0
  }

  function Dot(g: Gradient, h: Gradient): real
  {
    g.x * h.x + g.y * h.y + g.z * h.z
  }

  /** The antipodal direction, same b-value. */
  function Negate(g: Gradient): Gradient
  {
    Gradient(-g.x, -g.y, -g.z, g.b)
  }

  /** Declarative reading of the direction test. */
  predicate DirectionsAgree(one: Gradient, two: Gradient)
  {
    || (IsZeroDirection(one) && IsZeroDirection(two))
    || (!IsZeroDirection(one) && !IsZeroDirection(two) && Abs(Dot(one, two)) >= DotTolerance)
  }

  /** Declarative reading of the b-value test. */
  predicate BValuesAgree(one: Gradient, two: Gradient)
  {
    Abs(one.b - two.b) <= BValueTolerance
  }

  /**
    The decision tree: reject a zero/non-zero mix, reject non-zero directions
    whose |dot| is below the tolerance, then reject b-values too far apart.
   */
  function GradsMatch(one: Gradient, two: Gradient): (r: bool)
    ensures r <==> DirectionsAgree(one, two) && BValuesAgree(one, two)
    ensures IsZeroDirection(one) != IsZeroDirection(two) ==> !r
    ensures IsZeroDirection(one) && IsZeroDirection(two) ==> (r <==> BValuesAgree(one, two))
    ensures !IsZeroDirection(one) && !IsZeroDirection(two) && Abs(Dot(one, two)) < DotTolerance ==> !r
    ensures Abs(one.b - two.b) > BValueTolerance ==> !r
  {
    if !IsZeroDirection(one) then
      if IsZeroDirection(two) then false
      else if Abs(Dot(one, two)) < DotTolerance then false
      else !(Abs(one.b - two.b) > BValueTolerance)
    else if !IsZeroDirection(two) then false
    else !(Abs(one.b - two.b) > BValueTolerance)
  }

  /** The predicate does not depend on the order of its arguments. */
  lemma GradsMatchSymmetric(one: Gradient, two: Gradient)
    ensures GradsMatch(one, two) == GradsMatch(two, one)
  {
  }

  /** Replacing either direction by its antipode does not change the verdict. */
  lemma GradsMatchAntipodal(one: Gradient, two: Gradient)
    ensures GradsMatch(Negate(one), two) == GradsMatch(one, two)
    ensures GradsMatch(one, Negate(two)) == GradsMatch(one, two)
  {
    NegateFlipsDot(one, two);
    NegateFlipsDot(two, one);
    assert Dot(one, Negate(two)) == Dot(Negate(two), one);
  }

  lemma NegateFlipsDot(g: Gradient, h: Gradient)
    ensures IsZeroDirection(Negate(g)) <==> IsZeroDirection(g)
    ensures Dot(Negate(g), h) == -Dot(g, h)
  {
  }

  /**
    A gradient matches itself exactly when its direction is zero or its squared
    norm reaches the dot-product tolerance; in particular every unit direction
    and every zero-direction volume (the usual encoding of a b=0 volume)
    matches itself.
   */
  lemma GradsMatchReflexive(g: Gradient)
    ensures GradsMatch(g, g) <==> IsZeroDirection(g) || Dot(g, g) >= DotTolerance
  {
  }

  /** The outcome of calling the predicate on two parsed lists of numbers. */
  datatype Outcome = Returned(matches: bool) | IndexError

  /** `any(s[0:3])`: some one of the first (at most) three entries is non-zero. */
  predicate AnyDirection(s: Line)
  {
    exists i :: 0 <= i < 3 && i < |s| && s[i] != 0.0
  }

  /** The record a list of at least four numbers denotes. */
  function ToGradient(s: Line): (g: Gradient)
    requires |s| >= 4
    ensures IsZeroDirection(g) <==> !AnyDirection(s)
  {
    Gradient(s[0], s[1], s[2], s[3])
  }

  /** The list of numbers with everything after index 3 dropped. */
  function FirstFour(s: Line): (t: Line)
    ensures |t| == if |s| < 4 then |s| else 4
    ensures t <= s
  {
    if |s| <= 4 then s else s[..4]
  }

  /**
    The predicate as written over Python lists: the slices `[0:3]` never fail,
    but indexing a list with fewer than three entries (dot product) or fewer
    than four (b-value) raises an index error, unless an earlier test has
    already returned.
   */
  function GradsMatchList(one: Line, two: Line): (r: Outcome)
    ensures |one| >= 4 && |two| >= 4 ==> r == Returned(GradsMatch(ToGradient(one), ToGradient(two)))
    ensures r == IndexError ==> |one| < 4 || |two| < 4
    ensures r == Returned(true) ==> |one| >= 4 && |two| >= 4
    ensures AnyDirection(one) != AnyDirection(two) ==> r == Returned(false)
  {
    if AnyDirection(one) then
      if !AnyDirection(two) then Returned(false)
      else if |one| < 3 || |two| < 3 then IndexError
      else if Abs(DotList(one, two)) < DotTolerance then Returned(false)
      else BValueStep(one, two)
    else if AnyDirection(two) then Returned(false)
    else BValueStep(one, two)
  }

  /** `one[0]*two[0] + one[1]*two[1] + one[2]*two[2]` over lists. */
  function DotList(one: Line, two: Line): (d: real)
    requires |one| >= 3 && |two| >= 3
    ensures |one| >= 4 && |two| >= 4 ==> d == Dot(ToGradient(one), ToGradient(two))
  {
    one[0] * two[0] + one[1] * two[1] + one[2] * two[2]
  }

  /** The final b-value test of the predicate over lists. */
  function BValueStep(one: Line, two: Line): Outcome
  {
    if |one| < 4 || |two| < 4 then IndexError
    else Returned(!(Abs(one[3] - two[3]) > BValueTolerance))
  }

  /** Entries after the fourth never affect the outcome, short lists included. */
  lemma GradsMatchListFirstFour(one: Line, two: Line)
    ensures GradsMatchList(one, two) == GradsMatchList(FirstFour(one), FirstFour(two))
  {
    FirstFourKeepsConsulted(one);
    FirstFourKeepsConsulted(two);
    var one', two' := FirstFour(one), FirstFour(two);
    assert BValueStep(one, two) == BValueStep(one', two');
    if |one| >= 3 && |two| >= 3 {
      assert DotList(one, two) == DotList(one', two');
    }
  }

  /** Dropping entries after the fourth keeps every entry the predicate reads. */
  lemma FirstFourKeepsConsulted(s: Line)
    ensures AnyDirection(FirstFour(s)) <==> AnyDirection(s)
    ensures |s| >= 3 ==> FirstFour(s)[0] == s[0] && FirstFour(s)[1] == s[1] && FirstFour(s)[2] == s[2]
    ensures |s| >= 4 ==> FirstFour(s)[3] == s[3]
  {
  }

  /** Symmetry carries over to lists: swapping the arguments keeps the outcome. */
  lemma GradsMatchListSymmetric(one: Line, two: Line)
    ensures GradsMatchList(one, two) == GradsMatchList(two, one)
  {
  }
}
