/**
 * The loop specification held by every parfor task partitioner, and the
 * iteration count it derives at construction.
 *
 * The count is computed in Java as
 *   (int) ceil( (double)(to - from + 1) / incr )
 * on 32-bit ints. Each step of that expression is written out here: the
 * wrap-around of the int subtraction and addition, the floating-point
 * division (which is exact in its rounding-relevant part for 32-bit
 * operands, so it is modelled by an exact ceiling, plus the three IEEE
 * outcomes of a division by zero), and the saturating double-to-int cast.
 */
module TaskPartitioning {

  const INT_MIN: int := -0x8000_0000
  const INT_MAX: int := 0x7FFF_FFFF

  /** A Java `int`. */
  type Int32 = x: int | -0x8000_0000 <= x <= 0x7FFF_FFFF

  /** Two's-complement wrap-around of an exact integer into the range of a Java `int`. */
  function Wrap32(x: int): (r: Int32)
    ensures (r - x) % 0x1_0000_0000 == 0
    ensures INT_MIN <= x <= INT_MAX ==> r == x
  {
    (x - INT_MIN) % 0x1_0000_0000 + INT_MIN
  }

  /** The ceiling of the exact quotient a / b. */
  function CeilDiv(a: int, b: int): (r: int)
    requires b != 0
    ensures b > 0 ==> (r - 1) * b < a <= r * b
    ensures b < 0 ==> r * b <= a < (r - 1) * b
  {
    if b > 0 then (a + b - 1) / b else (-a - b - 1) / (-b)
  }

  /** What `Math.ceil` of a double quotient can be: a finite integral value or an IEEE special value. */
  datatype Quotient = Finite(value: int) | PosInfinity | NegInfinity | NaN

  /** `Math.ceil((double) a / b)` for 32-bit ints a and b. */
  function CeilQuotient(a: Int32, b: Int32): (q: Quotient)
    ensures b != 0 <==> q.Finite?
    ensures q.Finite? ==> q.value == CeilDiv(a, b)
    ensures q == NaN <==> a == 0 && b == 0
    ensures q == PosInfinity <==> b == 0 && a > 0
    ensures q == NegInfinity <==> b == 0 && a < 0
  {
    if b != 0 then Finite(CeilDiv(a, b))
    else if a > 0 then PosInfinity
    else if a < 0 then NegInfinity
    else NaN
  }

  /** The narrowing conversion `(int)` of a double (JLS 5.1.3): NaN is 0, out-of-range values saturate. */
  function ToInt(q: Quotient): (r: Int32)
    ensures q.Finite? && INT_MIN <= q.value <= INT_MAX ==> r == q.value
    ensures q.Finite? && q.value > INT_MAX ==> r == INT_MAX
    ensures q.Finite? && q.value < INT_MIN ==> r == INT_MIN
    ensures q == PosInfinity ==> r == INT_MAX
    ensures q == NegInfinity ==> r == INT_MIN
    ensures q == NaN ==> r == 0
  {
    match q
    case Finite(v) => if v > INT_MAX then INT_MAX else if v < INT_MIN then INT_MIN else v
    case PosInfinity => INT_MAX
    case NegInfinity => INT_MIN
    case NaN => 0
  }

  /** The int expression `to - from + 1`, evaluated with Java's wrap-around. */
  function Span(from: Int32, to: Int32): Int32
  {
    Wrap32(Wrap32(to - from) + 1)
  }

  /** The iteration count `_numIter` as the constructor computes it. */
  function NumIterations(from: Int32, to: Int32, incr: Int32): Int32
  {
    ToInt(CeilQuotient(Span(from, to), incr))
  }

  /** Java's two wrapping int operations agree with one wrap of the exact width. */
  lemma SpanIsWrappedWidth(from: Int32, to: Int32)
    ensures Span(from, to) == Wrap32(to - from + 1)
  {
    var d := Wrap32(to - from);
    assert (d + 1 - (to - from + 1)) % 0x1_0000_0000 == 0;
    WrapUnique(Span(from, to), Wrap32(to - from + 1));
  }

  /** Two ints that differ by a multiple of 2^32 are equal. */
  lemma WrapUnique(x: Int32, y: Int32)
    requires ((x as int) - (y as int)) % 0x1_0000_0000 == 0
    ensures x == y
  {
  }

  /** Sign facts about a product, for the bounds proofs below. */
  lemma MulBounds(x: int, y: int)
    ensures x >= 0 && y >= 1 ==> x * y >= x
    ensures x <= 0 && y >= 1 ==> x * y <= x
    ensures x >= 0 && y <= -1 ==> x * y <= -x
    ensures x <= 0 && y <= -1 ==> x * y >= -x
    ensures x >= 0 && y <= -2 ==> x * y <= -2 * x
  {
  }

  /**
   * The ceiling of an int divided by a non-zero int is itself an int, except
   * for INT_MIN / -1, whose ceiling 2^31 is one past INT_MAX.
   */
  lemma CeilDivInRange(a: int, b: int)
    requires INT_MIN <= a <= INT_MAX && b != 0
    requires a != INT_MIN || b != -1
    ensures INT_MIN <= CeilDiv(a, b) <= INT_MAX
  {
    var c := CeilDiv(a, b);
    MulBounds(c - 1, b);
    MulBounds(c, b);
  }

  /**
   * When the range width is an int (and not the one quotient that saturates),
   * a non-zero step gives the exact ceiling of width / incr: the one integer n
   * with n - 1 < width / incr <= n, written without division.
   */
  lemma NumIterationsIsCeiling(from: Int32, to: Int32, incr: Int32)
    requires INT_MIN <= to - from + 1 <= INT_MAX
    requires incr != 0
    requires to - from + 1 != INT_MIN || incr != -1
    ensures var n, w := NumIterations(from, to, incr), to - from + 1;
      (incr > 0 ==> (n - 1) * incr < w <= n * incr) &&
      (incr < 0 ==> n * incr <= w < (n - 1) * incr)
  {
    SpanIsWrappedWidth(from, to);
    CeilDivInRange(to - from + 1, incr);
  }

  /**
   * A non-empty range with a positive step: at least one iteration, the
   * iterations fit in the range and the next one would not.
   */
  lemma PositiveRangeBounds(from: Int32, to: Int32, incr: Int32)
    requires incr > 0 && to >= from
    requires to - from + 1 <= INT_MAX
    ensures var n, w := NumIterations(from, to, incr), to - from + 1;
      1 <= n <= w && (n - 1) * incr < w <= n * incr
  {
    NumIterationsIsCeiling(from, to, incr);
    var n := NumIterations(from, to, incr);
    MulBounds(n, incr);
    MulBounds(n - 1, incr);
  }

  /** The empty range to == from - 1 has no iterations, whatever the step (0 / 0 is NaN, cast to 0). */
  lemma EmptyRangeHasNoIterations(from: Int32, to: Int32, incr: Int32)
    requires to == from - 1
    ensures NumIterations(from, to, incr) == 0
  {
    SpanIsWrappedWidth(from, to);
    if incr != 0 {
      var c := CeilDiv(0, incr);
      MulBounds(c, incr);
      MulBounds(c - 1, incr);
    }
  }

  /**
   * A zero step raises no error: the quotient is an infinity of the width's
   * sign, cast to the largest or smallest int, or NaN for an empty width, cast to 0.
   */
  lemma ZeroStepIterations(from: Int32, to: Int32)
    ensures NumIterations(from, to, 0)
      == if Span(from, to) > 0 then INT_MAX else if Span(from, to) < 0 then INT_MIN else 0
  {
  }

  /** Concrete counts for small loops. */
  lemma NumIterationsExamples()
    ensures NumIterations(1, 10, 1) == 10
    ensures NumIterations(1, 10, 3) == 4
    // a negative step goes through the same expression: ceil(-8 / -1) = 8
    ensures NumIterations(10, 1, -1) == 8
    // a zero step: +Infinity, -Infinity and NaN after the cast
    ensures NumIterations(1, 10, 0) == INT_MAX
    ensures NumIterations(10, 1, 0) == INT_MIN
    // the full int range has width 2^32, which wraps to 0
    ensures NumIterations(INT_MIN, INT_MAX, 1) == 0
    // the one saturating quotient: INT_MIN / -1 is 2^31, cast to INT_MAX
    ensures NumIterations(1, INT_MIN, -1) == INT_MAX
  {
  }

  /**
   * The base of all task partitioners: the loop specification (FROM, TO, INCR),
   * the index variable, the task size, and the iteration count derived from the
   * bounds. All fields are set once, by the constructor.
   */
  class TaskPartitioner {
    const taskSize: Int32
    const iterVarName: string
    const fromVal: Int32
    const toVal: Int32
    const incrVal: Int32
    const numIter: Int32

    /** The count stored at construction is the count of the stored bounds. */
    ghost predicate Valid() {
      numIter == NumIterations(fromVal, toVal, incrVal)
    }

    constructor (taskSize: Int32, iterVarName: string, fromVal: Int32, toVal: Int32, incrVal: Int32)
      ensures Valid()
      ensures this.taskSize == taskSize && this.iterVarName == iterVarName
      ensures this.fromVal == fromVal && this.toVal == toVal && this.incrVal == incrVal
    {
      this.taskSize := taskSize;
      this.iterVarName := iterVarName;
      this.fromVal := fromVal;
      this.toVal := toVal;
      this.incrVal := incrVal;
      numIter := NumIterations(fromVal, toVal, incrVal);
    }

    /** The total number of iterations of the loop. */
    function GetNumIterations(): (n: Int32)
      requires Valid()
      ensures n == NumIterations(fromVal, toVal, incrVal)
    {
      numIter
    }
  }
}
