/**
  The addition service (src/adderService.ts). `sum` returns `firstNumber +
  secondNumber` as JavaScript computes it, on IEEE-754 doubles, and checks
  nothing: finiteness is the caller's business.

  The model restricts the operands to JavaScript's safe integers
  (|x| <= 2^53 - 1). Their exact sum has magnitude below 2^54, where doubles
  are spaced at most 2 apart, so double addition is the exact sum rounded to
  the nearest double integer, ties to an even significand. That rounding is
  written out below, and the lemmas show when it is the identity.
 */
module AdderService {

  /** Number.MAX_SAFE_INTEGER, 2^53 - 1. */
  const MaxSafeInteger: int := 0x1F_FFFF_FFFF_FFFF
  /** Number.MIN_SAFE_INTEGER. */
  const MinSafeInteger: int := -MaxSafeInteger
  /** 2^53: from here on, consecutive doubles are more than 1 apart. */
  const TwoTo53: int := 0x20_0000_0000_0000

  /** The numbers of this model: JavaScript's safe integers. */
  type SafeInt = x: int | MinSafeInteger <= x <= MaxSafeInteger

  predicate IsSafe(x: int) {
    MinSafeInteger <= x <= MaxSafeInteger
  }

  function Abs(x: int): nat {
    if x < 0 then -x else x
  }

  /** n is an integer a double can hold: n = m * 2^e with |m| < 2^53 and e >= 0
      (the exponent's upper limit, far above every value here, is ignored). */
  predicate IsDoubleInteger(n: int)
    decreases Abs(n)
  {
    -TwoTo53 < n < TwoTo53 || (n % 2 == 0 && IsDoubleInteger(n / 2))
  }

  /** Every integer up to 2^53 in magnitude, and every even one up to 2^54, is a double. */
  lemma DoubleIntegersUpTo2To54(n: int)
    requires Abs(n) <= TwoTo53 || (n % 2 == 0 && Abs(n) <= 2 * TwoTo53)
    ensures IsDoubleInteger(n)
    decreases Abs(n)
  {
    if Abs(n) >= TwoTo53 {
      DoubleIntegersUpTo2To54(n / 2);
    }
  }

  /** An odd integer beyond 2^53 in magnitude is not a double. */
  lemma OddBeyond2To53(n: int)
    requires Abs(n) >= TwoTo53 && n % 2 == 1
    ensures !IsDoubleInteger(n)
  {
  }

  /** A multiple of 4 is even and leaves no remainder by 4. */
  lemma MultipleOf4(i: int)
    ensures (4 * i) % 4 == 0 && (4 * i) % 2 == 0
  {
    assert (4 * i) / 4 == i;
    assert (4 * i) / 2 == 2 * i;
  }

  /** For an odd n = 2j + 1 beyond 2^53, the neighbour 2j or 2j + 2 that is a
      multiple of 4: the double with the even significand. */
  function EvenNeighbour(n: int): (r: int)
    requires TwoTo53 < Abs(n) < 2 * TwoTo53 && n % 2 == 1
    ensures IsDoubleInteger(r)
    ensures Abs(r - n) == 1
    ensures r % 4 == 0
  {
    var j := n / 2;
    var i := j / 2;
    assert n == 2 * j + 1 && j == 2 * i + j % 2;
    if j % 2 == 0 then
      MultipleOf4(i);
      DoubleIntegersUpTo2To54(4 * i);
      4 * i
    else
      MultipleOf4(i + 1);
      DoubleIntegersUpTo2To54(4 * (i + 1));
      4 * (i + 1)
  }

  /**
    The double nearest to the integer n, for |n| < 2^54: n itself when it is a
    double, otherwise (n odd, beyond 2^53) whichever neighbour n - 1 or n + 1 has
    an even significand, that is, is a multiple of 4.
   */
  function RoundToDouble(n: int): (r: int)
    requires Abs(n) < 2 * TwoTo53
    ensures IsDoubleInteger(r)
    ensures Abs(r - n) <= 1
    ensures r == n <==> IsDoubleInteger(n)
    ensures r != n ==> r % 4 == 0
  {
    if Abs(n) <= TwoTo53 || n % 2 == 0 then
      DoubleIntegersUpTo2To54(n);
      n
    else
      OddBeyond2To53(n);
      EvenNeighbour(n)
  }

  /** No double is closer to n than RoundToDouble(n). */
  lemma RoundToDoubleIsNearest(n: int, d: int)
    requires Abs(n) < 2 * TwoTo53
    requires IsDoubleInteger(d)
    ensures Abs(RoundToDouble(n) - n) <= Abs(d - n)
  {
    if RoundToDouble(n) != n {
      assert d != n;
    }
  }

  /** AdderService.sum: the double sum of two safe integers. No operand is checked. */
  function Sum(firstNumber: SafeInt, secondNumber: SafeInt): (r: int)
    ensures IsDoubleInteger(r)
    ensures Abs(r - (firstNumber + secondNumber)) <= 1
  {
    RoundToDouble(firstNumber + secondNumber)
  }

  /** The sum is exact precisely when the exact sum is itself a double. */
  lemma SumExactIff(a: SafeInt, b: SafeInt)
    ensures Sum(a, b) == a + b <==> IsDoubleInteger(a + b)
  {
  }

  /** No double lies closer to the exact sum than what `sum` returns. */
  lemma SumIsNearestDouble(a: SafeInt, b: SafeInt, d: int)
    requires IsDoubleInteger(d)
    ensures Abs(Sum(a, b) - (a + b)) <= Abs(d - (a + b))
  {
    RoundToDoubleIsNearest(a + b, d);
  }

  /** A sum that stays in the safe range is computed exactly. */
  lemma SumExactInSafeRange(a: SafeInt, b: SafeInt)
    requires IsSafe(a + b)
    ensures Sum(a, b) == a + b
  {
    DoubleIntegersUpTo2To54(a + b);
  }

  /** Adding zero, on either side, gives the other operand back. */
  lemma SumZeroIdentity(a: SafeInt)
    ensures Sum(a, 0) == a && Sum(0, a) == a
  {
    SumExactInSafeRange(a, 0);
    SumExactInSafeRange(0, a);
  }

  lemma SumCommutes(a: SafeInt, b: SafeInt)
    ensures Sum(a, b) == Sum(b, a)
  {
  }

  /** The integer cases of the service's tests. */
  lemma SumExamples()
    ensures Sum(5, 3) == 8
    ensures Sum(-5, -3) == -8
    ensures Sum(10, -3) == 7
    ensures Sum(0, 5) == 5
    ensures Sum(0, 0) == 0
    ensures Sum(MaxSafeInteger, 0) == MaxSafeInteger
    ensures Sum(MinSafeInteger, 0) == MinSafeInteger
  {
    SumZeroIdentity(MaxSafeInteger);
    SumZeroIdentity(MinSafeInteger);
  }

  /** Beyond the safe range the double sum rounds: 2^53 - 1 plus 2 gives 2^53,
      and 2^53 - 1 plus 4 gives 2^53 + 4, the even neighbour of 2^53 + 3. */
  lemma SumRoundsBeyondSafeRange()
    ensures Sum(MaxSafeInteger, 2) == TwoTo53 != MaxSafeInteger + 2
    ensures Sum(MaxSafeInteger, 4) == TwoTo53 + 4 != MaxSafeInteger + 4
  {
  }
}
