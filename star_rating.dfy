/**
 * The five-star rating strip (joanie-store/src/components/ui/StarRating.tsx):
 * each of five stars is full, half or empty depending on the rating, and the
 * review count follows in parentheses.
 */
module StarRating {

  datatype Star = Full | Half | Empty

  /** `Math.floor(rating)` */
  function FullStars(rating: real): (n: int)
    ensures n as real <= rating < n as real + 1.0
  {
    rating.Floor
  }

  /**
   * JavaScript's `rating % 1`: the remainder of division truncated toward
   * zero, so it carries the sign of the rating.
   */
  function Fraction(rating: real): (f: real)
    ensures 0.0 <= rating ==> 0.0 <= f < 1.0
    ensures rating < 0.0 ==> -1.0 < f <= 0.0
    ensures (rating - f).Floor as real == rating - f
  {
    if rating >= 0.0 then
      var whole := rating.Floor;
      assert (whole as real).Floor == whole;
      rating - whole as real
    else
      var whole := -((-rating).Floor);
      assert (whole as real).Floor == whole;
      rating - whole as real
  }

  /** `rating % 1 >= 0.5` */
  predicate HasHalfStar(rating: real)
    ensures HasHalfStar(rating) ==> rating >= 0.5
  {
    Fraction(rating) >= 0.5
  }

  /** The classification of star `i`. */
  function StarAt(rating: real, i: int): Star {
    if i < FullStars(rating) then Full
    else if i == FullStars(rating) && HasHalfStar(rating) then Half
    else Empty
  }

  /** `[0, 1, 2, 3, 4].map(...)` */
  function Stars(rating: real): (s: seq<Star>)
    ensures |s| == 5
    ensures forall i :: 0 <= i < 5 ==> (s[i] == Full <==> i < FullStars(rating))
    ensures forall i :: 0 <= i < 5 ==> (s[i] == Half <==> i == FullStars(rating) && HasHalfStar(rating))
  {
    seq(5, i => StarAt(rating, i))
  }

  /** A negative rating never has a half star: its remainder is never positive. */
  lemma NoHalfStarBelowZero(rating: real)
    requires rating < 0.0
    ensures !HasHalfStar(rating)
  {
  }

  /** A non-negative rating has a half star exactly when it is at least half-way to the next whole number. */
  lemma HalfStarFromHalfway(rating: real)
    requires rating >= 0.0
    ensures HasHalfStar(rating) <==> rating >= FullStars(rating) as real + 0.5
  {
  }

  /** How many of `s` are `k`. */
  function Count(s: seq<Star>, k: Star): nat {
    if s == [] then 0 else Count(s[..|s| - 1], k) + if s[|s| - 1] == k then 1 else 0
  }

  /** Every star is full, half or empty. */
  lemma {:induction false} CountsPartition(s: seq<Star>)
    ensures Count(s, Full) + Count(s, Half) + Count(s, Empty) == |s|
    decreases |s|
  {
    if s != [] {
      CountsPartition(s[..|s| - 1]);
    }
  }

  /** `n` clamped into [lo, hi]. */
  function Clamp(n: int, lo: int, hi: int): int
    requires lo <= hi
  {
    if n < lo then lo else if n > hi then hi else n
  }

  /** Among the first `n` stars, the full ones are the first `floor(rating)` and at most one is half. */
  lemma {:induction false} CountPrefix(rating: real, n: nat)
    requires n <= 5
    ensures Count(Stars(rating)[..n], Full) == Clamp(FullStars(rating), 0, n)
    ensures Count(Stars(rating)[..n], Half) == if 0 <= FullStars(rating) < n && HasHalfStar(rating) then 1 else 0
    decreases n
  {
    if n > 0 {
      var s := Stars(rating);
      CountPrefix(rating, n - 1);
      assert s[..n][..n - 1] == s[..n - 1];
      assert s[..n][n - 1] == s[n - 1];
    }
  }

  /**
   * The strip has `floor(rating)` full stars clamped to 0..5, at most one half
   * star (exactly one when the whole part is below 5 and the remainder at
   * least one half), and the rest empty.
   */
  lemma StarCounts(rating: real)
    ensures Count(Stars(rating), Full) == Clamp(FullStars(rating), 0, 5)
    ensures Count(Stars(rating), Half) <= 1
    ensures Count(Stars(rating), Half) == 1 <==> 0 <= FullStars(rating) < 5 && HasHalfStar(rating)
    ensures Count(Stars(rating), Full) + Count(Stars(rating), Half) + Count(Stars(rating), Empty) == 5
  {
    CountPrefix(rating, 5);
    assert Stars(rating)[..5] == Stars(rating);
    CountsPartition(Stars(rating));
  }

  /** The seeded ratings 5.0 and 4.0, and a rating of 4.5 with its half star. */
  lemma SeedRatings()
    ensures Stars(5.0) == [Full, Full, Full, Full, Full]
    ensures Stars(4.0) == [Full, Full, Full, Full, Empty]
    ensures Stars(4.5) == [Full, Full, Full, Full, Half]
  {
  }

  /** The decimal digit `d`. */
  function DigitChar(d: int): char
    requires 0 <= d < 10
  {
    ('0' as int + d) as char
  }

  predicate AllDigits(s: string) {
    forall i :: 0 <= i < |s| ==> '0' <= s[i] <= '9'
  }

  /** The decimal numeral of `n`, as JavaScript writes an integer: no leading zero. */
  function NatToDecimal(n: nat): (s: string)
    ensures |s| >= 1 && AllDigits(s)
    ensures s[0] == '0' ==> n == 0
    decreases n
  {
    if n < 10 then [DigitChar(n)] else NatToDecimal(n / 10) + [DigitChar(n % 10)]
  }

  /** The value of a numeral. */
  function DecimalValue(s: string): nat
    requires AllDigits(s)
  {
    if s == [] then 0 else DecimalValue(s[..|s| - 1]) * 10 + (s[|s| - 1] as int - '0' as int)
  }

  /** Reading back the numeral gives the number. */
  lemma {:induction false} DecimalRoundTrip(n: nat)
    ensures DecimalValue(NatToDecimal(n)) == n
    decreases n
  {
    if n >= 10 {
      var prefix := NatToDecimal(n / 10);
      DecimalRoundTrip(n / 10);
      assert (prefix + [DigitChar(n % 10)])[..|prefix|] == prefix;
    }
  }

  /** `{reviewCount}` for any integer. */
  function Decimal(n: int): string {
    if n < 0 then "-" + NatToDecimal(-n) else NatToDecimal(n)
  }

  /** `({reviewCount})` */
  function ReviewLabel(reviewCount: int): (s: string)
    ensures |s| >= 3 && s[0] == '(' && s[|s| - 1] == ')'
    ensures s[1..|s| - 1] == Decimal(reviewCount)
  {
    "(" + Decimal(reviewCount) + ")"
  }

  /** The count can be read back from between the parentheses. */
  lemma ReviewLabelRoundTrip(reviewCount: nat)
    ensures AllDigits(ReviewLabel(reviewCount)[1..|ReviewLabel(reviewCount)| - 1])
    ensures DecimalValue(ReviewLabel(reviewCount)[1..|ReviewLabel(reviewCount)| - 1]) == reviewCount
  {
    DecimalRoundTrip(reviewCount);
  }
}
