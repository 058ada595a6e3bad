/**
 * Hand categories and hand scores, shared by both poker evaluators (the server's
 * core/poker/PokerEval.java and the console's sevenpoker/PokerEval.java declare the same enum
 * and the same `HandScore.compareTo`).
 */
module PokerScore {

  /** `HandRank`, weakest first, so that `Ordinal` is Java's `ordinal()`. */
  datatype Category =
    | HighCard | OnePair | TwoPair | ThreeOfAKind | Straight
    | Flush | FullHouse | FourOfAKind | StraightFlush

  function Ordinal(c: Category): (n: nat)
    ensures n <= 8
  {
    match c
    case HighCard => 0 case OnePair => 1 case TwoPair => 2 case ThreeOfAKind => 3
    case Straight => 4 case Flush => 5 case FullHouse => 6 case FourOfAKind => 7
    case StraightFlush => 8
  }

  lemma OrdinalInjective(c: Category, d: Category)
    ensures Ordinal(c) == Ordinal(d) <==> c == d
  {
  }

  /** A category and the tie-breaker array compared after it. */
  datatype HandScore = HandScore(category: Category, tieBreakers: seq<int>)

  /** Java's `Integer.compare`: the sign of `x - y`. */
  function IntCompare(x: int, y: int): (r: int)
    ensures r == -1 || r == 0 || r == 1
    ensures (r < 0 <==> x < y) && (r > 0 <==> x > y)
  {
    if x < y then -1 else if x > y then 1 else 0
  }

  /**
   * Lexicographic comparison of `a[i..]` and `b[i..]`: the first differing entry decides, and
   * when one runs out the shorter one is smaller.
   */
  function LexFrom(a: seq<int>, b: seq<int>, i: nat): (r: int)
    decreases |a| - i
  {
    if i >= |a| || i >= |b| then IntCompare(|a|, |b|)
    else if a[i] != b[i] then IntCompare(a[i], b[i])
    else LexFrom(a, b, i + 1)
  }

  /** The order `compareTo` defines: category ordinal first, then the tie-breakers. */
  function Compare(x: HandScore, y: HandScore): (r: int)
  {
    if Ordinal(x.category) != Ordinal(y.category) then IntCompare(Ordinal(x.category), Ordinal(y.category))
    else LexFrom(x.tieBreakers, y.tieBreakers, 0)
  }

  lemma {:induction false} LexFromSign(a: seq<int>, b: seq<int>, i: nat)
    ensures LexFrom(a, b, i) == -1 || LexFrom(a, b, i) == 0 || LexFrom(a, b, i) == 1
    ensures LexFrom(a, b, i) == -LexFrom(b, a, i)
    decreases |a| - i
  {
    if i < |a| && i < |b| && a[i] == b[i] {
      LexFromSign(a, b, i + 1);
    }
  }

  lemma {:induction false} LexFromZero(a: seq<int>, b: seq<int>, i: nat)
    requires i <= |a| && i <= |b|
    ensures LexFrom(a, b, i) == 0 <==> a[i..] == b[i..]
    decreases |a| - i
  {
    if i < |a| && i < |b| {
      if a[i] == b[i] {
        LexFromZero(a, b, i + 1);
        assert a[i..] == [a[i]] + a[i + 1..];
        assert b[i..] == [b[i]] + b[i + 1..];
      } else {
        assert a[i..][0] != b[i..][0];
      }
    } else if |a| != |b| {
      assert |a[i..]| != |b[i..]|;
    }
  }

  lemma {:induction false} LexFromTransitive(a: seq<int>, b: seq<int>, c: seq<int>, i: nat)
    requires LexFrom(a, b, i) >= 0 && LexFrom(b, c, i) >= 0
    ensures LexFrom(a, c, i) >= 0
    ensures LexFrom(a, b, i) > 0 || LexFrom(b, c, i) > 0 ==> LexFrom(a, c, i) > 0
    decreases |a| - i
  {
    if i < |a| && i < |b| && i < |c| && a[i] == b[i] && b[i] == c[i] {
      LexFromTransitive(a, b, c, i + 1);
    }
  }

  /** `compareTo` is 0 on the same score. */
  lemma CompareReflexive(x: HandScore)
    ensures Compare(x, x) == 0
  {
    LexFromZero(x.tieBreakers, x.tieBreakers, 0);
  }

  /** `compareTo` returns -1, 0 or 1, and swapping the arguments flips the sign. */
  lemma CompareAntisymmetric(x: HandScore, y: HandScore)
    ensures Compare(x, y) == -1 || Compare(x, y) == 0 || Compare(x, y) == 1
    ensures Compare(x, y) == -Compare(y, x)
  {
    LexFromSign(x.tieBreakers, y.tieBreakers, 0);
  }

  /** `compareTo` is 0 exactly on equal scores (same category, same tie-breaker array). */
  lemma CompareZeroIffEqual(x: HandScore, y: HandScore)
    ensures Compare(x, y) == 0 <==> x == y
  {
    LexFromZero(x.tieBreakers, y.tieBreakers, 0);
    assert x.tieBreakers[0..] == x.tieBreakers && y.tieBreakers[0..] == y.tieBreakers;
    OrdinalInjective(x.category, y.category);
  }

  /** `compareTo` is transitive, strictly so when either step is strict. */
  lemma CompareTransitive(x: HandScore, y: HandScore, z: HandScore)
    requires Compare(x, y) >= 0 && Compare(y, z) >= 0
    ensures Compare(x, z) >= 0
    ensures Compare(x, y) > 0 || Compare(y, z) > 0 ==> Compare(x, z) > 0
  {
    if Ordinal(x.category) == Ordinal(y.category) == Ordinal(z.category) {
      LexFromTransitive(x.tieBreakers, y.tieBreakers, z.tieBreakers, 0);
    }
  }

  /** `HandScore.compareTo`, with its loop over the common prefix of the tie-breakers. */
  method CompareTo(x: HandScore, y: HandScore) returns (cmp: int)
    ensures cmp == Compare(x, y)
  {
    cmp := IntCompare(Ordinal(x.category), Ordinal(y.category));
    if cmp != 0 {
      return;
    }
    var a, b := x.tieBreakers, y.tieBreakers;
    var len := if |a| < |b| then |a| else |b|;
    var i := 0;
    while i < len
      invariant 0 <= i <= len
      invariant LexFrom(a, b, i) == LexFrom(a, b, 0)
    {
      cmp := IntCompare(a[i], b[i]);
      if cmp != 0 {
        return;
      }
      i := i + 1;
    }
    cmp := IntCompare(|a|, |b|);
  }
}
