/** What the five-card evaluator promises, proved about `PokerEval.Score`. */
module PokerFacts {
  import opened Collections
  import opened PokerScore
  import opened PokerSpec

  // ---------------------------------------------------------------- reference definitions

  /** Some rank is held exactly `k` times. */
  predicate HasCount(h: seq<Keyed>, k: int)
  {
    exists v :: 2 <= v <= 14 && RankCount(h, v) == k
  }

  /** Two different ranks are each held exactly twice. */
  predicate HasTwoPairs(h: seq<Keyed>)
  {
    exists u, v :: 2 <= u < v <= 14 && RankCount(h, u) == 2 && RankCount(h, v) == 2
  }

  /** The textbook condition for each category, independent of the evaluator's ladder. */
  predicate Qualifies(h: seq<Keyed>, c: Category)
  {
    QualifiesBy(c, IsFlush(h), HasStraight(RankCounts(h)), HasCount(h, 4), HasCount(h, 3), HasCount(h, 2),
      HasTwoPairs(h))
  }

  /** The condition of each category in terms of the facts about the hand. */
  predicate QualifiesBy(c: Category, flush: bool, straight: bool, four: bool, three: bool, pair: bool,
    twoPairs: bool)
  {
    match c
    case StraightFlush => flush && straight
    case FourOfAKind => four
    case FullHouse => three && pair
    case Flush => flush
    case Straight => straight
    case ThreeOfAKind => three
    case TwoPair => twoPairs
    case OnePair => pair
    case HighCard => true
  }

  /** The length of the tie-breaker array `evaluate` builds for each category. */
  function TieBreakerLength(c: Category): nat
  {
    match c
    case StraightFlush => 2 case Straight => 2
    case FourOfAKind => 4 case FullHouse => 4 case ThreeOfAKind => 4
    case TwoPair => 5 case Flush => 5 case HighCard => 5 case OnePair => 5
  }

  /** The card keys in hand order. */
  function CardKeys(h: seq<Keyed>): (ks: seq<int>)
    ensures |ks| == |h| && forall i :: 0 <= i < |h| ==> ks[i] == Key(h[i])
  {
    seq(|h|, i requires 0 <= i < |h| => Key(h[i]))
  }

  /** No two cards share both rank and suit value. */
  predicate DistinctCards(h: seq<Keyed>)
  {
    forall i, j :: 0 <= i < j < |h| ==> h[i].value != h[j].value || h[i].suit != h[j].suit
  }

  // ---------------------------------------------------------------- helpers

  lemma GroupNonEmpty(h: seq<Keyed>, k: int)
    ensures Group(RankCounts(h), k) != [] <==> HasCount(h, k)
  {
    GroupSpec(h, k);
    var g := Group(RankCounts(h), k);
    if g != [] {
      assert g[0] in g;
    }
  }

  lemma GroupTwoPairs(h: seq<Keyed>)
    ensures |Group(RankCounts(h), 2)| >= 2 <==> HasTwoPairs(h)
  {
    GroupSpec(h, 2);
    var g := Group(RankCounts(h), 2);
    if |g| >= 2 {
      assert g[0] in g && g[1] in g;
      assert 2 <= g[1] < g[0] <= 14 && RankCount(h, g[1]) == 2 && RankCount(h, g[0]) == 2;
    }
    if HasTwoPairs(h) {
      var u, v :| 2 <= u < v <= 14 && RankCount(h, u) == 2 && RankCount(h, v) == 2;
      assert u in g && v in g;
    }
  }

  lemma {:induction false} KeysExceptEmpty(h: seq<Keyed>)
    ensures KeysExcept(h, {}) == CardKeys(h)
  {
    if h != [] {
      KeysExceptEmpty(h[..|h| - 1]);
    }
  }

  lemma {:induction false} RankCountPositive(h: seq<Keyed>, v: int)
    requires RankCount(h, v) > 0
    ensures exists i :: 0 <= i < |h| && h[i].value == v
  {
    var init := h[..|h| - 1];
    if h[|h| - 1].value != v {
      RankCountPositive(init, v);
      var i :| 0 <= i < |init| && init[i].value == v;
      assert h[i] == init[i];
    }
  }

  lemma {:induction false} RankCountBound(h: seq<Keyed>, u: int, v: int)
    ensures RankCount(h, v) <= |h|
    ensures u != v ==> RankCount(h, u) + RankCount(h, v) <= |h|
  {
    if h != [] {
      RankCountBound(h[..|h| - 1], u, v);
    }
  }

  lemma {:induction false} RankCountOther(h: seq<Keyed>, v: int)
    requires RankCount(h, v) < |h|
    ensures exists i :: 0 <= i < |h| && h[i].value != v
  {
    var init := h[..|h| - 1];
    if h[|h| - 1].value == v {
      RankCountOther(init, v);
      var i :| 0 <= i < |init| && init[i].value != v;
      assert h[i] == init[i];
    }
  }

  lemma {:induction false} RankCountOfCard(h: seq<Keyed>, i: int)
    requires 0 <= i < |h|
    ensures RankCount(h, h[i].value) > 0
  {
    if i < |h| - 1 {
      RankCountOfCard(h[..|h| - 1], i);
    }
  }

  lemma {:induction false} RemoveFirstAbsent(s: seq<int>, x: int)
    requires x !in s
    ensures RemoveFirst(s, x) == s
  {
    if s != [] {
      RemoveFirstAbsent(s[1..], x);
    }
  }

  // ---------------------------------------------------------------- the ladder, case by case

  lemma ScoreCategory(h: seq<Keyed>, w: bool)
    requires |h| == 5 && ValidHand(h)
    ensures Score(h, w).category == Ladder(h)
  {
  }

  /** What each rung of the category ladder says about the facts it was chosen from. */
  lemma CategoryFromFacts(flush: bool, straight: bool, four: bool, three: bool, pairs: nat)
    ensures var c := CategoryFrom(flush, straight, four, three, pairs);
      && (c == StraightFlush || c == Straight ==> straight)
      && (c == FourOfAKind ==> four)
      && (c == FullHouse || c == ThreeOfAKind ==> three)
      && (c == FullHouse || c == OnePair ==> pairs > 0)
      && (c == OnePair ==> pairs == 1)
      && (c == TwoPair ==> pairs >= 2)
  {
  }

  /** What each rung of the ladder guarantees about the rank groups. */
  lemma LadderStraight(h: seq<Keyed>)
    requires |h| == 5 && ValidHand(h)
    requires Ladder(h) == StraightFlush || Ladder(h) == Straight
    ensures StraightHighOf(RankCounts(h)) != -1
  {
    var rc := RankCounts(h);
    CategoryFromFacts(IsFlush(h), StraightHighOf(rc) != -1, Group(rc, 4) != [], Group(rc, 3) != [], |Group(rc, 2)|);
  }

  lemma LadderFour(h: seq<Keyed>)
    requires |h| == 5 && ValidHand(h)
    requires Ladder(h) == FourOfAKind
    ensures Group(RankCounts(h), 4) != []
  {
    var rc := RankCounts(h);
    CategoryFromFacts(IsFlush(h), StraightHighOf(rc) != -1, Group(rc, 4) != [], Group(rc, 3) != [], |Group(rc, 2)|);
  }

  lemma LadderTrips(h: seq<Keyed>)
    requires |h| == 5 && ValidHand(h)
    requires Ladder(h) == FullHouse || Ladder(h) == ThreeOfAKind
    ensures Group(RankCounts(h), 3) != []
  {
    var rc := RankCounts(h);
    CategoryFromFacts(IsFlush(h), StraightHighOf(rc) != -1, Group(rc, 4) != [], Group(rc, 3) != [], |Group(rc, 2)|);
  }

  lemma LadderPairs(h: seq<Keyed>)
    requires |h| == 5 && ValidHand(h)
    requires Ladder(h) == FullHouse || Ladder(h) == OnePair
    ensures Group(RankCounts(h), 2) != []
  {
    var rc := RankCounts(h);
    CategoryFromFacts(IsFlush(h), StraightHighOf(rc) != -1, Group(rc, 4) != [], Group(rc, 3) != [], |Group(rc, 2)|);
  }

  lemma LadderOnePair(h: seq<Keyed>)
    requires |h| == 5 && ValidHand(h)
    requires Ladder(h) == OnePair
    ensures |Group(RankCounts(h), 2)| == 1
  {
    var rc := RankCounts(h);
    CategoryFromFacts(IsFlush(h), StraightHighOf(rc) != -1, Group(rc, 4) != [], Group(rc, 3) != [], |Group(rc, 2)|);
  }

  lemma LadderTwoPair(h: seq<Keyed>)
    requires |h| == 5 && ValidHand(h)
    requires Ladder(h) == TwoPair
    ensures |Group(RankCounts(h), 2)| >= 2
  {
    var rc := RankCounts(h);
    CategoryFromFacts(IsFlush(h), StraightHighOf(rc) != -1, Group(rc, 4) != [], Group(rc, 3) != [], |Group(rc, 2)|);
  }

  lemma ScoreStraights(h: seq<Keyed>, w: bool)
    requires |h| == 5 && ValidHand(h)
    requires Ladder(h) == StraightFlush || Ladder(h) == Straight
    ensures Score(h, w).tieBreakers
      == [StraightHighOf(RankCounts(h)), SuitTie(h, StraightHighOf(RankCounts(h)), w && StraightHighOf(RankCounts(h)) == 5)]
  {
  }

  lemma ScoreFour(h: seq<Keyed>, w: bool)
    requires |h| == 5 && ValidHand(h)
    requires Ladder(h) == FourOfAKind
    requires Group(RankCounts(h), 4) != []
    ensures Score(h, w).tieBreakers
      == [Group(RankCounts(h), 4)[0], SuitTie(h, Group(RankCounts(h), 4)[0], false),
          HighestOfCount(Group(RankCounts(h), 1), [Group(RankCounts(h), 4)[0]]),
          SuitTie(h, HighestOfCount(Group(RankCounts(h), 1), [Group(RankCounts(h), 4)[0]]), false)]
  {
  }

  lemma ScoreFullHouse(h: seq<Keyed>, w: bool)
    requires |h| == 5 && ValidHand(h)
    requires Ladder(h) == FullHouse
    requires Group(RankCounts(h), 3) != [] && Group(RankCounts(h), 2) != []
    ensures Score(h, w).tieBreakers
      == [Group(RankCounts(h), 3)[0], SuitTie(h, Group(RankCounts(h), 3)[0], false),
          Group(RankCounts(h), 2)[0], SuitTie(h, Group(RankCounts(h), 2)[0], false)]
  {
  }

  lemma ScoreSortedKeys(h: seq<Keyed>, w: bool)
    requires |h| == 5 && ValidHand(h)
    requires Ladder(h) == Flush || Ladder(h) == HighCard
    ensures Score(h, w).tieBreakers == SortedKeys(h)
  {
  }

  lemma ScoreThree(h: seq<Keyed>, w: bool)
    requires |h| == 5 && ValidHand(h)
    requires Ladder(h) == ThreeOfAKind
    requires Group(RankCounts(h), 3) != []
    ensures Score(h, w).tieBreakers
      == [Group(RankCounts(h), 3)[0], SuitTie(h, Group(RankCounts(h), 3)[0], false)]
        + KickerKeys(h, {Group(RankCounts(h), 3)[0]}, 2)
  {
  }

  lemma ScoreTwoPair(h: seq<Keyed>, w: bool)
    requires |h| == 5 && ValidHand(h)
    requires Ladder(h) == TwoPair
    ensures Score(h, w).tieBreakers
      == [Group(RankCounts(h), 2)[0], SuitTie(h, Group(RankCounts(h), 2)[0], false),
          Group(RankCounts(h), 2)[1], SuitTie(h, Group(RankCounts(h), 2)[1], false)]
        + KickerKeys(h, {Group(RankCounts(h), 2)[0], Group(RankCounts(h), 2)[1]}, 1)
  {
  }

  lemma ScoreOnePair(h: seq<Keyed>, w: bool)
    requires |h| == 5 && ValidHand(h)
    requires Ladder(h) == OnePair
    ensures Score(h, w).tieBreakers
      == [Group(RankCounts(h), 2)[0], SuitTie(h, Group(RankCounts(h), 2)[0], false)]
        + KickerKeys(h, {Group(RankCounts(h), 2)[0]}, 3)
  {
  }

  lemma StraightIff(rc: seq<int>)
    requires |rc| == 15
    ensures StraightHighOf(rc) != -1 <==> HasStraight(rc)
  {
    StraightHighSpec(rc);
  }

  /** The facts the ladder tests agree with the reference conditions. */
  lemma LadderFacts(h: seq<Keyed>)
    ensures var rc := RankCounts(h);
      && (StraightHighOf(rc) != -1 <==> HasStraight(rc))
      && (Group(rc, 4) != [] <==> HasCount(h, 4))
      && (Group(rc, 3) != [] <==> HasCount(h, 3))
      && (|Group(rc, 2)| > 0 <==> HasCount(h, 2))
      && (|Group(rc, 2)| >= 2 <==> HasTwoPairs(h))
  {
    StraightIff(RankCounts(h));
    GroupNonEmpty(h, 4);
    GroupNonEmpty(h, 3);
    GroupNonEmpty(h, 2);
    GroupTwoPairs(h);
  }

  /** `Ladder` on facts computed elsewhere. */
  lemma LadderFrom(h: seq<Keyed>, flush: bool, straight: bool, four: bool, three: bool, pairs: nat)
    requires flush == IsFlush(h) && straight == (StraightHighOf(RankCounts(h)) != -1)
    requires four == (Group(RankCounts(h), 4) != []) && three == (Group(RankCounts(h), 3) != [])
    requires pairs == |Group(RankCounts(h), 2)|
    ensures Ladder(h) == CategoryFrom(flush, straight, four, three, pairs)
  {
  }

  /** The ladder picks the highest category whose condition holds. */
  lemma CategoryFromHighest(flush: bool, straight: bool, four: bool, three: bool, pairs: nat, c: Category)
    requires Ordinal(c) > Ordinal(CategoryFrom(flush, straight, four, three, pairs))
    ensures !QualifiesBy(c, flush, straight, four, three, pairs > 0, pairs >= 2)
  {
  }

  lemma LadderQualifies(h: seq<Keyed>)
    requires |h| == 5 && ValidHand(h)
    ensures Qualifies(h, Ladder(h))
  {
    LadderFacts(h);
  }

  lemma LadderNoHigher(h: seq<Keyed>)
    requires |h| == 5 && ValidHand(h)
    ensures forall c :: Ordinal(c) > Ordinal(Ladder(h)) ==> !Qualifies(h, c)
  {
    LadderFacts(h);
    var rc := RankCounts(h);
    forall c | Ordinal(c) > Ordinal(Ladder(h))
      ensures !Qualifies(h, c)
    {
      CategoryFromHighest(IsFlush(h), StraightHighOf(rc) != -1, Group(rc, 4) != [], Group(rc, 3) != [],
        |Group(rc, 2)|, c);
    }
  }

  // ---------------------------------------------------------------- properties of Score

  /**
   * Fixed precedence: the category `evaluate` reports is one the hand qualifies for, and the hand
   * qualifies for no higher one.
   */
  lemma ScoreIsHighestQualifying(h: seq<Keyed>, w: bool)
    requires |h| == 5 && ValidHand(h)
    ensures Qualifies(h, Score(h, w).category)
    ensures forall c :: Ordinal(c) > Ordinal(Score(h, w).category) ==> !Qualifies(h, c)
  {
    ScoreCategory(h, w);
    LadderQualifies(h);
    LadderNoHigher(h);
  }

  /** The tie-breaker array has the fixed length of its category. */
  lemma ScoreTieBreakerLength(h: seq<Keyed>, w: bool)
    requires |h| == 5 && ValidHand(h)
    ensures |Score(h, w).tieBreakers| == TieBreakerLength(Score(h, w).category)
  {
    ScoreCategory(h, w);
    var rc := RankCounts(h);
    match Ladder(h)
    case StraightFlush => ScoreStraights(h, w);
    case Straight => ScoreStraights(h, w);
    case FourOfAKind => LadderFour(h); ScoreFour(h, w);
    case FullHouse => LadderTrips(h); LadderPairs(h); ScoreFullHouse(h, w);
    case Flush =>
      ScoreSortedKeys(h, w);
      KeysExceptLength(h, 0, 0);
      SortDescSpec(KeysExcept(h, {}));
    case HighCard =>
      ScoreSortedKeys(h, w);
      KeysExceptLength(h, 0, 0);
      SortDescSpec(KeysExcept(h, {}));
    case ThreeOfAKind =>
      LadderTrips(h);
      ScoreThree(h, w);
      GroupHead(h, 3);
      KickersAvailable(h, Group(rc, 3)[0], Group(rc, 3)[0], 2);
    case TwoPair =>
      LadderTwoPair(h);
      ScoreTwoPair(h, w);
      GroupHead(h, 2);
      KickersAvailable(h, Group(rc, 2)[0], Group(rc, 2)[1], 1);
    case OnePair =>
      LadderOnePair(h);
      ScoreOnePair(h, w);
      GroupHead(h, 2);
      KickersAvailable(h, Group(rc, 2)[0], Group(rc, 2)[0], 3);
  }

  /** Flush and high-card tie-breakers are the five card keys, highest first. */
  lemma ScoreKeysDescending(h: seq<Keyed>, w: bool)
    requires |h| == 5 && ValidHand(h)
    requires Score(h, w).category == Flush || Score(h, w).category == HighCard
    ensures Descending(Score(h, w).tieBreakers)
  {
    ScoreCategory(h, w);
    ScoreSortedKeys(h, w);
    SortDescSpec(KeysExcept(h, {}));
  }

  /** ... and they are a permutation of the card keys. */
  lemma ScoreKeysPermutation(h: seq<Keyed>, w: bool)
    requires |h| == 5 && ValidHand(h)
    requires Score(h, w).category == Flush || Score(h, w).category == HighCard
    ensures multiset(Score(h, w).tieBreakers) == multiset(CardKeys(h))
  {
    ScoreCategory(h, w);
    ScoreSortedKeys(h, w);
    KeysExceptEmpty(h);
    SortDescSpec(CardKeys(h));
  }

  /** ... strictly descending when no card appears twice. */
  lemma ScoreKeysStrict(h: seq<Keyed>, w: bool)
    requires |h| == 5 && ValidHand(h) && DistinctCards(h)
    requires Score(h, w).category == Flush || Score(h, w).category == HighCard
    ensures StrictlyDescending(Score(h, w).tieBreakers)
  {
    ScoreKeysDescending(h, w);
    ScoreKeysPermutation(h, w);
    var ks := CardKeys(h);
    var tb := Score(h, w).tieBreakers;
    forall i, j | 0 <= i < j < |ks|
      ensures ks[i] != ks[j]
    {
      assert ValidCard(h[i]) && ValidCard(h[j]);
    }
    NoDupPermutation(ks, tb);
    DescendingDistinct(tb);
  }

  /**
   * The suit tie-break of a straight is the highest suit among the cards of its top rank. On a
   * wheel the aces count as well exactly when `w` is set (the server copy): the console copy
   * looks at the five only.
   */
  lemma ScoreStraightHigh(h: seq<Keyed>, w: bool)
    requires |h| == 5 && ValidHand(h)
    requires Score(h, w).category == Straight || Score(h, w).category == StraightFlush
    ensures |Score(h, w).tieBreakers| == 2
    ensures Score(h, w).tieBreakers[0] == StraightHighOf(RankCounts(h))
  {
    ScoreCategory(h, w);
    ScoreStraights(h, w);
  }

  lemma ScoreStraightSuit(h: seq<Keyed>, w: bool)
    requires |h| == 5 && ValidHand(h)
    requires Score(h, w).category == Straight || Score(h, w).category == StraightFlush
    ensures |Score(h, w).tieBreakers| == 2
    ensures var tb := Score(h, w).tieBreakers;
      && 5 <= tb[0] <= 14
      && (forall i :: 0 <= i < |h| && Matches(h[i], tb[0], w && tb[0] == 5) ==> h[i].suit <= tb[1])
      && (exists i :: 0 <= i < |h| && Matches(h[i], tb[0], w && tb[0] == 5) && h[i].suit == tb[1])
  {
    ScoreCategory(h, w);
    LadderStraight(h);
    ScoreStraights(h, w);
    var rc := RankCounts(h);
    var sh := StraightHighOf(rc);
    StraightHighSpec(rc);
    SuitTieSpec(h, sh, w && sh == 5);
    assert rc[sh] != 0 by {
      if sh >= 6 {
        assert RunAt(rc, sh);
      }
    }
    RankCountPositive(h, sh);
  }

  /** Beside four of a kind the fifth card is a rank held once, and it is the kicker. */
  lemma FourKicker(h: seq<Keyed>)
    requires |h| == 5 && ValidHand(h) && Group(RankCounts(h), 4) != []
    ensures RankCount(h, HighestOfCount(Group(RankCounts(h), 1), [Group(RankCounts(h), 4)[0]])) == 1
  {
    var rc := RankCounts(h);
    FourKickerOnes(h);
    HighestOfAbsent(Group(rc, 1), Group(rc, 4)[0]);
    GroupHead(h, 1);
  }

  /** Beside four of a kind the fifth card's rank is held once, and the four's rank is not. */
  lemma FourKickerOnes(h: seq<Keyed>)
    requires |h| == 5 && ValidHand(h) && Group(RankCounts(h), 4) != []
    ensures Group(RankCounts(h), 1) != [] && Group(RankCounts(h), 4)[0] !in Group(RankCounts(h), 1)
  {
    var rc := RankCounts(h);
    GroupHead(h, 4);
    var four := Group(rc, 4)[0];
    RankCountOther(h, four);
    var i :| 0 <= i < |h| && h[i].value != four;
    RankCountOfCard(h, i);
    RankCountBound(h, h[i].value, four);
    assert ValidCard(h[i]);
    GroupSpec(h, 1);
    assert h[i].value in Group(rc, 1);
  }

  /** Removing a rank the group does not hold leaves its head first. */
  lemma HighestOfAbsent(ones: seq<int>, x: int)
    requires ones != [] && x !in ones
    ensures HighestOfCount(ones, [x]) == ones[0]
  {
    RemoveFirstAbsent(ones, x);
    assert RemoveEach(ones, [x]) == RemoveEach(RemoveFirst(ones, x), []) == ones;
  }

  /** The rank held four times leads, then its suit, then the fifth card and its suit. */
  lemma ScoreFourRanks(h: seq<Keyed>, w: bool)
    requires |h| == 5 && ValidHand(h)
    requires Score(h, w).category == FourOfAKind
    ensures |Score(h, w).tieBreakers| == 4
    ensures var tb := Score(h, w).tieBreakers;
      && RankCount(h, tb[0]) == 4 && RankCount(h, tb[2]) == 1
      && tb[1] == SuitTie(h, tb[0], false) && tb[3] == SuitTie(h, tb[2], false)
  {
    ScoreCategory(h, w);
    LadderFour(h);
    ScoreFour(h, w);
    GroupHead(h, 4);
    FourKicker(h);
  }

  /** The rank held three times leads a full house, the pair third. */
  lemma ScoreFullHouseRanks(h: seq<Keyed>, w: bool)
    requires |h| == 5 && ValidHand(h)
    requires Score(h, w).category == FullHouse
    ensures |Score(h, w).tieBreakers| == 4
    ensures RankCount(h, Score(h, w).tieBreakers[0]) == 3 && RankCount(h, Score(h, w).tieBreakers[2]) == 2
  {
    ScoreCategory(h, w);
    FullHouseGroups(h);
    ScoreFullHouse(h, w);
  }

  /** A full house holds a rank three times and a rank twice, which head their groups. */
  lemma FullHouseGroups(h: seq<Keyed>)
    requires |h| == 5 && ValidHand(h) && Ladder(h) == FullHouse
    ensures Group(RankCounts(h), 3) != [] && RankCount(h, Group(RankCounts(h), 3)[0]) == 3
    ensures Group(RankCounts(h), 2) != [] && RankCount(h, Group(RankCounts(h), 2)[0]) == 2
  {
    LadderTrips(h);
    LadderPairs(h);
    GroupHead(h, 3);
    GroupHead(h, 2);
  }

  /** The rank held three times leads three of a kind. */
  lemma ScoreThreeRank(h: seq<Keyed>, w: bool)
    requires |h| == 5 && ValidHand(h)
    requires Score(h, w).category == ThreeOfAKind
    ensures |Score(h, w).tieBreakers| == 4
    ensures RankCount(h, Score(h, w).tieBreakers[0]) == 3
  {
    ScoreCategory(h, w);
    ScoreTieBreakerLength(h, w);
    LadderTrips(h);
    ScoreThree(h, w);
    GroupHead(h, 3);
  }

  /** The higher pair leads two pair, the lower pair third. */
  lemma ScoreTwoPairRanks(h: seq<Keyed>, w: bool)
    requires |h| == 5 && ValidHand(h)
    requires Score(h, w).category == TwoPair
    ensures |Score(h, w).tieBreakers| == 5
    ensures var tb := Score(h, w).tieBreakers;
      RankCount(h, tb[0]) == 2 && RankCount(h, tb[2]) == 2 && tb[0] > tb[2]
  {
    ScoreCategory(h, w);
    ScoreTieBreakerLength(h, w);
    LadderTwoPair(h);
    ScoreTwoPair(h, w);
    GroupHead(h, 2);
  }

  /** The paired rank leads one pair. */
  lemma ScoreOnePairRank(h: seq<Keyed>, w: bool)
    requires |h| == 5 && ValidHand(h)
    requires Score(h, w).category == OnePair
    ensures |Score(h, w).tieBreakers| == 5
    ensures RankCount(h, Score(h, w).tieBreakers[0]) == 2
  {
    ScoreCategory(h, w);
    ScoreTieBreakerLength(h, w);
    LadderOnePair(h);
    ScoreOnePair(h, w);
    GroupHead(h, 2);
  }

  /** No suit is counted more often than there are cards, and all of them exactly when they share it. */
  lemma {:induction false} SuitCountAll(h: seq<Keyed>, s: int)
    ensures SuitCount(h, s) <= |h|
    ensures SuitCount(h, s) == |h| <==> forall i :: 0 <= i < |h| ==> h[i].suitIndex == s
  {
    if h != [] {
      var init := h[..|h| - 1];
      SuitCountAll(init, s);
      assert forall i :: 0 <= i < |init| ==> init[i] == h[i];
    }
  }

  /** A five-card hand is a flush exactly when every card has the suit of the first. */
  lemma FlushIffOneSuit(h: seq<Keyed>)
    requires |h| == 5 && ValidHand(h)
    ensures IsFlush(h) <==> forall i :: 0 <= i < 5 ==> h[i].suitIndex == h[0].suitIndex
  {
    SuitCountAll(h, h[0].suitIndex);
    assert ValidCard(h[0]);
    if IsFlush(h) {
      var s :| 0 <= s < 4 && SuitCount(h, s) == 5;
      SuitCountAll(h, s);
    }
  }
}
