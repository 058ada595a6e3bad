/**
 * The imperative evaluator `PokerEval.evaluate`: the counting arrays, the straight scan, the
 * grouping map and the category ladder, each proved to compute `PokerSpec.Score`.
 */
module PokerEval {
  import opened Wrappers
  import opened PokerScore
  import opened PokerSpec
  import opened PokerFacts

  /** `straightHigh` over the `rankCounts` array. */
  method StraightHigh(rankCounts: array<int>) returns (r: int)
    requires rankCounts.Length == 15
    ensures r == StraightHighOf(rankCounts[..])
  {
    ghost var rc := rankCounts[..];
    var high := 14;
    while high >= 6
      invariant 5 <= high <= 14
      invariant rc == rankCounts[..]
      invariant StraightHighFrom(rc, high) == StraightHighOf(rc)
    {
      var ok := true;
      var d := 0;
      while d < 5
        invariant 0 <= d <= 5
        invariant ok ==> forall v :: high - d < v <= high ==> rc[v] != 0
        invariant !ok ==> !RunAt(rc, high)
      {
        if rankCounts[high - d] == 0 {
          ok := false;
          break;
        }
        d := d + 1;
      }
      if ok {
        return high;
      }
      high := high - 1;
    }
    if rankCounts[14] > 0 && rankCounts[5] > 0 && rankCounts[4] > 0
      && rankCounts[3] > 0 && rankCounts[2] > 0 {
      return 5;
    }
    return -1;
  }

  /** `maxSuitAmong`: the loop over the hand with its running maximum. */
  method MaxSuitAmong(hand: seq<Keyed>, rankValue: int) returns (r: int)
    ensures r == SuitTie(hand, rankValue, false)
  {
    var best := -1;
    var i := 0;
    while i < |hand|
      invariant 0 <= i <= |hand|
      invariant best == MaxSuitOf(hand[..i], rankValue, false)
    {
      assert hand[..i + 1][..i] == hand[..i];
      if hand[i].value == rankValue {
        best := if best > hand[i].suit then best else hand[i].suit;
      }
      i := i + 1;
    }
    assert hand[..|hand|] == hand;
    r := if best > 0 then best else 0;
  }

  /**
   * `highestSuitForRank`: like `maxSuitAmong` for the straight's high card; with `wheelAce`
   * (the server copy) the aces count too when the straight is the wheel.
   */
  method HighestSuitForRank(hand: seq<Keyed>, rankHigh: int, wheelAce: bool) returns (r: int)
    ensures r == SuitTie(hand, rankHigh, wheelAce && rankHigh == 5)
  {
    var best := -1;
    var i := 0;
    while i < |hand|
      invariant 0 <= i <= |hand|
      invariant best == MaxSuitOf(hand[..i], rankHigh, wheelAce && rankHigh == 5)
    {
      assert hand[..i + 1][..i] == hand[..i];
      var value := hand[i].value;
      if value == rankHigh || (wheelAce && rankHigh == 5 && value == 14) {
        best := if best > hand[i].suit then best else hand[i].suit;
      }
      i := i + 1;
    }
    assert hand[..|hand|] == hand;
    r := if best > 0 then best else 0;
  }

  /** The counting loop of `evaluate`: `rankCounts` by rank value, `suitCounts` by suit ordinal. */
  method CountCards(hand: seq<Keyed>) returns (rankCounts: array<int>, suitCounts: array<int>)
    requires ValidHand(hand)
    ensures fresh(rankCounts) && fresh(suitCounts)
    ensures rankCounts[..] == RankCounts(hand)
    ensures suitCounts.Length == 4 && forall s :: 0 <= s < 4 ==> suitCounts[s] == SuitCount(hand, s)
  {
    rankCounts := new int[15](_ => 0);
    suitCounts := new int[4](_ => 0);
    for i := 0 to |hand|
      invariant forall v :: 0 <= v < 15 ==> rankCounts[v] == RankCount(hand[..i], v)
      invariant forall s :: 0 <= s < 4 ==> suitCounts[s] == SuitCount(hand[..i], s)
    {
      assert hand[..i + 1][..i] == hand[..i];
      rankCounts[hand[i].value] := rankCounts[hand[i].value] + 1;
      suitCounts[hand[i].suitIndex] := suitCounts[hand[i].suitIndex] + 1;
    }
    assert hand[..|hand|] == hand;
  }

  /** The flush test of `evaluate`: some suit count is 5. */
  method AnySuitFive(suitCounts: array<int>) returns (flush: bool)
    requires suitCounts.Length == 4
    ensures flush <==> exists s :: 0 <= s < 4 && suitCounts[s] == 5
  {
    flush := false;
    for s := 0 to 4
      invariant !flush
      invariant forall j :: 0 <= j < s ==> suitCounts[j] != 5
    {
      if suitCounts[s] == 5 {
        flush := true;
        break;
      }
    }
  }

  /** The grouping loop of `evaluate`: count -> ranks held that many times, highest first. */
  method GroupRanks(rankCounts: array<int>) returns (groups: map<int, seq<int>>)
    requires rankCounts.Length == 15
    ensures forall c :: c > 0 ==> GetOrDefault(groups, c) == Group(rankCounts[..], c)
  {
    ghost var rc := rankCounts[..];
    groups := map[];
    var rv := 14;
    while rv >= 2
      invariant 1 <= rv <= 14
      invariant groups == GroupsFrom(rc, rv + 1)
    {
      var cnt := rankCounts[rv];
      if cnt > 0 {
        groups := groups[cnt := GetOrDefault(groups, cnt) + [rv]];
      }
      rv := rv - 1;
    }
    assert rv == 1;
    assert rc == rankCounts[..] && groups == GroupsFrom(rc, 2);
    GroupsAll(rc);
  }

  /** Once every rank is looked at, the loop's map is the grouping of every rank. */
  lemma GroupsAll(rc: seq<int>)
    requires |rc| == 15
    ensures forall c :: c > 0 ==> GetOrDefault(GroupsFrom(rc, 2), c) == Group(rc, c)
  {
    GroupsFromSpec(rc, 2);
  }

  /** The map the grouping loop has built once it has looked at the ranks from `lo` up. */
  ghost function GroupsFrom(rc: seq<int>, lo: int): map<int, seq<int>>
    requires |rc| == 15 && 2 <= lo <= 15
    decreases 15 - lo
  {
    if lo == 15 then map[]
    else
      var g := GroupsFrom(rc, lo + 1);
      if rc[lo] > 0 then g[rc[lo] := GetOrDefault(g, rc[lo]) + [lo]] else g
  }

  /** What the loop has built maps each count to the ranks from `lo` up held that many times. */
  lemma {:induction false} GroupsFromSpec(rc: seq<int>, lo: int)
    requires |rc| == 15 && 2 <= lo <= 15
    ensures GroupedFrom(GroupsFrom(rc, lo), rc, lo)
    decreases 15 - lo
  {
    if lo < 15 {
      GroupsFromSpec(rc, lo + 1);
      GroupStep(rc, GroupsFrom(rc, lo + 1), GroupsFrom(rc, lo), lo);
    }
  }

  /** `groups` maps each count to the ranks from `lo` up held that many times, highest first. */
  ghost predicate GroupedFrom(groups: map<int, seq<int>>, rc: seq<int>, lo: int)
    requires |rc| == 15 && 2 <= lo <= 15
  {
    forall c :: c > 0 ==> GetOrDefault(groups, c) == RanksWithCount(rc, c, lo)
  }

  /** One step of the grouping loop appends the rank to the list of its count. */
  lemma GroupStep(rc: seq<int>, before: map<int, seq<int>>, after: map<int, seq<int>>, rv: int)
    requires |rc| == 15 && 2 <= rv <= 14
    requires GroupedFrom(before, rc, rv + 1)
    requires after == if rc[rv] > 0 then before[rc[rv] := GetOrDefault(before, rc[rv]) + [rv]] else before
    ensures GroupedFrom(after, rc, rv)
  {
    forall c | c > 0
      ensures GetOrDefault(after, c) == RanksWithCount(rc, c, rv)
    {
      assert RanksWithCount(rc, c, rv) == RanksWithCount(rc, c, rv + 1) + (if rc[rv] == c then [rv] else []);
      if c != rc[rv] {
        assert GetOrDefault(after, c) == GetOrDefault(before, c);
      }
    }
  }

  /** `evaluate`: throws unless the hand has exactly five cards, and otherwise returns `Score`. */
  method Evaluate(hand: seq<Keyed>, wheelAce: bool) returns (r: Result<HandScore>)
    requires ValidHand(hand)
    ensures r.Err? <==> |hand| != 5
    ensures r.Ok? ==> |hand| == 5 && r.value == Score(hand, wheelAce)
  {
    if |hand| != 5 {
      return Err("need exactly 5 cards");
    }
    var rankCounts, suitCounts := CountCards(hand);
    var flush := AnySuitFive(suitCounts);
    var straightHigh := StraightHigh(rankCounts);
    var groups := GroupRanks(rankCounts);
    assert GetOrDefault(groups, 1) == Group(rankCounts[..], 1);
    assert GetOrDefault(groups, 2) == Group(rankCounts[..], 2);
    assert GetOrDefault(groups, 3) == Group(rankCounts[..], 3);
    assert GetOrDefault(groups, 4) == Group(rankCounts[..], 4);
    var score := Classify(hand, wheelAce, flush, straightHigh, groups);
    return Ok(score);
  }

  /**
   * The category ladder of `evaluate`, once the counts, the straight and the groups are known; one
   * method per rung, each handing the hand down when its test fails.
   */
  method Classify(hand: seq<Keyed>, wheelAce: bool, flush: bool, straightHigh: int, groups: map<int, seq<int>>)
    returns (score: HandScore)
    requires |hand| == 5 && ValidHand(hand)
    requires flush == IsFlush(hand)
    requires straightHigh == StraightHighOf(RankCounts(hand))
    requires GetOrDefault(groups, 1) == Group(RankCounts(hand), 1)
    requires GetOrDefault(groups, 2) == Group(RankCounts(hand), 2)
    requires GetOrDefault(groups, 3) == Group(RankCounts(hand), 3)
    requires GetOrDefault(groups, 4) == Group(RankCounts(hand), 4)
    ensures score == Score(hand, wheelAce)
  {
    var fours := GetOrDefault(groups, 4);
    var trips := GetOrDefault(groups, 3);
    var pairs := GetOrDefault(groups, 2);
    var ones := GetOrDefault(groups, 1);
    if flush && straightHigh != -1 {
      assert Ladder(hand) == StraightFlush by {
        LadderFrom(hand, flush, true, fours != [], trips != [], |pairs|);
      }
      score := StraightScore(hand, wheelAce, StraightFlush, straightHigh);
    } else {
      score := ClassifyFour(hand, wheelAce, flush, straightHigh, fours, trips, pairs, ones);
    }
  }

  method ClassifyFour(hand: seq<Keyed>, wheelAce: bool, flush: bool, straightHigh: int,
    fours: seq<int>, trips: seq<int>, pairs: seq<int>, ones: seq<int>) returns (score: HandScore)
    requires |hand| == 5 && ValidHand(hand)
    requires flush == IsFlush(hand) && straightHigh == StraightHighOf(RankCounts(hand))
    requires fours == Group(RankCounts(hand), 4) && trips == Group(RankCounts(hand), 3)
    requires pairs == Group(RankCounts(hand), 2) && ones == Group(RankCounts(hand), 1)
    requires !(flush && straightHigh != -1)
    ensures score == Score(hand, wheelAce)
  {
    if fours != [] {
      assert Ladder(hand) == FourOfAKind by {
        LadderFrom(hand, flush, straightHigh != -1, true, trips != [], |pairs|);
      }
      score := FourScore(hand, wheelAce, fours[0], ones);
    } else {
      score := ClassifyFullHouse(hand, wheelAce, flush, straightHigh, fours, trips, pairs, ones);
    }
  }

  method ClassifyFullHouse(hand: seq<Keyed>, wheelAce: bool, flush: bool, straightHigh: int,
    fours: seq<int>, trips: seq<int>, pairs: seq<int>, ones: seq<int>) returns (score: HandScore)
    requires |hand| == 5 && ValidHand(hand)
    requires flush == IsFlush(hand) && straightHigh == StraightHighOf(RankCounts(hand))
    requires fours == Group(RankCounts(hand), 4) && trips == Group(RankCounts(hand), 3)
    requires pairs == Group(RankCounts(hand), 2) && ones == Group(RankCounts(hand), 1)
    requires !(flush && straightHigh != -1) && fours == []
    ensures score == Score(hand, wheelAce)
  {
    if trips != [] && pairs != [] {
      assert Ladder(hand) == FullHouse by {
        LadderFrom(hand, flush, straightHigh != -1, false, true, |pairs|);
      }
      score := FullHouseScore(hand, wheelAce, trips[0], pairs[0]);
    } else {
      score := ClassifyFlush(hand, wheelAce, flush, straightHigh, fours, trips, pairs, ones);
    }
  }

  method ClassifyFlush(hand: seq<Keyed>, wheelAce: bool, flush: bool, straightHigh: int,
    fours: seq<int>, trips: seq<int>, pairs: seq<int>, ones: seq<int>) returns (score: HandScore)
    requires |hand| == 5 && ValidHand(hand)
    requires flush == IsFlush(hand) && straightHigh == StraightHighOf(RankCounts(hand))
    requires fours == Group(RankCounts(hand), 4) && trips == Group(RankCounts(hand), 3)
    requires pairs == Group(RankCounts(hand), 2) && ones == Group(RankCounts(hand), 1)
    requires !(flush && straightHigh != -1) && fours == [] && !(trips != [] && pairs != [])
    ensures score == Score(hand, wheelAce)
  {
    if flush {
      assert Ladder(hand) == Flush by {
        LadderFrom(hand, flush, straightHigh != -1, false, trips != [], |pairs|);
      }
      SortedKeysScore(hand, wheelAce);
      score := HandScore(Flush, SortedKeys(hand));
    } else {
      score := ClassifyStraight(hand, wheelAce, straightHigh, trips, pairs);
    }
  }

  method ClassifyStraight(hand: seq<Keyed>, wheelAce: bool, straightHigh: int, trips: seq<int>, pairs: seq<int>)
    returns (score: HandScore)
    requires |hand| == 5 && ValidHand(hand)
    requires !IsFlush(hand) && straightHigh == StraightHighOf(RankCounts(hand))
    requires Group(RankCounts(hand), 4) == [] && trips == Group(RankCounts(hand), 3)
    requires pairs == Group(RankCounts(hand), 2) && !(trips != [] && pairs != [])
    ensures score == Score(hand, wheelAce)
  {
    LadderNoFlush(hand);
    if straightHigh != -1 {
      score := StraightScore(hand, wheelAce, Straight, straightHigh);
    } else {
      score := ClassifyPairs(hand, wheelAce, trips, pairs);
    }
  }

  /** Without a flush, four of a kind or a full house, a hand is a straight or ranks at most three of a kind. */
  lemma LadderNoFlush(hand: seq<Keyed>)
    requires !IsFlush(hand) && Group(RankCounts(hand), 4) == []
    requires !(Group(RankCounts(hand), 3) != [] && Group(RankCounts(hand), 2) != [])
    ensures StraightHighOf(RankCounts(hand)) != -1 ==> Ladder(hand) == Straight
    ensures StraightHighOf(RankCounts(hand)) == -1 ==> Ordinal(Ladder(hand)) <= Ordinal(ThreeOfAKind)
  {
    var rc := RankCounts(hand);
    var straight, three, pairs := StraightHighOf(rc) != -1, Group(rc, 3) != [], |Group(rc, 2)|;
    assert Ladder(hand) == CategoryFrom(false, straight, false, three, pairs);
    CategoryNoFlush(straight, three, pairs);
  }

  /** The ladder without a flush, four of a kind or a full house. */
  lemma CategoryNoFlush(straight: bool, three: bool, pairs: nat)
    requires !(three && pairs > 0)
    ensures straight ==> CategoryFrom(false, straight, false, three, pairs) == Straight
    ensures !straight ==> Ordinal(CategoryFrom(false, straight, false, three, pairs)) <= Ordinal(ThreeOfAKind)
  {
  }

  method StraightScore(hand: seq<Keyed>, wheelAce: bool, category: Category, straightHigh: int)
    returns (score: HandScore)
    requires |hand| == 5 && ValidHand(hand)
    requires category == StraightFlush || category == Straight
    requires Ladder(hand) == category && straightHigh == StraightHighOf(RankCounts(hand))
    ensures score == Score(hand, wheelAce)
  {
    ScoreCategory(hand, wheelAce);
    ScoreStraights(hand, wheelAce);
    var suitTie := HighestSuitForRank(hand, straightHigh, wheelAce);
    return HandScore(category, [straightHigh, suitTie]);
  }

  method FourScore(hand: seq<Keyed>, wheelAce: bool, four: int, ones: seq<int>) returns (score: HandScore)
    requires |hand| == 5 && ValidHand(hand)
    requires Ladder(hand) == FourOfAKind
    requires Group(RankCounts(hand), 4) != [] && four == Group(RankCounts(hand), 4)[0]
    requires ones == Group(RankCounts(hand), 1)
    ensures score == Score(hand, wheelAce)
  {
    ScoreCategory(hand, wheelAce);
    ScoreFour(hand, wheelAce);
    var fourSuit := MaxSuitAmong(hand, four);
    var kicker := HighestOfCount(ones, [four]);
    var kickerSuit := MaxSuitAmong(hand, kicker);
    return HandScore(FourOfAKind, [four, fourSuit, kicker, kickerSuit]);
  }

  method FullHouseScore(hand: seq<Keyed>, wheelAce: bool, three: int, pair: int) returns (score: HandScore)
    requires |hand| == 5 && ValidHand(hand)
    requires Ladder(hand) == FullHouse
    requires Group(RankCounts(hand), 3) != [] && three == Group(RankCounts(hand), 3)[0]
    requires Group(RankCounts(hand), 2) != [] && pair == Group(RankCounts(hand), 2)[0]
    ensures score == Score(hand, wheelAce)
  {
    ScoreCategory(hand, wheelAce);
    ScoreFullHouse(hand, wheelAce);
    var threeSuit := MaxSuitAmong(hand, three);
    var pairSuit := MaxSuitAmong(hand, pair);
    return HandScore(FullHouse, [three, threeSuit, pair, pairSuit]);
  }

  /** The lower rungs of the ladder: three of a kind, two pair, one pair, high card. */
  method ClassifyPairs(hand: seq<Keyed>, wheelAce: bool, trips: seq<int>, pairs: seq<int>)
    returns (score: HandScore)
    requires |hand| == 5 && ValidHand(hand)
    requires Ordinal(Ladder(hand)) <= Ordinal(ThreeOfAKind)
    requires trips == Group(RankCounts(hand), 3) && pairs == Group(RankCounts(hand), 2)
    ensures score == Score(hand, wheelAce)
  {
    if trips != [] {
      score := ThreeOfAKindScore(hand, wheelAce, trips[0]);
    } else if |pairs| >= 2 {
      score := TwoPairScore(hand, wheelAce, pairs[0], pairs[1]);
    } else if |pairs| == 1 {
      score := OnePairScore(hand, wheelAce, pairs[0]);
    } else {
      SortedKeysScore(hand, wheelAce);
      score := HandScore(HighCard, SortedKeys(hand));
    }
  }

  method ThreeOfAKindScore(hand: seq<Keyed>, wheelAce: bool, three: int) returns (score: HandScore)
    requires |hand| == 5 && ValidHand(hand)
    requires Ladder(hand) == ThreeOfAKind
    requires Group(RankCounts(hand), 3) != [] && three == Group(RankCounts(hand), 3)[0]
    ensures score == Score(hand, wheelAce)
  {
    var threeSuit := MaxSuitAmong(hand, three);
    var kickers := KickerKeys(hand, {three}, 2);
    ThreeScore(hand, wheelAce, three, kickers);
    return HandScore(ThreeOfAKind, [three, threeSuit, kickers[0], kickers[1]]);
  }

  /** A flush or a high card scores its sorted keys. */
  lemma SortedKeysScore(hand: seq<Keyed>, wheelAce: bool)
    requires |hand| == 5 && ValidHand(hand)
    requires Ladder(hand) == Flush || Ladder(hand) == HighCard
    ensures Score(hand, wheelAce) == HandScore(Ladder(hand), SortedKeys(hand))
  {
    ScoreCategory(hand, wheelAce);
    ScoreSortedKeys(hand, wheelAce);
  }

  /** Three of a kind scores its rank, that rank's best suit, and two kickers. */
  lemma ThreeScore(hand: seq<Keyed>, wheelAce: bool, three: int, kickers: seq<int>)
    requires |hand| == 5 && ValidHand(hand)
    requires Ladder(hand) == ThreeOfAKind
    requires Group(RankCounts(hand), 3) != [] && three == Group(RankCounts(hand), 3)[0]
    requires kickers == KickerKeys(hand, {three}, 2)
    ensures |kickers| == 2
    ensures Score(hand, wheelAce) == HandScore(ThreeOfAKind, [three, SuitTie(hand, three, false), kickers[0], kickers[1]])
  {
    ThreeKickers(hand);
    ScoreCategory(hand, wheelAce);
    ScoreThree(hand, wheelAce);
    PairThenTwo(three, SuitTie(hand, three, false), kickers);
  }

  lemma PairThenTwo(a: int, b: int, ks: seq<int>)
    requires |ks| == 2
    ensures [a, b] + ks == [a, b, ks[0], ks[1]]
  {
  }

  /** Next to three of a kind, two kickers are left. */
  lemma ThreeKickers(hand: seq<Keyed>)
    requires |hand| == 5 && Group(RankCounts(hand), 3) != []
    ensures |KickerKeys(hand, {Group(RankCounts(hand), 3)[0]}, 2)| == 2
  {
    var three := Group(RankCounts(hand), 3)[0];
    GroupHead(hand, 3);
    KickersAvailable(hand, three, three, 2);
  }

  method TwoPairScore(hand: seq<Keyed>, wheelAce: bool, highPair: int, lowPair: int) returns (score: HandScore)
    requires |hand| == 5 && ValidHand(hand)
    requires Ladder(hand) == TwoPair
    requires |Group(RankCounts(hand), 2)| >= 2
    requires highPair == Group(RankCounts(hand), 2)[0] && lowPair == Group(RankCounts(hand), 2)[1]
    ensures score == Score(hand, wheelAce)
  {
    ScoreCategory(hand, wheelAce);
    ScoreTwoPair(hand, wheelAce);
    ScoreTieBreakerLength(hand, wheelAce);
    var highSuit := MaxSuitAmong(hand, highPair);
    var lowSuit := MaxSuitAmong(hand, lowPair);
    var kicker := KickerKeys(hand, {highPair, lowPair}, 1);
    assert [highPair, highSuit, lowPair, lowSuit] + kicker == [highPair, highSuit, lowPair, lowSuit, kicker[0]];
    return HandScore(TwoPair, [highPair, highSuit, lowPair, lowSuit, kicker[0]]);
  }

  method OnePairScore(hand: seq<Keyed>, wheelAce: bool, pair: int) returns (score: HandScore)
    requires |hand| == 5 && ValidHand(hand)
    requires Ladder(hand) == OnePair
    requires |Group(RankCounts(hand), 2)| == 1 && pair == Group(RankCounts(hand), 2)[0]
    ensures score == Score(hand, wheelAce)
  {
    ScoreCategory(hand, wheelAce);
    ScoreOnePair(hand, wheelAce);
    ScoreTieBreakerLength(hand, wheelAce);
    var pairSuit := MaxSuitAmong(hand, pair);
    var kickers := KickerKeys(hand, {pair}, 3);
    assert [pair, pairSuit] + kickers == [pair, pairSuit, kickers[0], kickers[1], kickers[2]];
    return HandScore(OnePair, [pair, pairSuit, kickers[0], kickers[1], kickers[2]]);
  }
}
