/**
 * Who opens each street in `SevenPokerGame`: every seat's face-up cards are read by
 * `openCards`, ranked by `leadCategory` and the descending card keys (`leadScore`), and
 * `LeadScore.compareTo` orders the results. The category is a small poker ladder over up to
 * four cards: three-card straights and flushes count.
 */
module SevenLead {
  import opened PokerScore
  import opened PokerSpec
  import opened ServerCard
  import opened ServerPoker
  import opened SevenTable
  import PokerEval

  function Min(a: int, b: int): int { if a < b then a else b }

  /**
   * `openCards`: nothing while a seat holds two cards or fewer; the third card on 3rd street;
   * later, the cards from the third up to index `2 + stage`, never past index 5.
   */
  function OpenCards(cards: seq<Card>, stage: int): (open: seq<Card>)
    ensures |open| <= 4
    ensures forall c :: c in open ==> c in cards
  {
    if |cards| <= 2 then []
    else if stage <= 0 then [cards[2]]
    else
      var maxIndex := if stage >= 4 then Min(5, |cards| - 1) else Min(2 + stage, |cards| - 1);
      cards[2..maxIndex + 1]
  }

  /**
   * The position of a seat's card in the deal: `start` gives two down cards and one up card,
   * and street `k` (4th to 7th) deals card `2 + k`, face up as `STREETS` says.
   */
  predicate DealtFaceUp(i: int)
  {
    i == 2 || (3 <= i <= 6 && FaceUpCard[i - 2])
  }

  /**
   * With the cards a seat holds on a street (3 on 3rd street, one more per street), the open
   * cards are exactly the ones dealt face up, in the order dealt: the 7th-street card stays hidden.
   */
  lemma OpenCardsAreUpCards(cards: seq<Card>, stage: int)
    requires 0 <= stage < StreetCount && |cards| == 3 + stage
    ensures |OpenCards(cards, stage)| == (if stage == 4 then 4 else stage + 1)
    ensures forall i :: 0 <= i < |OpenCards(cards, stage)| ==> OpenCards(cards, stage)[i] == cards[i + 2] && DealtFaceUp(i + 2)
    ensures forall i :: 2 <= i < |cards| && DealtFaceUp(i) ==> cards[i] in OpenCards(cards, stage)
  {
    var open := OpenCards(cards, stage);
    forall i | 2 <= i < |cards| && DealtFaceUp(i)
      ensures cards[i] in open
    {
      assert open[i - 2] == cards[i];
    }
  }

  /** What `leadScore` ranks a seat by. */
  datatype LeadScore = LeadScore(category: int, keys: seq<int>)

  /** `LeadScore.compareTo`: category first, then the keys lexicographically, then their number. */
  function LeadCompare(x: LeadScore, y: LeadScore): int
  {
    if x.category != y.category then IntCompare(x.category, y.category)
    else LexFrom(x.keys, y.keys, 0)
  }

  lemma LeadCompareReflexive(x: LeadScore)
    ensures LeadCompare(x, x) == 0
  {
    LexFromZero(x.keys, x.keys, 0);
  }

  lemma LeadCompareAntisymmetric(x: LeadScore, y: LeadScore)
    ensures LeadCompare(x, y) == -LeadCompare(y, x)
  {
    LexFromSign(x.keys, y.keys, 0);
  }

  lemma LeadCompareTransitive(x: LeadScore, y: LeadScore, z: LeadScore)
    requires LeadCompare(x, y) >= 0 && LeadCompare(y, z) >= 0
    ensures LeadCompare(x, z) >= 0
    ensures LeadCompare(x, y) > 0 || LeadCompare(y, z) > 0 ==> LeadCompare(x, z) > 0
  {
    if x.category == y.category == z.category {
      LexFromTransitive(x.keys, y.keys, z.keys, 0);
    }
  }

  /** `LeadScore.compareTo`, with its loop over the common prefix of the keys. */
  method LeadCompareTo(x: LeadScore, y: LeadScore) returns (cmp: int)
    ensures cmp == LeadCompare(x, y)
  {
    cmp := IntCompare(x.category, y.category);
    if cmp != 0 {
      return;
    }
    var len := Min(|x.keys|, |y.keys|);
    var i := 0;
    while i < len
      invariant 0 <= i <= len
      invariant LexFrom(x.keys, y.keys, i) == LexFrom(x.keys, y.keys, 0)
    {
      cmp := IntCompare(x.keys[i], y.keys[i]);
      if cmp != 0 {
        return;
      }
      i := i + 1;
    }
    cmp := IntCompare(|x.keys|, |y.keys|);
  }

  // ---------------------------------------------------------------- leadCategory

  /** The largest count among ranks `2 .. v - 1` (0 when there is none). */
  function MaxCountBelow(rc: seq<int>, v: int): int
    requires |rc| == 15 && 2 <= v <= 15
    decreases v
  {
    if v == 2 then 0 else
      var m := MaxCountBelow(rc, v - 1);
      if rc[v - 1] > m then rc[v - 1] else m
  }

  /** How many of the ranks `2 .. v - 1` are held exactly `k` times. */
  function CountWith(rc: seq<int>, k: int, v: int): nat
    requires |rc| == 15 && 2 <= v <= 15
    decreases v
  {
    if v == 2 then 0 else CountWith(rc, k, v - 1) + (if rc[v - 1] == k then 1 else 0)
  }

  /** How many of the ranks `2 .. v - 1` are held at all (the size of the `ranks` set). */
  function CountPresent(rc: seq<int>, v: int): nat
    requires |rc| == 15 && 2 <= v <= 15
    decreases v
  {
    if v == 2 then 0 else CountPresent(rc, v - 1) + (if rc[v - 1] > 0 then 1 else 0)
  }

  /** Ranks `v`, `v + 1` and `v + 2` are all held. */
  predicate Three(rc: seq<int>, v: int)
    requires |rc| == 15 && 2 <= v <= 12
  {
    rc[v] > 0 && rc[v + 1] > 0 && rc[v + 2] > 0
  }

  /** `isStraight`: at least three ranks, and three in a row or ace-two-three. */
  predicate LeadStraight(rc: seq<int>)
    requires |rc| == 15
  {
    && CountPresent(rc, 15) >= 3
    && ((exists v :: 2 <= v <= 12 && Three(rc, v)) || (rc[14] > 0 && rc[2] > 0 && rc[3] > 0))
  }

  /** Every rank of three in a row or of ace-two-three is held, so the size test never decides. */
  lemma {:induction false} CountPresentAtLeast(rc: seq<int>, a: int, b: int, c: int, v: int)
    requires |rc| == 15 && 2 <= v <= 15 && 2 <= a < b < c < v
    requires rc[a] > 0 && rc[b] > 0 && rc[c] > 0
    ensures CountPresent(rc, v) >= 3
    decreases v
  {
    if c < v - 1 {
      CountPresentAtLeast(rc, a, b, c, v - 1);
    } else {
      CountPresentAtLeastTwo(rc, a, b, v - 1);
    }
  }

  lemma {:induction false} CountPresentAtLeastTwo(rc: seq<int>, a: int, b: int, v: int)
    requires |rc| == 15 && 2 <= v <= 15 && 2 <= a < b < v
    requires rc[a] > 0 && rc[b] > 0
    ensures CountPresent(rc, v) >= 2
    decreases v
  {
    if b < v - 1 {
      CountPresentAtLeastTwo(rc, a, b, v - 1);
    } else {
      CountPresentAtLeastOne(rc, a, v - 1);
    }
  }

  lemma {:induction false} CountPresentAtLeastOne(rc: seq<int>, a: int, v: int)
    requires |rc| == 15 && 2 <= v <= 15 && 2 <= a < v && rc[a] > 0
    ensures CountPresent(rc, v) >= 1
    decreases v
  {
    if a < v - 1 {
      CountPresentAtLeastOne(rc, a, v - 1);
    }
  }

  /** The `ranks.size() < 3` test of `isStraight` never changes its answer. */
  lemma LeadStraightWithoutSize(rc: seq<int>)
    requires |rc| == 15
    ensures LeadStraight(rc) <==> (exists v :: 2 <= v <= 12 && Three(rc, v)) || (rc[14] > 0 && rc[2] > 0 && rc[3] > 0)
  {
    if v :| 2 <= v <= 12 && Three(rc, v) {
      CountPresentAtLeast(rc, v, v + 1, v + 2, 15);
    } else if rc[14] > 0 && rc[2] > 0 && rc[3] > 0 {
      CountPresentAtLeast(rc, 2, 3, 14, 15);
    }
  }

  /** Some suit holds every open card (`suitCounts` only has entries for suits that occur). */
  predicate LeadFlush(h: seq<Keyed>)
  {
    exists s :: 0 <= s < 4 && SuitCount(h, s) > 0 && SuitCount(h, s) == |h|
  }

  /** `leadCategory`: the ladder over the open cards, from 8 (straight flush) down to 0. */
  function LeadCategory(open: seq<Card>): (c: int)
    ensures 0 <= c <= 8
  {
    var h := KeyedHand(open);
    var rc := RankCounts(h);
    var flush := LeadFlush(h);
    var straight := LeadStraight(rc);
    var pairs := CountWith(rc, 2, 15);
    var trips := CountWith(rc, 3, 15);
    if straight && flush && |open| >= 3 then 8
    else if MaxCountBelow(rc, 15) >= 4 then 7
    else if trips >= 1 && pairs >= 1 then 6
    else if flush && |open| >= 3 then 5
    else if straight && |open| >= 3 then 4
    else if trips >= 1 then 3
    else if pairs >= 2 then 2
    else if pairs == 1 then 1
    else 0
  }

  /** A single open card (3rd street) has category 0: it is no pair, flush or straight. */
  lemma LeadCategoryOneCard(c: Card)
    ensures LeadCategory([c]) == 0
  {
    var h := KeyedHand([c]);
    var rc := RankCounts(h);
    var v := h[0].value;
    forall w | 0 <= w < 15
      ensures rc[w] == (if w == v then 1 else 0)
    {
      RankCountSingle(h[0], w);
      assert h == [h[0]];
    }
    CountOneRank(rc, v, 2, 15);
    CountOneRank(rc, v, 3, 15);
    MaxOneRank(rc, v, 15);
  }

  lemma RankCountSingle(k: Keyed, w: int)
    ensures RankCount([k], w) == if k.value == w then 1 else 0
  {
    assert [k][..0] == [];
  }

  lemma {:induction false} CountOneRank(rc: seq<int>, v: int, k: int, w: int)
    requires |rc| == 15 && 2 <= w <= 15 && k >= 2
    requires forall x :: 0 <= x < 15 ==> rc[x] == (if x == v then 1 else 0)
    ensures CountWith(rc, k, w) == 0
    decreases w
  {
    if w > 2 {
      CountOneRank(rc, v, k, w - 1);
    }
  }

  lemma {:induction false} MaxOneRank(rc: seq<int>, v: int, w: int)
    requires |rc| == 15 && 2 <= w <= 15
    requires forall x :: 0 <= x < 15 ==> rc[x] == (if x == v then 1 else 0)
    ensures MaxCountBelow(rc, w) <= 1
    decreases w
  {
    if w > 2 {
      MaxOneRank(rc, v, w - 1);
    }
  }

  /** The loop over `rankCounts.values()`: the largest count and how many pairs and trips. */
  method CountGroups(rankCounts: array<int>) returns (maxCount: int, pairCount: int, tripleCount: int)
    requires rankCounts.Length == 15
    ensures maxCount == MaxCountBelow(rankCounts[..], 15)
    ensures pairCount == CountWith(rankCounts[..], 2, 15)
    ensures tripleCount == CountWith(rankCounts[..], 3, 15)
  {
    ghost var rc := rankCounts[..];
    maxCount, pairCount, tripleCount := 0, 0, 0;
    for v := 2 to 15
      invariant maxCount == MaxCountBelow(rc, v)
      invariant pairCount == CountWith(rc, 2, v)
      invariant tripleCount == CountWith(rc, 3, v)
    {
      var cnt := rankCounts[v];
      if cnt > maxCount {
        maxCount := cnt;
      }
      if cnt == 2 {
        pairCount := pairCount + 1;
      } else if cnt == 3 {
        tripleCount := tripleCount + 1;
      }
    }
  }

  /** The flush loop over `suitCounts.values()`: some suit that occurs holds every card. */
  method AnySuitAll(suitCounts: array<int>, size: int) returns (flush: bool)
    requires suitCounts.Length == 4
    ensures flush <==> exists s :: 0 <= s < 4 && suitCounts[s] > 0 && suitCounts[s] == size
  {
    flush := false;
    for s := 0 to 4
      invariant !flush
      invariant forall j :: 0 <= j < s ==> !(suitCounts[j] > 0 && suitCounts[j] == size)
    {
      if suitCounts[s] > 0 && suitCounts[s] == size {
        flush := true;
        break;
      }
    }
  }

  /** The length of the run of held ranks that ends at `v`. */
  function RunTo(rc: seq<int>, v: int): nat
    requires |rc| == 15 && v <= 14
    decreases v
  {
    if v < 2 || rc[v] <= 0 then 0 else 1 + RunTo(rc, v - 1)
  }

  /** A run of three that ends at `v` is three in a row from `v - 2`. */
  lemma RunToThree(rc: seq<int>, v: int)
    requires |rc| == 15 && 2 <= v <= 14 && RunTo(rc, v) >= 3
    ensures 4 <= v && Three(rc, v - 2)
  {
    assert RunTo(rc, v - 1) >= 2;
    assert RunTo(rc, v - 2) >= 1;
  }

  /**
   * `isStraight`, over the ranks in ascending order: the size test, the run counter that resets
   * on a gap and answers as soon as it reaches 3, and the ace-two-three test.
   */
  method IsStraight(rankCounts: array<int>) returns (r: bool)
    requires rankCounts.Length == 15
    ensures r == LeadStraight(rankCounts[..])
  {
    ghost var rc := rankCounts[..];
    var size := 0;
    for v := 2 to 15
      invariant size == CountPresent(rc, v)
    {
      if rankCounts[v] > 0 {
        size := size + 1;
      }
    }
    if size < 3 {
      return false;
    }
    var run := 1;
    var prev := -1;
    for v := 2 to 15
      invariant prev == -1 || (2 <= prev < v && rc[prev] > 0)
      invariant forall w :: (if prev == -1 then 2 else prev + 1) <= w < v ==> rc[w] <= 0
      invariant prev == -1 ==> run == 1
      invariant prev != -1 ==> run == RunTo(rc, prev) && run <= 2
      invariant forall w :: 2 <= w && w + 2 < v ==> !Three(rc, w)
    {
      if rankCounts[v] > 0 {
        assert RunTo(rc, v) == 1 + RunTo(rc, v - 1);
        if prev != -1 {
          if v == prev + 1 {
            run := run + 1;
            if run >= 3 {
              RunToThree(rc, v);
              return true;
            }
          } else if v != prev {
            run := 1;
          }
        }
        prev := v;
      }
    }
    return rankCounts[14] > 0 && rankCounts[2] > 0 && rankCounts[3] > 0;
  }

  /** `leadCategory`: the counting loop, the group and flush loops, `isStraight`, the ladder. */
  method LeadCategoryOf(open: seq<Card>) returns (c: int)
    ensures c == LeadCategory(open)
  {
    var h := KeyedHand(open);
    var rankCounts, suitCounts := PokerEval.CountCards(h);
    var maxCount, pairCount, tripleCount := CountGroups(rankCounts);
    var flush := AnySuitAll(suitCounts, |open|);
    var straight := IsStraight(rankCounts);
    assert flush == LeadFlush(h);
    if straight && flush && |open| >= 3 {
      return 8;
    }
    if maxCount >= 4 {
      return 7;
    }
    if tripleCount >= 1 && pairCount >= 1 {
      return 6;
    }
    if flush && |open| >= 3 {
      return 5;
    }
    if straight && |open| >= 3 {
      return 4;
    }
    if tripleCount >= 1 {
      return 3;
    }
    if pairCount >= 2 {
      return 2;
    }
    if pairCount == 1 {
      return 1;
    }
    return 0;
  }

  // ---------------------------------------------------------------- leadScore

  /** `leadScore`: -1 with no keys when nothing is open; else the category and the keys highest first. */
  function Lead(cards: seq<Card>, stage: int): LeadScore
  {
    var open := OpenCards(cards, stage);
    if open == [] then LeadScore(-1, []) else LeadScore(LeadCategory(open), SortedKeys(KeyedHand(open)))
  }

  /** The keys of a lead score are the open cards' keys, highest first. */
  lemma LeadKeys(cards: seq<Card>, stage: int)
    ensures var open := OpenCards(cards, stage);
      && Descending(Lead(cards, stage).keys)
      && multiset(Lead(cards, stage).keys) == multiset(KeysExcept(KeyedHand(open), {}))
      && |Lead(cards, stage).keys| == |open|
  {
    var open := OpenCards(cards, stage);
    SortDescSpec(KeysExcept(KeyedHand(open), {}));
    KeysExceptAll(KeyedHand(open));
  }

  lemma {:induction false} KeysExceptAll(h: seq<Keyed>)
    ensures |KeysExcept(h, {})| == |h|
  {
    if h != [] {
      KeysExceptAll(h[..|h| - 1]);
    }
  }

  /** On 3rd street a seat's lead score is category 0 and the key of its up card. */
  lemma LeadOfThree(x: seq<Card>)
    requires |x| == 3
    ensures Lead(x, 0) == LeadScore(0, [CardKey(x[2])])
  {
    assert OpenCards(x, 0) == [x[2]];
    LeadCategoryOneCard(x[2]);
    var h := KeyedHand([x[2]]);
    assert h[..0] == [];
    assert KeysExcept(h, {}) == [CardKey(x[2])];
    assert SortDesc([CardKey(x[2])]) == [CardKey(x[2])];
  }

  /** On 3rd street the seat with the highest up card leads: rank first, then suit. */
  lemma LeadThirdStreet(x: seq<Card>, y: seq<Card>)
    requires |x| == 3 && |y| == 3
    ensures LeadCompare(Lead(x, 0), Lead(y, 0)) > 0 <==> CardKey(x[2]) > CardKey(y[2])
  {
    LeadOfThree(x);
    LeadOfThree(y);
    LexSingle(CardKey(x[2]), CardKey(y[2]));
  }

  lemma LexSingle(a: int, b: int)
    ensures LexFrom([a], [b], 0) > 0 <==> a > b
  {
    assert LexFrom([a], [b], 1) == 0;
  }

  /** `leadScore`, with `leadCategory`'s loops. */
  method LeadScoreOf(cards: seq<Card>, stage: int) returns (ls: LeadScore)
    ensures ls == Lead(cards, stage)
  {
    var open := OpenCards(cards, stage);
    if open == [] {
      return LeadScore(-1, []);
    }
    var category := LeadCategoryOf(open);
    ls := LeadScore(category, SortedKeys(KeyedHand(open)));
  }
}
