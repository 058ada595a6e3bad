/**
 * How the console's `PokerEval` (sevenpoker/PokerEval.java) reads a card, its `evaluate` entry
 * point, and the two best-of-seven searches built on it: `SevenPoker.best5Score`, which keeps
 * the best score, and `SevenStudFixedLimit.best5`, which keeps the five cards. The console
 * evaluator breaks a straight's suit tie on the cards of its top rank only, aces of a wheel
 * left out.
 */
module ConsolePoker {
  import opened Wrappers
  import opened PokerScore
  import opened PokerSpec
  import opened PokerFacts
  import opened BestFive
  import opened ConsoleCard
  import PokerEval

  /** `rankValue`: ace high at 14, every other rank its face value. */
  function RankValue(r: Rank): (v: int)
    ensures 2 <= v <= 14
    ensures v == if r == ACE then 14 else ConsoleCard.Ordinal(r) + 1
  {
    match r
    case ACE => 14
    case KING => 13 case QUEEN => 12 case JACK => 11 case TEN => 10
    case NINE => 9 case EIGHT => 8 case SEVEN => 7 case SIX => 6 case FIVE => 5
    case FOUR => 4 case THREE => 3 case TWO => 2
  }

  lemma RankValueInjective(x: Rank, y: Rank)
    ensures RankValue(x) == RankValue(y) <==> x == y
  {
  }

  /** `suitValue`: clubs 0, hearts 1, diamonds 2, spades 3 (not the declaration order). */
  function SuitValue(s: Suit): (v: int)
    ensures 0 <= v <= 3
  {
    match s
    case C => 0 case H => 1 case D => 2 case S => 3
  }

  /** The suit's `ordinal()`, the index `evaluate` counts suits by: C, D, H, S. */
  function SuitOrdinal(s: Suit): (n: int)
    ensures 0 <= n <= 3
  {
    match s
    case C => 0 case D => 1 case H => 2 case S => 3
  }

  /** Suit value and ordinal differ exactly on the two red suits, which they swap. */
  lemma SuitValueVsOrdinal(s: Suit)
    ensures SuitValue(s) == SuitOrdinal(s) <==> !s.IsRed()
    ensures s.IsRed() ==> SuitValue(s) == 3 - SuitOrdinal(s)
  {
  }

  lemma SuitInjective(s: Suit, t: Suit)
    ensures SuitValue(s) == SuitValue(t) <==> s == t
    ensures SuitOrdinal(s) == SuitOrdinal(t) <==> s == t
  {
  }

  function ToKeyed(c: Card): (k: Keyed)
    ensures ValidCard(k)
  {
    Keyed(RankValue(c.rank), SuitValue(c.suit), SuitOrdinal(c.suit))
  }

  /** `cardKey`. */
  function CardKey(c: Card): int
  {
    Key(ToKeyed(c))
  }

  /** Card keys order cards by rank value first and by suit value among equal ranks. */
  lemma CardKeyOrder(x: Card, y: Card)
    ensures CardKey(x) < CardKey(y) <==>
      RankValue(x.rank) < RankValue(y.rank) || (x.rank == y.rank && SuitValue(x.suit) < SuitValue(y.suit))
  {
    RankValueInjective(x.rank, y.rank);
  }

  /** Two cards have the same key exactly when they are the same card. */
  lemma CardKeyInjective(x: Card, y: Card)
    ensures CardKey(x) == CardKey(y) <==> x == y
  {
    RankValueInjective(x.rank, y.rank);
    SuitInjective(x.suit, y.suit);
  }

  function KeyedHand(cards: seq<Card>): (h: seq<Keyed>)
    ensures |h| == |cards| && ValidHand(h)
    ensures forall i :: 0 <= i < |cards| ==> h[i] == ToKeyed(cards[i])
  {
    seq(|cards|, i requires 0 <= i < |cards| => ToKeyed(cards[i]))
  }

  /** The score `evaluate` gives five console cards. */
  function HandValue(five: seq<Card>): HandScore
    requires |five| == 5
  {
    Score(KeyedHand(five), false)
  }

  /** `PokerEval.evaluate` on console cards. */
  method Evaluate(hand: seq<Card>) returns (r: Result<HandScore>)
    ensures r.Err? <==> |hand| != 5
    ensures r.Ok? ==> r.value == HandValue(hand)
  {
    r := PokerEval.Evaluate(KeyedHand(hand), false);
  }

  /** A flush on the console is five cards of one suit. */
  lemma FlushIsOneSuit(five: seq<Card>)
    requires |five| == 5
    ensures IsFlush(KeyedHand(five)) <==> forall i :: 0 <= i < 5 ==> five[i].suit == five[0].suit
  {
    var h := KeyedHand(five);
    FlushIffOneSuit(h);
    forall i | 0 <= i < 5
      ensures h[i].suitIndex == h[0].suitIndex <==> five[i].suit == five[0].suit
    {
      SuitInjective(five[i].suit, five[0].suit);
    }
  }

  /** Distinct cards give a hand without repeated keys. */
  lemma DistinctKeyed(cards: seq<Card>)
    requires forall i, j :: 0 <= i < j < |cards| ==> cards[i] != cards[j]
    ensures DistinctCards(KeyedHand(cards))
  {
    var h := KeyedHand(cards);
    forall i, j | 0 <= i < j < |h|
      ensures h[i].value != h[j].value || h[i].suit != h[j].suit
    {
      RankValueInjective(cards[i].rank, cards[j].rank);
      SuitInjective(cards[i].suit, cards[j].suit);
    }
  }

  lemma KeyedChoose(cards: seq<Card>, p: Pick)
    requires IsPick(p, |cards|)
    ensures KeyedHand(Choose(cards, p)) == Choose(KeyedHand(cards), p)
  {
  }

  /** The search of both console games over the 21 choices of five among seven. */
  method BestOfSeven(seven: seq<Card>) returns (best: HandScore, pick: Pick)
    requires |seven| == 7
    ensures IsPick(pick, 7) && best == HandValue(Choose(seven, pick))
    ensures forall q :: IsPick(q, 7) ==> Compare(HandValue(Choose(seven, q)), best) <= 0
    ensures forall q :: IsPick(q, 7) && Before(q, pick) ==> Compare(HandValue(Choose(seven, q)), best) < 0
  {
    var h := KeyedHand(seven);
    best, pick := BestOf(h, false);
    KeyedChoose(seven, pick);
    forall q | IsPick(q, 7)
      ensures HandValue(Choose(seven, q)) == PickScore(h, false, q)
    {
      KeyedChoose(seven, q);
    }
  }

  /** `s` is the score of one of the five-card choices among `cards`, and none scores higher. */
  ghost predicate IsBestScore(cards: seq<Card>, s: HandScore)
  {
    && (exists p :: IsPick(p, |cards|) && s == HandValue(Choose(cards, p)))
    && (forall q :: IsPick(q, |cards|) ==> Compare(HandValue(Choose(cards, q)), s) <= 0)
  }

  /** The best score of a set of cards is unique. */
  lemma BestScoreUnique(cards: seq<Card>, s: HandScore, t: HandScore)
    requires IsBestScore(cards, s) && IsBestScore(cards, t)
    ensures s == t
  {
    var p :| IsPick(p, |cards|) && s == HandValue(Choose(cards, p));
    var p' :| IsPick(p', |cards|) && t == HandValue(Choose(cards, p'));
    CompareAntisymmetric(s, t);
    CompareZeroIffEqual(s, t);
  }

  /**
   * `SevenPoker.best5Score`: throws unless there are seven cards; otherwise the score of one of
   * the 21 five-card choices, and no choice scores higher.
   */
  method Best5Score(seven: seq<Card>) returns (r: Result<HandScore>)
    ensures r.Err? <==> |seven| != 7
    ensures r.Ok? ==> IsBestScore(seven, r.value)
  {
    if |seven| != 7 {
      return Err("need 7 cards");
    }
    var best, pick := BestOfSeven(seven);
    return Ok(best);
  }

  /**
   * `p` is a choice of five that no choice beats, and every choice the loops visit before it
   * scores strictly lower: the one the search keeps.
   */
  ghost predicate FirstBest(seven: seq<Card>, p: Pick)
    requires |seven| == 7
  {
    && IsPick(p, 7)
    && (forall q :: IsPick(q, 7) ==> Compare(HandValue(Choose(seven, q)), HandValue(Choose(seven, p))) <= 0)
    && (forall q :: IsPick(q, 7) && Before(q, p) ==> Compare(HandValue(Choose(seven, q)), HandValue(Choose(seven, p))) < 0)
  }

  /** The cards `best5` keeps carry the best score. */
  lemma FirstBestIsBest(seven: seq<Card>, p: Pick)
    requires |seven| == 7 && FirstBest(seven, p)
    ensures IsBestScore(seven, HandValue(Choose(seven, p)))
  {
  }

  /** There is at most one such choice, so `best5` is determined by the seven cards. */
  lemma FirstBestUnique(seven: seq<Card>, p: Pick, p': Pick)
    requires |seven| == 7 && FirstBest(seven, p) && FirstBest(seven, p')
    ensures p == p'
  {
    if p != p' {
      BeforeTotal(p, p');
      CompareAntisymmetric(HandValue(Choose(seven, p)), HandValue(Choose(seven, p')));
    }
  }

  /**
   * `SevenStudFixedLimit.best5`: throws unless there are seven cards; otherwise the first
   * five-card choice, in loop order, that no other choice beats. (The Java code evaluates the
   * kept five again at each comparison; that yields the score it was kept with.)
   */
  method Best5(seven: seq<Card>) returns (r: Result<seq<Card>>)
    ensures r.Err? <==> |seven| != 7
    ensures r.Ok? ==> exists p :: FirstBest(seven, p) && r.value == Choose(seven, p)
    ensures r.Ok? ==> |r.value| == 5
    ensures r.Ok? ==> IsBestScore(seven, HandValue(r.value))
  {
    if |seven| != 7 {
      return Err("need 7 cards");
    }
    var best, pick := BestOfSeven(seven);
    assert FirstBest(seven, pick);
    FirstBestIsBest(seven, pick);
    return Ok(Choose(seven, pick));
  }
}
