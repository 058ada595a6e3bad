/**
 * How the server's `PokerEval` (core/poker/PokerEval.java) reads a card, its `evaluate` entry
 * point, and `SevenPokerGame.bestFiveScore`, the best five-card score among a player's cards.
 * The server evaluator counts aces as part of a wheel when it breaks a straight's suit tie.
 */
module ServerPoker {
  import opened Wrappers
  import opened PokerScore
  import opened PokerSpec
  import opened PokerFacts
  import opened BestFive
  import opened ServerCard
  import PokerEval

  /** `rankValue`: the ordinal plus two, so that TWO is 2 and ACE is 14. */
  function RankValue(r: Rank): (v: int)
    ensures 2 <= v <= 14
    ensures v == 2 <==> r == TWO
    ensures v == 14 <==> r == ACE
  {
    RankOrdinal(r) + 2
  }

  /** Rank values follow the declaration order and tell ranks apart. */
  lemma RankValueOrder(x: Rank, y: Rank)
    ensures RankValue(x) < RankValue(y) <==> RankOrdinal(x) < RankOrdinal(y)
    ensures RankValue(x) == RankValue(y) <==> x == y
  {
  }

  /** `suitValue`: clubs 0, diamonds 1, hearts 2, spades 3. */
  function SuitValue(s: Suit): (v: int)
    ensures 0 <= v <= 3
    ensures v == 0 <==> s == C
    ensures v == 3 <==> s == S
  {
    match s
    case C => 0 case D => 1 case H => 2 case S => 3
  }

  lemma SuitValueInjective(s: Suit, t: Suit)
    ensures SuitValue(s) == SuitValue(t) <==> s == t
  {
  }

  /**
   * The card as the evaluator reads it. The suit is counted by its ordinal, which on the server
   * is the same as its suit value (the enum declares C, D, H, S in that order).
   */
  function ToKeyed(c: Card): (k: Keyed)
    ensures ValidCard(k)
  {
    Keyed(RankValue(c.rank), SuitValue(c.suit), SuitValue(c.suit))
  }

  /** `cardKey`. */
  function CardKey(c: Card): int
  {
    Key(ToKeyed(c))
  }

  /** Card keys order cards by rank value first and by suit value among equal ranks. */
  lemma CardKeyOrder(x: Card, y: Card)
    ensures CardKey(x) < CardKey(y) <==>
      RankValue(x.rank) < RankValue(y.rank) || (x.rank == y.rank && SuitValue(x.suit) < SuitValue(y.suit))
  {
    RankValueOrder(x.rank, y.rank);
  }

  /** Two cards have the same key exactly when they have the same rank and suit. */
  lemma CardKeyInjective(x: Card, y: Card)
    ensures CardKey(x) == CardKey(y) <==> x.rank == y.rank && x.suit == y.suit
  {
    RankValueOrder(x.rank, y.rank);
    SuitValueInjective(x.suit, y.suit);
  }

  function KeyedHand(cards: seq<Card>): (h: seq<Keyed>)
    ensures |h| == |cards| && ValidHand(h)
    ensures forall i :: 0 <= i < |cards| ==> h[i] == ToKeyed(cards[i])
  {
    seq(|cards|, i requires 0 <= i < |cards| => ToKeyed(cards[i]))
  }

  /** The score `evaluate` gives five server cards. */
  function HandValue(five: seq<Card>): HandScore
    requires |five| == 5
  {
    Score(KeyedHand(five), true)
  }

  /** `PokerEval.evaluate` on server cards. */
  method Evaluate(hand: seq<Card>) returns (r: Result<HandScore>)
    ensures r.Err? <==> |hand| != 5
    ensures r.Ok? ==> r.value == HandValue(hand)
  {
    r := PokerEval.Evaluate(KeyedHand(hand), true);
  }

  /** A flush on the server is five cards of one suit. */
  lemma FlushIsOneSuit(five: seq<Card>)
    requires |five| == 5
    ensures IsFlush(KeyedHand(five)) <==> forall i :: 0 <= i < 5 ==> five[i].suit == five[0].suit
  {
    var h := KeyedHand(five);
    FlushIffOneSuit(h);
    forall i | 0 <= i < 5
      ensures h[i].suitIndex == h[0].suitIndex <==> five[i].suit == five[0].suit
    {
      SuitValueInjective(five[i].suit, five[0].suit);
    }
  }

  /** Cards that differ in rank or suit give a hand without repeated keys. */
  lemma DistinctKeyed(cards: seq<Card>)
    requires forall i, j :: 0 <= i < j < |cards| ==> cards[i].rank != cards[j].rank || cards[i].suit != cards[j].suit
    ensures DistinctCards(KeyedHand(cards))
  {
    var h := KeyedHand(cards);
    forall i, j | 0 <= i < j < |h|
      ensures h[i].value != h[j].value || h[i].suit != h[j].suit
    {
      RankValueOrder(cards[i].rank, cards[j].rank);
      SuitValueInjective(cards[i].suit, cards[j].suit);
    }
  }

  /** Choosing five cards and then reading them is reading them and then choosing. */
  lemma KeyedChoose(cards: seq<Card>, p: Pick)
    requires IsPick(p, |cards|)
    ensures KeyedHand(Choose(cards, p)) == Choose(KeyedHand(cards), p)
  {
  }

  /** `s` is the score of one of the five-card choices among `cards`, and none scores higher. */
  ghost predicate IsBestScore(cards: seq<Card>, s: HandScore)
  {
    && (exists p :: IsPick(p, |cards|) && s == HandValue(Choose(cards, p)))
    && (forall q :: IsPick(q, |cards|) ==> Compare(HandValue(Choose(cards, q)), s) <= 0)
  }

  /** The best score of a set of cards is unique. */
  lemma BestScoreUnique(cards: seq<Card>, s: HandScore, t: HandScore)
    requires IsBestScore(cards, s) && IsBestScore(cards, t)
    ensures s == t
  {
    var p :| IsPick(p, |cards|) && s == HandValue(Choose(cards, p));
    var p' :| IsPick(p', |cards|) && t == HandValue(Choose(cards, p'));
    CompareAntisymmetric(s, t);
    CompareZeroIffEqual(s, t);
  }

  /**
   * `bestFiveScore`: throws on fewer than five cards; otherwise the score of one of the
   * five-card choices, and no choice scores higher.
   */
  method BestFiveScore(cards: seq<Card>) returns (r: Result<HandScore>)
    ensures r.Err? <==> |cards| < 5
    ensures r.Ok? ==> IsBestScore(cards, r.value)
  {
    if |cards| < 5 {
      return Err("Need at least 5 cards for showdown");
    }
    var h := KeyedHand(cards);
    var best, pick := BestOf(h, true);
    KeyedChoose(cards, pick);
    forall q | IsPick(q, |cards|)
      ensures HandValue(Choose(cards, q)) == PickScore(h, true, q)
    {
      KeyedChoose(cards, q);
    }
    return Ok(best);
  }
}
