/**
 * The server module's playing card and deck. Neither class is part of this model: what the
 * server code relies on is stated here. Ranks run TWO..ACE (the evaluator takes a rank's value
 * as its ordinal plus 2), suits are C, D, H, S. `bjValue` and `pip` are kept abstract: each card
 * carries them, and the only assumptions are the ones the callers' arithmetic makes (an ace is
 * worth 11 in blackjack and can be demoted by 10, every other card 2..10; a baccarat pip is a
 * digit 0..9).
 */
module ServerCard {

  datatype Rank = TWO | THREE | FOUR | FIVE | SIX | SEVEN | EIGHT | NINE | TEN | JACK | QUEEN | KING | ACE

  datatype Suit = C | D | H | S

  /** Java's `ordinal()` of a rank: TWO is 0, ACE is 12. */
  function RankOrdinal(r: Rank): (n: nat)
    ensures n <= 12
  {
    match r
    case TWO => 0 case THREE => 1 case FOUR => 2 case FIVE => 3 case SIX => 4
    case SEVEN => 5 case EIGHT => 6 case NINE => 7 case TEN => 8 case JACK => 9
    case QUEEN => 10 case KING => 11 case ACE => 12
  }

  datatype CardData = CardData(rank: Rank, suit: Suit, bjValue: int, pip: int)

  predicate WellFormed(c: CardData)
  {
    && (c.rank == ACE ==> c.bjValue == 11)
    && (c.rank != ACE ==> 2 <= c.bjValue <= 10)
    && 0 <= c.pip <= 9
  }

  type Card = c: CardData | WellFormed(c) witness CardData(ACE, S, 11, 1)

  /**
   * The deck is an oracle: an arbitrary endless sequence of cards and the position of the next
   * one. Its construction, shuffling and refilling are not part of this model.
   */
  datatype Deck = Deck(source: nat -> Card, next: nat)
  {
    /** The card `draw()` returns. */
    function Top(): Card { source(next) }

    /** The deck after one `draw()`. */
    function Rest(): Deck { Deck(source, next + 1) }

    /** The next `k` cards, in the order they are drawn. */
    function Peek(k: nat): (cs: seq<Card>)
      ensures |cs| == k
      ensures forall i :: 0 <= i < k ==> cs[i] == source(next + i)
    {
      seq(k, i requires 0 <= i < k => source(next + i))
    }

    /** The deck after `k` draws. */
    function Skip(k: nat): Deck { Deck(source, next + k) }
  }
}
