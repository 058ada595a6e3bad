/** The console module's card record (Card.java) and the deck it is drawn from. */
module ConsoleCard {

  /** Suits in declaration order, with their symbols; hearts and diamonds are red. */
  datatype Suit = C | D | H | S
  {
    function Symbol(): char
    {
      match this
      case C => '♣' case D => '♦' case H => '♥' case S => '♠'
    }

    predicate IsRed() { this == D || this == H }
  }

  /** Ranks in declaration order: ACE comes first. */
  datatype Rank = ACE | TWO | THREE | FOUR | FIVE | SIX | SEVEN | EIGHT | NINE | TEN | JACK | QUEEN | KING

  /** Java's `ordinal()` of a rank: ACE is 0, KING is 12. */
  function Ordinal(r: Rank): (n: nat)
    ensures n <= 12
  {
    match r
    case ACE => 0 case TWO => 1 case THREE => 2 case FOUR => 3 case FIVE => 4
    case SIX => 5 case SEVEN => 6 case EIGHT => 7 case NINE => 8 case TEN => 9
    case JACK => 10 case QUEEN => 11 case KING => 12
  }

  datatype Card = Card(suit: Suit, rank: Rank)

  /**
   * The `Deck` interface the console games draw from, as an oracle: an arbitrary endless
   * sequence of cards and the position of the next one.
   */
  datatype Deck = Deck(source: nat -> Card, next: nat)
  {
    function Top(): Card { source(next) }

    function Rest(): Deck { Deck(source, next + 1) }

    /** The next `k` cards, in the order they are drawn. */
    function Peek(k: nat): (cs: seq<Card>)
      ensures |cs| == k
      ensures forall i :: 0 <= i < k ==> cs[i] == source(next + i)
    {
      seq(k, i requires 0 <= i < k => source(next + i))
    }

    /** The deck after `k` draws. */
    function Skip(k: nat): Deck { Deck(source, next + k) }
  }
}
