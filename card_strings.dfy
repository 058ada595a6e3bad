/** The console's `CardStrings`: how a card and a hand are written, with red suits optionally coloured. */
module CardStrings {
  import opened ConsoleCard

  /** The ANSI escapes around a red card. */
  const Red: string := "\U{1B}[31m"
  const Reset: string := "\U{1B}[0m"

  /** `rankSymbol`: A, 2 to 9 as their digit, 10, J, Q, K. */
  function RankSymbol(r: Rank): (t: string)
    ensures r == ACE ==> t == "A"
    ensures r == TEN ==> t == "10"
    ensures r == JACK ==> t == "J"
    ensures r == QUEEN ==> t == "Q"
    ensures r == KING ==> t == "K"
    ensures 1 <= Ordinal(r) <= 8 ==> t == [Digit(Ordinal(r) + 1)]
  {
    match r
    case ACE => "A"
    case TEN => "10"
    case JACK => "J"
    case QUEEN => "Q"
    case KING => "K"
    case _ => [Digit(Ordinal(r) + 1)]
  }

  /** `String.valueOf` of a single digit. */
  function Digit(n: nat): char
    requires n <= 9
  {
    (48 + n) as char
  }

  /** Different ranks are written differently, each in one or two characters. */
  lemma RankSymbolInjective(r: Rank, r': Rank)
    ensures 1 <= |RankSymbol(r)| <= 2
    ensures RankSymbol(r) == RankSymbol(r') ==> r == r'
  {
  }

  /** `card`: the rank symbol then the suit symbol, wrapped in red when colour is on and the suit is red. */
  function CardText(c: Card, color: bool): (t: string)
    ensures color && c.suit.IsRed() ==> t == Red + RankSymbol(c.rank) + [c.suit.Symbol()] + Reset
    ensures !(color && c.suit.IsRed()) ==> t == RankSymbol(c.rank) + [c.suit.Symbol()]
  {
    var base := RankSymbol(c.rank) + [c.suit.Symbol()];
    if color && c.suit.IsRed() then Red + base + Reset else base
  }

  /** `show`: a card with colour. */
  function Show(c: Card): (t: string)
    ensures t == CardText(c, true)
  {
    CardText(c, true)
  }

  /** `showMono`: a card without colour. */
  function ShowMono(c: Card): (t: string)
    ensures t == CardText(c, false)
  {
    CardText(c, false)
  }

  /**
   * The coloured text is the plain text, with the red escapes around it for a red suit; and
   * different cards have different plain texts, whose last character is the suit's symbol.
   */
  lemma ShowSpec(c: Card, c': Card)
    ensures Show(c) == (if c.suit.IsRed() then Red + ShowMono(c) + Reset else ShowMono(c))
    ensures ShowMono(c)[|ShowMono(c)| - 1] == c.suit.Symbol()
    ensures ShowMono(c) == ShowMono(c') ==> c == c'
  {
    var t, t' := ShowMono(c), ShowMono(c');
    if t == t' {
      assert c.suit.Symbol() == t[|t| - 1] == c'.suit.Symbol();
      assert RankSymbol(c.rank) == t[..|t| - 1] == RankSymbol(c'.rank);
      RankSymbolInjective(c.rank, c'.rank);
    }
  }

  /** The cards' texts, separated by `", "`. */
  function Joined(h: seq<Card>, color: bool): string
  {
    if h == [] then ""
    else if |h| == 1 then CardText(h[0], color)
    else Joined(h[..|h| - 1], color) + ", " + CardText(h[|h| - 1], color)
  }

  /** `hand`: the joined cards in brackets. */
  function HandText(h: seq<Card>, color: bool): string
  {
    "[" + Joined(h, color) + "]"
  }

  /**
   * An empty hand is written `[]`, one card alone in brackets, and each further card adds a
   * separator and its own text before the closing bracket.
   */
  lemma HandTextSpec(h: seq<Card>, c: Card, color: bool)
    ensures HandText([], color) == "[]"
    ensures HandText([c], color) == "[" + CardText(c, color) + "]"
    ensures h != [] ==> HandText(h + [c], color) == "[" + Joined(h, color) + ", " + CardText(c, color) + "]"
  {
    if h != [] {
      assert (h + [c])[..|h + [c]| - 1] == h;
      var j, t := Joined(h, color), CardText(c, color);
      assert Joined(h + [c], color) == j + ", " + t;
      Associative("[", j, ", ");
      Associative("[", j + ", ", t);
    }
  }

  /** The joined text of a prefix grows by a separator and the next card's text. */
  lemma JoinedStep(h: seq<Card>, i: int, color: bool)
    requires 0 <= i < |h|
    ensures i == 0 ==> Joined(h[..i + 1], color) == CardText(h[i], color)
    ensures i > 0 ==> Joined(h[..i + 1], color) == Joined(h[..i], color) + ", " + CardText(h[i], color)
  {
    assert h[..i + 1][..i] == h[..i];
  }

  /** Concatenation regroups freely, which the buffer loop of `Hand` needs at each append. */
  lemma Associative(a: string, b: string, c: string)
    ensures a + b + c == a + (b + c)
  {
  }

  /** `hand` as the source builds it, appending to a buffer in an index loop. */
  method Hand(h: seq<Card>, color: bool) returns (t: string)
    ensures t == HandText(h, color)
  {
    var sb := "[";
    var i := 0;
    ghost var done := "";
    while i < |h|
      invariant 0 <= i <= |h|
      invariant done == Joined(h[..i], color)
      invariant sb == (if 0 < i < |h| then "[" + done + ", " else "[" + done)
    {
      var text := CardText(h[i], color);
      JoinedStep(h, i, color);
      if i > 0 {
        Associative("[" + done, ", ", text);
        Associative("[", done, ", " + text);
        Associative(done, ", ", text);
      }
      done := if i == 0 then text else done + ", " + text;
      sb := sb + text;
      if i < |h| - 1 {
        sb := sb + ", ";
      }
      i := i + 1;
    }
    assert h[..|h|] == h;
    t := sb + "]";
  }
}
