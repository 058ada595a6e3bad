/**
 * The console baccarat game (`Baccarat`): one round with a bet on PLAYER, BANKER or TIE, dealt
 * two cards to the player then two to the banker, a natural 8 or 9 ending the coup, the player
 * drawing on 5 or less and the banker following the standard drawing table.
 */
module ConsoleBaccarat {
  import opened Wrappers
  import opened ConsoleCard

  /** `Baccarat.Bet`. */
  datatype Bet = PLAYER | BANKER | TIE

  /** A card's baccarat value: an ace 1, two to nine their number, tens and faces 0. */
  function CardValue(c: Card): (v: int)
    ensures 0 <= v <= 9
    ensures c.rank == ACE ==> v == 1
    ensures Ordinal(c.rank) <= 8 ==> v == Ordinal(c.rank) + 1
    ensures Ordinal(c.rank) >= 9 ==> v == 0
  {
    match c.rank
    case ACE => 1
    case TWO | THREE | FOUR | FIVE | SIX | SEVEN | EIGHT | NINE => Ordinal(c.rank) + 1
    case _ => 0
  }

  /** The sum of the cards' values. */
  function ValueSum(h: seq<Card>): (n: nat)
  {
    if h == [] then 0 else ValueSum(h[..|h| - 1]) + CardValue(h[|h| - 1])
  }

  /** `value`: the last digit of the sum of the card values. */
  function Value(h: seq<Card>): (v: int)
    ensures 0 <= v <= 9
    ensures (ValueSum(h) - v) % 10 == 0
  {
    ValueSum(h) % 10
  }

  /** The sum over two runs of cards is the sum of their sums. */
  lemma {:induction false} ValueSumAppend(a: seq<Card>, b: seq<Card>)
    ensures ValueSum(a + b) == ValueSum(a) + ValueSum(b)
    decreases |b|
  {
    if b == [] {
      assert a + b == a;
    } else {
      var b0 := b[..|b| - 1];
      assert (a + b)[..|a + b| - 1] == a + b0;
      ValueSumAppend(a, b0);
    }
  }

  /** The value of the first two cards does not depend on which was dealt first. */
  lemma ValueSwap(x: Card, y: Card)
    ensures Value([x, y]) == Value([y, x])
  {
    ValueSumAppend([x], [y]);
    ValueSumAppend([y], [x]);
    ValueSumOne(x);
    ValueSumOne(y);
    assert [x] + [y] == [x, y] && [y] + [x] == [y, x];
  }

  /** A single card's sum is its value. */
  lemma ValueSumOne(c: Card)
    ensures ValueSum([c]) == CardValue(c)
  {
    assert [c][..|[c]| - 1] == [];
  }

  /** `value` as the source computes it, with a loop and a `switch` on the rank. */
  method ComputeValue(h: seq<Card>) returns (v: int)
    ensures v == Value(h)
  {
    var s := 0;
    var i := 0;
    while i < |h|
      invariant 0 <= i <= |h|
      invariant s == ValueSum(h[..i])
    {
      assert h[..i + 1][..i] == h[..i];
      match h[i].rank {
        case ACE => s := s + 1;
        case TWO | THREE | FOUR | FIVE | SIX | SEVEN | EIGHT | NINE => s := s + Ordinal(h[i].rank) + 1;
        case _ =>
      }
      i := i + 1;
    }
    assert h[..|h|] == h;
    v := s % 10;
  }

  /** `thirdCardValue`. */
  function ThirdCardValue(c: Card): (v: int)
    ensures v == Value([c])
  {
    ValueSumOne(c);
    CardValue(c) % 10
  }

  /** `bankerShouldDraw`: the banker's drawing table; `None` is a player who stood. */
  function BankerShouldDraw(bankerTotal: int, playerThird: Option<Card>): bool
  {
    if playerThird.None? then bankerTotal <= 5
    else
      var pt := ThirdCardValue(playerThird.value);
      if bankerTotal <= 2 then true
      else if bankerTotal == 3 then pt != 8
      else if bankerTotal == 4 then pt >= 2 && pt <= 7
      else if bankerTotal == 5 then pt >= 4 && pt <= 7
      else if bankerTotal == 6 then pt == 6 || pt == 7
      else false
  }

  /**
   * The drawing table in one formula: after a player's third card worth `p`, the banker draws on
   * 2 or less; on 3 unless `p` is 8; and on 4, 5 or 6 when `p` is at least twice the lead over 3
   * and at most 7. A player who stood leaves the banker the player's own rule.
   */
  lemma BankerTable(bankerTotal: int, c: Card)
    ensures var p := ThirdCardValue(c);
      BankerShouldDraw(bankerTotal, Some(c)) <==>
        bankerTotal <= 2 || (bankerTotal == 3 && p != 8) || (3 < bankerTotal <= 6 && 2 * (bankerTotal - 3) <= p <= 7)
    ensures BankerShouldDraw(bankerTotal, None) <==> bankerTotal <= 5
  {
  }

  /** The banker always stands on 7 and always draws on 2 or less. */
  lemma BankerExtremes(bankerTotal: int, third: Option<Card>)
    ensures bankerTotal >= 7 ==> !BankerShouldDraw(bankerTotal, third)
    ensures bankerTotal <= 2 ==> BankerShouldDraw(bankerTotal, third)
  {
  }

  /** The commission on a banker win: `Math.round(bet * 0.05)`, 1/20 of the bet rounded half up. */
  function Commission(bet: int): (c: int)
    ensures -10 <= bet - 20 * c < 10
  {
    (bet + 10) / 20
  }

  /**
   * `settleAndPrint`'s result: nothing without a bet; a player or banker bet wins the bet (the
   * banker less the commission) on its side's higher value, loses it on the other's, and pushes
   * on a tie; a tie bet wins 8 times the bet or loses the bet.
   */
  function SettleDelta(pv: int, bv: int, bet: int, on: Bet): (delta: int)
    ensures bet <= 0 ==> delta == 0
    ensures bet > 0 && on == PLAYER ==> delta == (if pv > bv then bet else if pv < bv then -bet else 0)
    ensures bet > 0 && on == BANKER ==> delta == (if bv > pv then bet - Commission(bet) else if bv < pv then -bet else 0)
    ensures bet > 0 && on == TIE ==> delta == (if pv == bv then 8 * bet else -bet)
  {
    if bet <= 0 then 0
    else
      match on
      case PLAYER => if pv > bv then bet else if pv < bv then -bet else 0
      case BANKER => if bv > pv then bet - Commission(bet) else if bv < pv then -bet else 0
      case TIE => if pv == bv then bet * 8 else -bet
  }

  /**
   * A bet never loses more than the bet and never wins more than 8 times it; a player bet is the
   * mirror of the same bet with the two sides' values swapped; and a banker win pays at most the
   * bet and, from 10 up, strictly less.
   */
  lemma SettleDeltaBounds(pv: int, bv: int, bet: int, on: Bet)
    requires bet > 0
    ensures -bet <= SettleDelta(pv, bv, bet, on) <= 8 * bet
    ensures SettleDelta(pv, bv, bet, PLAYER) == -SettleDelta(bv, pv, bet, PLAYER)
    ensures on == BANKER && bv > pv ==> 0 <= SettleDelta(pv, bv, bet, on) <= bet
    ensures on == BANKER && bv > pv && bet >= 10 ==> SettleDelta(pv, bv, bet, on) < bet
  {
  }

  /** What a round ends with: both hands and the deck after them. */
  datatype Coup = Coup(player: seq<Card>, banker: seq<Card>, deck: Deck)

  /** The player's third card, drawn on 5 or less. */
  function PlayerThird(pv: int, d: Deck): Option<Card>
  {
    if pv <= 5 then Some(d.Top()) else None
  }

  /** The coup `playOneRoundForBet` deals. */
  function Deal(d: Deck): (c: Coup)
  {
    var player := [d.Top(), d.Skip(1).Top()];
    var banker := [d.Skip(2).Top(), d.Skip(3).Top()];
    var d1 := d.Skip(4);
    if Value(player) >= 8 || Value(banker) >= 8 then Coup(player, banker, d1)
    else
      var third := PlayerThird(Value(player), d1);
      var player' := if third.Some? then player + [third.value] else player;
      var d2 := if third.Some? then d1.Rest() else d1;
      if BankerShouldDraw(Value(banker), third) then Coup(player', banker + [d2.Top()], d2.Rest())
      else Coup(player', banker, d2)
  }

  /** `playOneRoundForBet`: the coup and what the bet returns on its final values. */
  function Round(d: Deck, bet: int, on: Bet): (int, Deck)
  {
    var c := Deal(d);
    (SettleDelta(Value(c.player), Value(c.banker), bet, on), c.deck)
  }

  /**
   * A round deals the next four cards, player, player, banker, banker; a natural ends it at two
   * cards each; otherwise the player takes a third card exactly at 5 or less, and the banker
   * exactly when the table says so for the player's third card; every card dealt comes next
   * from the deck and the deck moves past exactly them.
   */
  lemma DealSpec(d: Deck)
    ensures var c := Deal(d);
      var p2 := [d.Top(), d.Skip(1).Top()];
      var b2 := [d.Skip(2).Top(), d.Skip(3).Top()];
      var natural := Value(p2) >= 8 || Value(b2) >= 8;
      && c.player[..2] == p2 && c.banker[..2] == b2
      && (|c.player| == 3 <==> !natural && Value(p2) <= 5) && 2 <= |c.player| <= 3
      && (|c.banker| == 3 <==> !natural && BankerShouldDraw(Value(b2), if |c.player| == 3 then Some(c.player[2]) else None))
      && 2 <= |c.banker| <= 3
      && (|c.player| == 3 ==> c.player[2] == d.Skip(4).Top())
      && (|c.banker| == 3 ==> c.banker[2] == d.Skip(|c.player| + 2).Top())
      && c.deck == d.Skip(|c.player| + |c.banker|)
  {
    var p2 := [d.Top(), d.Skip(1).Top()];
    var b2 := [d.Skip(2).Top(), d.Skip(3).Top()];
    var d1 := d.Skip(4);
    assert (p2 + [d1.Top()])[..2] == p2;
    var third := PlayerThird(Value(p2), d1);
    var d2 := if third.Some? then d1.Rest() else d1;
    assert (b2 + [d2.Top()])[..2] == b2;
  }

  /** With no bet a round settles nothing; with one its loss is at most the bet. */
  lemma RoundBounds(d: Deck, bet: int, on: Bet)
    ensures bet <= 0 ==> Round(d, bet, on).0 == 0
    ensures bet > 0 ==> -bet <= Round(d, bet, on).0 <= 8 * bet
  {
    if bet > 0 {
      var c := Deal(d);
      SettleDeltaBounds(Value(c.player), Value(c.banker), bet, on);
    }
  }

  /** `settleAndPrint`, without the printing. */
  method SettleAndPrint(pv: int, bv: int, bet: int, on: Bet) returns (delta: int)
    ensures delta == SettleDelta(pv, bv, bet, on)
  {
    if bet <= 0 {
      return 0;
    }
    delta := 0;
    match on
    case PLAYER =>
      if pv > bv {
        delta := bet;
      } else if pv < bv {
        delta := -bet;
      } else {
        delta := 0;
      }
    case BANKER =>
      if bv > pv {
        var win := bet;
        var commission := (win + 10) / 20;
        delta := win - commission;
      } else if bv < pv {
        delta := -bet;
      } else {
        delta := 0;
      }
    case TIE =>
      if pv == bv {
        delta := bet * 8;
      } else {
        delta := -bet;
      }
  }

  /** The first four cards of `playOneRoundForBet`: player, player, banker, banker. */
  method DealTwoEach(deck: Deck) returns (player: seq<Card>, banker: seq<Card>, d: Deck)
    ensures player == [deck.Top(), deck.Skip(1).Top()] && banker == [deck.Skip(2).Top(), deck.Skip(3).Top()]
    ensures d == deck.Skip(4)
  {
    d := deck;
    player := [d.Top()];
    d := d.Rest();
    player := player + [d.Top()];
    d := d.Rest();
    banker := [d.Top()];
    d := d.Rest();
    banker := banker + [d.Top()];
    d := d.Rest();
  }

  /** The dealing of `playOneRoundForBet`: two cards each, then the third-card rules unless there is a natural. */
  method DealCoup(deck: Deck) returns (player: seq<Card>, banker: seq<Card>, pv: int, bv: int, d: Deck)
    ensures Coup(player, banker, d) == Deal(deck)
    ensures pv == Value(player) && bv == Value(banker)
  {
    player, banker, d := DealTwoEach(deck);
    pv := ComputeValue(player);
    bv := ComputeValue(banker);
    if pv >= 8 || bv >= 8 {
      return;
    }
    var playerThird: Option<Card> := None;
    if pv <= 5 {
      playerThird := Some(d.Top());
      d := d.Rest();
      player := player + [playerThird.value];
      pv := ComputeValue(player);
    }
    if BankerShouldDraw(bv, playerThird) {
      var b3 := d.Top();
      d := d.Rest();
      banker := banker + [b3];
      bv := ComputeValue(banker);
    }
  }

  /** `playOneRoundForBet`, without the printing: the deck is passed in and handed back. */
  method PlayOneRoundForBet(deck: Deck, bet: int, on: Bet) returns (delta: int, deck': Deck)
    ensures (delta, deck') == Round(deck, bet, on)
  {
    var player, banker, pv, bv, d := DealCoup(deck);
    delta := SettleAndPrint(pv, bv, bet, on);
    deck' := d;
  }

  /** `playOneRound`: a round with nothing bet on PLAYER, which settles nothing. */
  method PlayOneRound(deck: Deck) returns (deck': Deck)
    ensures deck' == Deal(deck).deck
  {
    var delta;
    delta, deck' := PlayOneRoundForBet(deck, 0, PLAYER);
  }
}
