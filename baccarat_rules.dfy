/**
 * The baccarat rules the server's two engines (`BaccaratRoom` and `BaccaratGame`) share: the
 * point of a side, the simplified third-card rule (each side draws on 5 or less), the winner,
 * the pair test, and what a main bet returns.
 */
module BaccaratRules {
  import opened ServerCard

  /** A side of the table: its cards and its point. */
  datatype Side = Side(cards: seq<Card>, total: int)

  /** The sum of the cards' pips. */
  function Pips(cs: seq<Card>): (n: nat)
  {
    if cs == [] then 0 else Pips(cs[..|cs| - 1]) + cs[|cs| - 1].pip
  }

  /** `point`: the last digit of the pip sum. */
  function Point(cs: seq<Card>): (p: int)
    ensures 0 <= p <= 9
    ensures (Pips(cs) - p) % 10 == 0
  {
    Pips(cs) % 10
  }

  /** `point` as the source computes it, with a loop. */
  method ComputePoint(cs: seq<Card>) returns (p: int)
    ensures p == Point(cs)
  {
    var t := 0;
    for i := 0 to |cs|
      invariant t == Pips(cs[..i])
    {
      assert cs[..i + 1][..i] == cs[..i];
      t := t + cs[i].pip;
    }
    assert cs[..|cs|] == cs;
    p := t % 10;
  }

  /** A side holding these cards, its point computed. */
  function SideOf(cs: seq<Card>): Side
  {
    Side(cs, Point(cs))
  }

  /** The side after its third-card rule: one more card when its point is 5 or less. */
  function Third(s: Side, d: Deck): (Side, Deck)
  {
    if s.total <= 5 then (SideOf(s.cards + [d.Top()]), d.Rest()) else (s, d)
  }

  /**
   * The deal both engines make: player, banker, player, banker, then the player's third card and
   * the banker's, each drawn when that side's two-card point is 5 or less.
   */
  function Coup(d: Deck): (Side, Side, Deck)
  {
    var p := SideOf([d.source(d.next), d.source(d.next + 2)]);
    var b := SideOf([d.source(d.next + 1), d.source(d.next + 3)]);
    var (p', d1) := Third(p, d.Skip(4));
    var (b', d2) := Third(b, d1);
    (p', b', d2)
  }

  /**
   * Both sides start with two cards dealt alternately, player first; each then takes a third
   * card exactly when its two-card point is 5 or less, the player's drawn first; every point is
   * the point of the side's cards, and the deck moves past exactly the cards dealt.
   */
  lemma CoupSpec(d: Deck)
    ensures var (p, b, d') := Coup(d);
      && p.cards[..2] == [d.source(d.next), d.source(d.next + 2)]
      && b.cards[..2] == [d.source(d.next + 1), d.source(d.next + 3)]
      && (|p.cards| == 3 <==> Point(p.cards[..2]) <= 5) && (|p.cards| == 2 <==> Point(p.cards[..2]) > 5)
      && (|b.cards| == 3 <==> Point(b.cards[..2]) <= 5) && (|b.cards| == 2 <==> Point(b.cards[..2]) > 5)
      && (|p.cards| == 3 ==> p.cards[2] == d.source(d.next + 4))
      && (|b.cards| == 3 ==> b.cards[2] == d.source(d.next + |p.cards| + 2))
      && p.total == Point(p.cards) && b.total == Point(b.cards)
      && d' == d.Skip(|p.cards| + |b.cards|)
  {
    var p := SideOf([d.source(d.next), d.source(d.next + 2)]);
    var b := SideOf([d.source(d.next + 1), d.source(d.next + 3)]);
    assert (p.cards + [d.Skip(4).Top()])[..2] == p.cards;
    var (p', d1) := Third(p, d.Skip(4));
    assert (b.cards + [d1.Top()])[..2] == b.cards;
  }

  datatype Winner = PLAYER | BANKER | TIE

  /** The winner: a tie on equal points, otherwise the side with the higher point. */
  function WinnerOf(player: int, banker: int): (w: Winner)
    ensures w == TIE <==> player == banker
    ensures w == PLAYER <==> player > banker
    ensures w == BANKER <==> player < banker
  {
    if player == banker then TIE else if player > banker then PLAYER else BANKER
  }

  /** The pair test of the side bets: the side's first two cards share a rank. */
  predicate IsPair(s: Side)
  {
    |s.cards| >= 2 && s.cards[0].rank == s.cards[1].rank
  }

  /**
   * The banker's profit on a win: the stake, or with commission `(int)Math.round(amount * 0.95)`,
   * written in integers as 19/20 of the stake rounded to the nearest integer, halves upward.
   */
  function BankerProfit(amount: int, commission: bool): (p: int)
    ensures !commission ==> p == amount
    ensures commission ==> -10 <= 19 * amount - 20 * p < 10
  {
    if commission then (19 * amount + 10) / 20 else amount
  }

  /** With commission a positive stake keeps between nothing and all of its profit. */
  lemma BankerProfitBounds(amount: int, commission: bool)
    requires amount >= 0
    ensures 0 <= BankerProfit(amount, commission) <= amount
  {
  }

  /**
   * `settleMain`: what a main bet returns. A player bet returns twice the stake on a player win
   * and the stake on a tie; a banker bet the stake plus its profit on a banker win and the stake
   * on a tie; a tie bet nine times the stake on a tie; anything else nothing.
   */
  function MainReturn(pick: string, winner: Winner, amount: int, commission: bool): (r: int)
    ensures pick == "PLAYER" ==> r == (match winner case PLAYER => 2 * amount case TIE => amount case BANKER => 0)
    ensures pick == "BANKER" ==>
      r == (match winner case BANKER => amount + BankerProfit(amount, commission) case TIE => amount case PLAYER => 0)
    ensures pick == "TIE" ==> r == (if winner == TIE then 9 * amount else 0)
    ensures pick !in {"PLAYER", "BANKER", "TIE"} ==> r == 0
  {
    if pick == "PLAYER" then
      if winner == PLAYER then amount * 2 else if winner == TIE then amount else 0
    else if pick == "BANKER" then
      if winner == BANKER then amount + BankerProfit(amount, commission) else if winner == TIE then amount else 0
    else if pick == "TIE" then
      if winner == TIE then amount * 9 else 0
    else 0
  }

  /** A main bet on the winning side never returns less than its stake when the stake is not negative. */
  lemma MainReturnWin(pick: string, winner: Winner, amount: int, commission: bool)
    requires amount >= 0
    ensures 0 <= MainReturn(pick, winner, amount, commission) <= 9 * amount
    ensures (pick == "PLAYER" && winner == PLAYER) || (pick == "BANKER" && winner == BANKER) || (pick == "TIE" && winner == TIE)
      ==> MainReturn(pick, winner, amount, commission) > amount || amount == 0
  {
    if commission && pick == "BANKER" && winner == BANKER {
      BankerProfitBounds(amount, commission);
    }
  }
}
