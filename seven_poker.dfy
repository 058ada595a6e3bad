/**
 * The console's no-betting-rounds seven-card game (sevenpoker/SevenPoker.java): seven cards
 * each to the player and the dealer, the best five of each compared, and the bet won, lost or
 * pushed.
 */
module SevenPoker {
  import opened Wrappers
  import opened PokerScore
  import opened ConsoleCard
  import opened ConsolePoker

  /** `draw7`: the next seven cards of the deck, in draw order. */
  method Draw7(deck: Deck) returns (h: seq<Card>, deck': Deck)
    ensures h == deck.Peek(7)
    ensures deck' == deck.Skip(7)
  {
    h := [];
    deck' := deck;
    for i := 0 to 7
      invariant deck' == deck.Skip(i)
      invariant h == deck.Peek(i)
    {
      h := h + [deck'.Top()];
      deck' := deck'.Rest();
    }
  }

  /**
   * The return value of `playOneRoundForBet` for a comparison result `cmp` of the player's
   * score against the dealer's: nothing without a stake, otherwise the stake won, lost or pushed.
   */
  function RoundDelta(bet: int, cmp: int): (d: int)
    ensures bet <= 0 ==> d == 0
    ensures bet > 0 ==> (d == bet <==> cmp > 0) && (d == -bet <==> cmp < 0) && (d == 0 <==> cmp == 0)
  {
    if bet <= 0 then 0
    else if cmp > 0 then bet
    else if cmp < 0 then -bet
    else 0
  }

  /** Swapping the two hands turns the player's gain into the same loss. */
  lemma RoundDeltaSwap(bet: int, ps: HandScore, ds: HandScore)
    ensures RoundDelta(bet, Compare(ds, ps)) == -RoundDelta(bet, Compare(ps, ds))
  {
    CompareAntisymmetric(ps, ds);
  }

  /**
   * `playOneRoundForBet`: the player draws the first seven cards, the dealer the next seven; the
   * delta is decided by the two best five-card scores.
   */
  method PlayOneRoundForBet(deck: Deck, bet: int) returns (delta: int, deck': Deck)
    ensures deck' == deck.Skip(14)
    ensures exists ps, ds ::
      && IsBestScore(deck.Peek(7), ps)
      && IsBestScore(deck.Skip(7).Peek(7), ds)
      && delta == RoundDelta(bet, Compare(ps, ds))
  {
    var player, dealer;
    player, deck' := Draw7(deck);
    dealer, deck' := Draw7(deck');
    var rp := Best5Score(player);
    var rd := Best5Score(dealer);
    var ps, ds := rp.value, rd.value;
    var cmp := CompareTo(ps, ds);
    delta := RoundDelta(bet, cmp);
  }
}
