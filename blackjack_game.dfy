/**
 * The server's solo blackjack engine (`BlackjackGame`): one bet, one hand that may be split
 * once into two, double and surrender, and the dealer drawing to 17 once every hand is done.
 * The game is a class whose fields the operations update; each operation is proved equal to a
 * function of the table before it, and those functions to keep `Valid` and to deal, split and
 * settle as the source promises.
 */
module BlackjackGame {
  import opened Arith
  import opened ServerCard
  import opened BlackjackRules

  /** A hand: its cards, the `bestTotal` stored with them, and whether it is finished. */
  datatype Hand = Hand(cards: seq<Card>, total: int, done: bool)

  /** A new hand holding these cards, its total computed. */
  function NewHand(cs: seq<Card>): Hand
  {
    Hand(cs, BestTotal(cs), false)
  }

  /** Every field of `BlackjackGame.State`, with the game's deck, as one value. */
  datatype Solo = Solo(
    inProgress: bool,
    bet: int,
    delta: int,
    decks: int,
    playerHands: seq<Hand>,
    activeIndex: int,
    dealer: Hand,
    deck: Deck)

  /** The four draws of `start`: player, dealer, player, dealer, each hand then totalled. */
  method OpeningHands(d: Deck) returns (player: Hand, dealer: Hand)
    ensures var cs := d.Peek(4); player == NewHand([cs[0], cs[2]]) && dealer == NewHand([cs[1], cs[3]])
  {
    var c0 := d.Top();
    var c1 := d.Rest().Top();
    var c2 := d.Skip(2).Top();
    var c3 := d.Skip(3).Top();
    var p := [c0, c2];
    var q := [c1, c3];
    var pt := ComputeBestTotal(p);
    var qt := ComputeBestTotal(q);
    player, dealer := Hand(p, pt, false), Hand(q, qt, false);
  }

  class Game {
    var inProgress: bool
    var bet: int
    var delta: int
    var decks: int
    var playerHands: seq<Hand>
    var activeIndex: int
    var dealer: Hand
    var deck: Deck

    /** `new BlackjackGame(decks)`: idle, no hands, an empty dealer hand. */
    constructor (decks: int, d: Deck)
      ensures View() == Solo(false, 0, 0, decks, [], 0, Hand([], 0, false), d)
    {
      inProgress, bet, delta, this.decks := false, 0, 0, decks;
      playerHands, activeIndex, dealer, deck := [], 0, Hand([], 0, false), d;
    }

    function View(): Solo
      reads this
    {
      Solo(inProgress, bet, delta, decks, playerHands, activeIndex, dealer, deck)
    }

    /** `start`. */
    method Start(bet: int)
      modifies this
      ensures View() == Started(old(View()), bet)
    {
      var p, q := OpeningHands(deck);
      inProgress, this.bet, delta, activeIndex := true, bet, 0, 0;
      playerHands, dealer, deck := [p], q, deck.Skip(4);
    }

    /** `canSplit`. */
    method CanSplitNow() returns (b: bool)
      ensures b == CanSplit(View())
    {
      if !inProgress || |playerHands| != 1 {
        return false;
      }
      var h := playerHands[0];
      if |h.cards| != 2 {
        return false;
      }
      b := h.cards[0].bjValue == h.cards[1].bjValue;
    }

    /** `split`. */
    method Split()
      modifies this
      ensures View() == AfterSplit(old(View()))
    {
      var ok := CanSplitNow();
      if !ok {
        return;
      }
      var h := playerHands[0];
      var a := [h.cards[0], deck.Top()];
      var b := [h.cards[1], deck.Rest().Top()];
      var at := ComputeBestTotal(a);
      var bt := ComputeBestTotal(b);
      playerHands, activeIndex, deck := [Hand(a, at, false), Hand(b, bt, false)], 0, deck.Skip(2);
    }

    /** The scan at the top of `settleIfAllDone`: whether every hand is done. */
    method AllHandsDone() returns (all: bool)
      ensures all == AllDone(playerHands)
    {
      all := true;
      var k := 0;
      while k < |playerHands|
        invariant 0 <= k <= |playerHands|
        invariant forall i :: 0 <= i < k ==> playerHands[i].done
      {
        if !playerHands[k].done {
          all := false;
          break;
        }
        k := k + 1;
      }
    }

    /** The dealer's draws in `settleIfAllDone`: the dealer's cards and the deck once the total reaches 17. */
    method DealerPlay() returns (cs: seq<Card>, d: Deck, total: int)
      requires Totalled(dealer)
      ensures (cs, d) == DealerDraws(dealer.cards, deck) && total == BestTotal(cs)
    {
      cs, d := dealer.cards, deck;
      total := dealer.total;
      while total < 17
        invariant total == BestTotal(cs)
        invariant DealerDraws(cs, d) == DealerDraws(dealer.cards, deck)
        decreases 17 - HardSum(cs)
      {
        BestTotalSpec(cs);
        HardSumGrows(cs, d.Top());
        cs, d := cs + [d.Top()], d.Rest();
        total := ComputeBestTotal(cs);
      }
    }

    /** `settleIfAllDone`. */
    method SettleIfAllDone()
      modifies this
      requires Totalled(dealer)
      ensures View() == Settled(old(View()))
    {
      var all := AllHandsDone();
      if !all {
        return;
      }
      var cs, d, total := DealerPlay();
      var returned := HandsReturned(playerHands, total, bet);
      dealer, deck, inProgress, delta := dealer.(cards := cs, total := total), d, false, returned;
    }

    /** `nextHand`. */
    method NextHand()
      modifies this
      requires 0 <= activeIndex <= |playerHands| && Totalled(dealer)
      ensures View() == AfterNextHand(old(View()))
    {
      while activeIndex < |playerHands| && playerHands[activeIndex].done
        invariant old(activeIndex) <= activeIndex <= |playerHands|
        invariant FirstOpen(playerHands, activeIndex) == FirstOpen(playerHands, old(activeIndex))
        invariant View() == old(View()).(activeIndex := activeIndex)
        decreases |playerHands| - activeIndex
      {
        activeIndex := activeIndex + 1;
      }
      if activeIndex >= |playerHands| {
        SettleIfAllDone();
      }
    }

    /** `hit`. */
    method Hit()
      modifies this
      requires Valid(View())
      ensures View() == AfterHit(old(View()))
    {
      if !inProgress {
        return;
      }
      var h := playerHands[activeIndex];
      var cs := h.cards + [deck.Top()];
      var total := ComputeBestTotal(cs);
      playerHands, deck := playerHands[activeIndex := h.(cards := cs, total := total)], deck.Rest();
      if total > 21 {
        playerHands := playerHands[activeIndex := playerHands[activeIndex].(done := true)];
        NextHand();
      }
    }

    /** `stand`. */
    method Stand()
      modifies this
      requires Valid(View())
      ensures View() == AfterStand(old(View()))
    {
      if !inProgress {
        return;
      }
      playerHands := playerHands[activeIndex := playerHands[activeIndex].(done := true)];
      NextHand();
    }

    /** `dbl`, standing only on a hand the hit did not already finish. */
    method Double()
      modifies this
      requires Valid(View())
      ensures View() == AfterDouble(old(View()))
    {
      if !inProgress {
        return;
      }
      var i := activeIndex;
      bet := bet * 2;
      HitSpec(View());
      Hit();
      if inProgress && !playerHands[i].done {
        Stand();
      }
    }

    /** `surrender`. */
    method Surrender()
      modifies this
      ensures View() == AfterSurrender(old(View()))
    {
      if !inProgress {
        return;
      }
      inProgress, delta := false, -Div(bet, 2);
    }
  }

  // ---------------------------------------------------------------- invariant

  /** The hand's stored total is its `bestTotal`. */
  predicate Totalled(h: Hand)
  {
    h.total == BestTotal(h.cards)
  }

  /** Every stored total is up to date. */
  ghost predicate Totals(t: Solo)
  {
    Totalled(t.dealer) && forall i :: 0 <= i < |t.playerHands| ==> Totalled(t.playerHands[i])
  }

  /**
   * Every total is up to date, and while the game runs the active hand is an unfinished one
   * and every hand before it is finished.
   */
  ghost predicate Valid(t: Solo)
  {
    && Totals(t)
    && (t.inProgress ==>
          && 0 <= t.activeIndex < |t.playerHands|
          && !t.playerHands[t.activeIndex].done
          && forall i :: 0 <= i < t.activeIndex ==> t.playerHands[i].done)
  }

  // ---------------------------------------------------------------- start and split

  /**
   * `start`: the bet is placed, the delta cleared, and four cards dealt alternately to the
   * player's one hand and to the dealer.
   */
  function Started(t: Solo, bet: int): Solo
  {
    var cs := t.deck.Peek(4);
    t.(inProgress := true, bet := bet, delta := 0, playerHands := [NewHand([cs[0], cs[2]])], activeIndex := 0,
       dealer := NewHand([cs[1], cs[3]]), deck := t.deck.Skip(4))
  }

  /** A started game runs with one two-card hand and a two-card dealer, the first and third card to the player. */
  lemma StartedSpec(t: Solo, bet: int)
    ensures var t' := Started(t, bet);
      && Valid(t') && t'.inProgress && t'.bet == bet && t'.delta == 0 && t'.activeIndex == 0
      && |t'.playerHands| == 1 && t'.playerHands[0].cards == [t.deck.source(t.deck.next), t.deck.source(t.deck.next + 2)]
      && t'.dealer.cards == [t.deck.source(t.deck.next + 1), t.deck.source(t.deck.next + 3)]
  {
  }

  /** `canSplit`: a running game with one hand of two cards of equal `bjValue`. */
  predicate CanSplit(t: Solo)
  {
    && t.inProgress && |t.playerHands| == 1 && |t.playerHands[0].cards| == 2
    && t.playerHands[0].cards[0].bjValue == t.playerHands[0].cards[1].bjValue
  }

  /** `split`: each card of the pair starts a new hand and gets one more card; play returns to the first. */
  function AfterSplit(t: Solo): Solo
  {
    if !CanSplit(t) then t
    else
      var h := t.playerHands[0];
      var d := t.deck;
      t.(playerHands := [NewHand([h.cards[0], d.Top()]), NewHand([h.cards[1], d.Rest().Top()])],
         activeIndex := 0, deck := d.Skip(2))
  }

  /**
   * A split leaves two hands, each holding one card of the pair and then the next card of the
   * deck, with the first hand to play; the invariant is kept.
   */
  lemma SplitSpec(t: Solo)
    requires Valid(t) && CanSplit(t)
    ensures var t' := AfterSplit(t);
      && Valid(t') && t'.inProgress && t'.activeIndex == 0 && |t'.playerHands| == 2
      && t'.playerHands[0].cards == [t.playerHands[0].cards[0], t.deck.source(t.deck.next)]
      && t'.playerHands[1].cards == [t.playerHands[0].cards[1], t.deck.source(t.deck.next + 1)]
  {
  }

  // ---------------------------------------------------------------- settling

  /** Whether every hand is finished. */
  predicate AllDone(hands: seq<Hand>)
  {
    forall i :: 0 <= i < |hands| ==> hands[i].done
  }

  /** What the hands return together against the dealer's total. */
  function TotalReturned(hands: seq<Hand>, dealerTotal: int, bet: int): int
  {
    if hands == [] then 0
    else TotalReturned(hands[..|hands| - 1], dealerTotal, bet) + Returned(hands[|hands| - 1].total, dealerTotal, bet)
  }

  /** The loop of `settleIfAllDone` over the hands, adding up what each one returns. */
  method HandsReturned(hands: seq<Hand>, total: int, bet: int) returns (returned: int)
    ensures returned == TotalReturned(hands, total, bet)
  {
    returned := 0;
    var k := 0;
    while k < |hands|
      invariant 0 <= k <= |hands|
      invariant returned == TotalReturned(hands[..k], total, bet)
    {
      assert hands[..k + 1][..k] == hands[..k];
      var h := hands[k];
      var r := 0;
      if h.total > 21 {
        r := 0;
      } else if total > 21 || h.total > total {
        r := bet * 2;
      } else if h.total == total {
        r := bet;
      }
      returned := returned + r;
      k := k + 1;
    }
    assert hands[..|hands|] == hands;
  }

  /**
   * `settleIfAllDone`: nothing while a hand is unfinished; otherwise the dealer draws to 17,
   * the game ends, and the delta is what the hands return.
   */
  function Settled(t: Solo): Solo
  {
    if !AllDone(t.playerHands) then t
    else
      var (cs, d) := DealerDraws(t.dealer.cards, t.deck);
      t.(dealer := t.dealer.(cards := cs, total := BestTotal(cs)), deck := d, inProgress := false,
         delta := TotalReturned(t.playerHands, BestTotal(cs), t.bet))
  }

  /**
   * Once every hand is finished the game is over, the dealer holds 17 or more after drawing
   * only from the deck, and the delta is the sum of what each hand returns; the hands themselves
   * are left as they were.
   */
  lemma SettledSpec(t: Solo)
    requires Totals(t) && AllDone(t.playerHands)
    ensures var t' := Settled(t);
      && !t'.inProgress && Valid(t')
      && BestTotal(t'.dealer.cards) >= 17 && t'.dealer.total == BestTotal(t'.dealer.cards)
      && |t'.dealer.cards| >= |t.dealer.cards|
      && t'.dealer.cards == t.dealer.cards + t.deck.Peek(|t'.dealer.cards| - |t.dealer.cards|)
      && t'.playerHands == t.playerHands
      && t'.delta == TotalReturned(t.playerHands, t'.dealer.total, t.bet)
  {
    DealerDrawsSpec(t.dealer.cards, t.deck);
  }

  /** Each finished hand returns nothing, the bet or twice the bet, so the delta lies between 0 and twice the bet per hand. */
  lemma {:induction false} TotalReturnedBounds(hands: seq<Hand>, dealerTotal: int, bet: int)
    requires bet >= 0
    ensures 0 <= TotalReturned(hands, dealerTotal, bet) <= 2 * bet * |hands|
  {
    if hands != [] {
      var n := |hands| - 1;
      TotalReturnedBounds(hands[..n], dealerTotal, bet);
      assert 0 <= Returned(hands[n].total, dealerTotal, bet) <= 2 * bet;
      assert 2 * bet * |hands| == 2 * bet * n + 2 * bet;
    }
  }

  /** The first unfinished hand from index `i` on, or the number of hands when there is none. */
  function FirstOpen(hands: seq<Hand>, i: int): (j: int)
    requires 0 <= i <= |hands|
    ensures i <= j <= |hands|
    ensures forall k :: i <= k < j ==> hands[k].done
    ensures j < |hands| ==> !hands[j].done
    decreases |hands| - i
  {
    if i < |hands| && hands[i].done then FirstOpen(hands, i + 1) else i
  }

  /** `nextHand`: play moves to the next unfinished hand, and the game settles when there is none. */
  function AfterNextHand(t: Solo): Solo
    requires 0 <= t.activeIndex <= |t.playerHands|
  {
    var j := FirstOpen(t.playerHands, t.activeIndex);
    if j >= |t.playerHands| then Settled(t.(activeIndex := j)) else t.(activeIndex := j)
  }

  /** Moving on from a finished hand keeps the invariant. */
  lemma NextHandValid(t: Solo)
    requires 0 <= t.activeIndex <= |t.playerHands| && t.inProgress
    requires Totals(t)
    requires forall i :: 0 <= i < t.activeIndex ==> t.playerHands[i].done
    ensures Valid(AfterNextHand(t))
    ensures AfterNextHand(t).inProgress ==> AfterNextHand(t).activeIndex >= t.activeIndex
  {
    var j := FirstOpen(t.playerHands, t.activeIndex);
    if j >= |t.playerHands| {
      SettledSpec(t.(activeIndex := j));
    }
  }

  // ---------------------------------------------------------------- player actions

  /** The active hand with one more card off the deck, its total recomputed. */
  function Drawn(t: Solo): Solo
    requires 0 <= t.activeIndex < |t.playerHands|
  {
    var h := t.playerHands[t.activeIndex];
    var cs := h.cards + [t.deck.Top()];
    t.(playerHands := t.playerHands[t.activeIndex := h.(cards := cs, total := BestTotal(cs))], deck := t.deck.Rest())
  }

  /** The active hand marked finished. */
  function Finished(t: Solo): Solo
    requires 0 <= t.activeIndex < |t.playerHands|
  {
    t.(playerHands := t.playerHands[t.activeIndex := t.playerHands[t.activeIndex].(done := true)])
  }

  /** `hit`: one more card to the active hand; a bust finishes it and play moves on. */
  function AfterHit(t: Solo): Solo
    requires Valid(t)
  {
    if !t.inProgress then t
    else
      var t1 := Drawn(t);
      if t1.playerHands[t.activeIndex].total > 21 then AfterNextHand(Finished(t1)) else t1
  }

  /** `stand`: the active hand is finished and play moves on. */
  function AfterStand(t: Solo): Solo
    requires Valid(t)
  {
    if !t.inProgress then t else AfterNextHand(Finished(t))
  }

  lemma DrawnValid(t: Solo)
    requires Valid(t) && t.inProgress
    ensures Valid(Drawn(t))
    ensures Drawn(t).playerHands[t.activeIndex].cards == t.playerHands[t.activeIndex].cards + [t.deck.Top()]
  {
  }

  lemma FinishedNext(t: Solo)
    requires Valid(t) && t.inProgress
    ensures Valid(AfterNextHand(Finished(t)))
    ensures AfterNextHand(Finished(t)).inProgress ==> AfterNextHand(Finished(t)).activeIndex > t.activeIndex
  {
    NextHandValid(Finished(t));
  }

  /**
   * A hit keeps the invariant and gives the active hand the next card; a hit that goes over 21
   * finishes that hand and moves play past it.
   */
  lemma HitSpec(t: Solo)
    requires Valid(t) && t.inProgress
    ensures Valid(AfterHit(t))
    ensures |AfterHit(t).playerHands| == |t.playerHands|
    ensures AfterHit(t).playerHands[t.activeIndex].cards == t.playerHands[t.activeIndex].cards + [t.deck.Top()]
    ensures BestTotal(AfterHit(t).playerHands[t.activeIndex].cards) > 21 ==>
      AfterHit(t).playerHands[t.activeIndex].done && (AfterHit(t).inProgress ==> AfterHit(t).activeIndex > t.activeIndex)
  {
    DrawnValid(t);
    var t1 := Drawn(t);
    if t1.playerHands[t.activeIndex].total > 21 {
      FinishedNext(t1);
      var j := FirstOpen(Finished(t1).playerHands, t.activeIndex);
      if j >= |t.playerHands| {
        SettledSpec(Finished(t1).(activeIndex := j));
      }
    }
  }

  /** A stand keeps the invariant, finishes the active hand and moves play past it. */
  lemma StandSpec(t: Solo)
    requires Valid(t) && t.inProgress
    ensures Valid(AfterStand(t))
    ensures |AfterStand(t).playerHands| == |t.playerHands| && AfterStand(t).playerHands[t.activeIndex].done
    ensures AfterStand(t).inProgress ==> AfterStand(t).activeIndex > t.activeIndex
  {
    FinishedNext(t);
    var j := FirstOpen(Finished(t).playerHands, t.activeIndex);
    if j >= |t.playerHands| {
      SettledSpec(Finished(t).(activeIndex := j));
    }
  }

  /** `dbl` as the source writes it: the bet doubles, a hit, then a stand whenever the game still runs. */
  function AfterDoubleAsWritten(t: Solo): Solo
    requires Valid(t)
  {
    if !t.inProgress then t
    else
      var t1 := AfterHit(t.(bet := t.bet * 2));
      HitSpec(t.(bet := t.bet * 2));
      if t1.inProgress then AfterStand(t1) else t1
  }

  /**
   * `dbl` as intended: the bet doubles, the active hand takes one card and stands. When that
   * card busts the hand, the hit has already finished it and moved play on, so there is
   * nothing left to stand.
   */
  function AfterDouble(t: Solo): Solo
    requires Valid(t)
  {
    if !t.inProgress then t
    else
      var t1 := AfterHit(t.(bet := t.bet * 2));
      HitSpec(t.(bet := t.bet * 2));
      if t1.inProgress && !t1.playerHands[t.activeIndex].done then AfterStand(t1) else t1
  }

  /** A running game whose active hand is the first of a split pair, and a deck of tens. */
  function SplitTable(): Solo
  {
    var ten := CardData(TEN, S, 10, 0);
    var six := CardData(SIX, H, 6, 6);
    Solo(true, 10, 0, 1, [NewHand([ten, six]), NewHand([ten, ten])], 0, NewHand([ten, six]), Deck(n => ten, 0))
  }

  /**
   * Doubling the first split hand of 16 onto a ten busts it and moves play to the second hand,
   * which the source's stand then finishes although the player never acted on it.
   */
  lemma DoubleStandsNextHand()
    ensures Valid(SplitTable())
    ensures !SplitTable().playerHands[1].done
    ensures AfterDoubleAsWritten(SplitTable()).playerHands[1].done
    ensures AfterDoubleAsWritten(SplitTable()).playerHands[1].cards == SplitTable().playerHands[1].cards
  {
    var t := SplitTable();
    var ten, six := t.deck.Top(), t.playerHands[0].cards[1];
    assert RawSum([ten]) == 10 && Aces([ten]) == 0;
    assert RawSum([ten, six]) == 16 && Aces([ten, six]) == 0;
    assert [ten, six][..1] == [ten];
    assert BestTotal(t.playerHands[0].cards) == 16;
    assert BestTotal(t.playerHands[0].cards + [t.deck.Top()]) == 26;
  }

  /**
   * Doubling keeps the invariant, gives the active hand one more card and finishes it, and
   * changes no other hand.
   */
  lemma DoubleSpec(t: Solo)
    requires Valid(t) && t.inProgress
    ensures var t' := AfterDouble(t);
      && Valid(t') && |t'.playerHands| == |t.playerHands| && t'.bet == 2 * t.bet
      && t'.playerHands[t.activeIndex].cards == t.playerHands[t.activeIndex].cards + [t.deck.Top()]
      && t'.playerHands[t.activeIndex].done
      && (forall k :: 0 <= k < |t.playerHands| && k != t.activeIndex ==> t'.playerHands[k] == t.playerHands[k])
  {
    var t0 := t.(bet := t.bet * 2);
    HitSpec(t0);
    DrawnValid(t0);
    var t1 := AfterHit(t0);
    var j := FirstOpen(Finished(Drawn(t0)).playerHands, t.activeIndex);
    if j >= |t.playerHands| && BestTotal(Drawn(t0).playerHands[t.activeIndex].cards) > 21 {
      SettledSpec(Finished(Drawn(t0)).(activeIndex := j));
    }
    if t1.inProgress && !t1.playerHands[t.activeIndex].done {
      StandSpec(t1);
      var j1 := FirstOpen(Finished(t1).playerHands, t1.activeIndex);
      if j1 >= |t.playerHands| {
        SettledSpec(Finished(t1).(activeIndex := j1));
      }
    }
  }

  /** Outside a running game every action leaves the table as it is. */
  lemma IdleSpec(t: Solo)
    requires Valid(t) && !t.inProgress
    ensures AfterSplit(t) == t && AfterHit(t) == t && AfterStand(t) == t
    ensures AfterDouble(t) == t && AfterSurrender(t) == t
  {
  }

  /** `surrender`: the game ends and the delta is minus half the bet, rounded toward zero. */
  function AfterSurrender(t: Solo): Solo
  {
    if !t.inProgress then t else t.(inProgress := false, delta := -Div(t.bet, 2))
  }

  lemma SurrenderSpec(t: Solo)
    requires Valid(t)
    ensures Valid(AfterSurrender(t))
    ensures t.inProgress && t.bet >= 0 ==> !AfterSurrender(t).inProgress && AfterSurrender(t).delta == -(t.bet / 2)
  {
  }
}
