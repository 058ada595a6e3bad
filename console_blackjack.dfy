/**
 * The console blackjack game (`BlackJack`): a hand's value with soft aces, the split test, the
 * settlement of one hand against the dealer, the dealer drawing to 17, and a round's total over
 * its hands. The player's prompts and choices are not part of this model.
 */
module ConsoleBlackjack {
  import opened ConsoleCard
  import BlackjackRules

  /** `isTenValue`: ten and the three faces. */
  predicate IsTenValue(r: Rank)
  {
    r == TEN || r == JACK || r == QUEEN || r == KING
  }

  /** What a card adds to the sum in `value`: an ace 11, ten-valued cards 10, others ordinal + 1. */
  function CardPoints(c: Card): (v: int)
    ensures c.rank == ACE ==> v == 11
    ensures IsTenValue(c.rank) ==> v == 10
    ensures c.rank != ACE && !IsTenValue(c.rank) ==> 2 <= v == Ordinal(c.rank) + 1 <= 9
  {
    match c.rank
    case ACE => 11
    case TEN | JACK | QUEEN | KING => 10
    case _ => Ordinal(c.rank) + 1
  }

  /** The sum with every ace 11. */
  function RawSum(h: seq<Card>): int
  {
    if h == [] then 0 else RawSum(h[..|h| - 1]) + CardPoints(h[|h| - 1])
  }

  /** The number of aces. */
  function Aces(h: seq<Card>): (n: nat)
  {
    if h == [] then 0 else Aces(h[..|h| - 1]) + (if h[|h| - 1].rank == ACE then 1 else 0)
  }

  /** The sum with every ace 1. */
  function HardSum(h: seq<Card>): int
  {
    RawSum(h) - 10 * Aces(h)
  }

  /** `value`: the sum, lowered by 10 for one ace after another while it is over 21. */
  function Value(h: seq<Card>): int
  {
    BlackjackRules.Demote(RawSum(h), Aces(h))
  }

  /**
   * `value` counts each ace 11 or 1 and every other card its points: it lies between the sum
   * with aces as 1 and as 11, it is 21 or less unless every ace already counts 1, and an ace
   * counts 1 only when 11 would go over 21.
   */
  lemma ValueSpec(h: seq<Card>)
    ensures HardSum(h) <= Value(h) <= RawSum(h)
    ensures (RawSum(h) - Value(h)) % 10 == 0
    ensures Value(h) <= 21 || Value(h) == HardSum(h)
    ensures Value(h) < RawSum(h) ==> Value(h) + 10 > 21
  {
    BlackjackRules.DemoteSpec(RawSum(h), Aces(h));
  }

  /** Every card adds at least 1 to the sum with aces as 1. */
  lemma HardSumGrows(h: seq<Card>, c: Card)
    ensures HardSum(h + [c]) >= HardSum(h) + 1
  {
    assert (h + [c])[..|h|] == h;
  }

  /** `value` as the source computes it: a sum with an ace count, then the demotion loop. */
  method ComputeValue(h: seq<Card>) returns (sum: int)
    ensures sum == Value(h)
  {
    sum := 0;
    var aces := 0;
    var i := 0;
    while i < |h|
      invariant 0 <= i <= |h|
      invariant sum == RawSum(h[..i]) && aces == Aces(h[..i])
    {
      assert h[..i + 1][..i] == h[..i];
      match h[i].rank {
        case ACE =>
          sum := sum + 11;
          aces := aces + 1;
        case TEN | JACK | QUEEN | KING => sum := sum + 10;
        case _ => sum := sum + Ordinal(h[i].rank) + 1;
      }
      i := i + 1;
    }
    assert h[..|h|] == h;
    while sum > 21 && aces > 0
      invariant 0 <= aces && BlackjackRules.Demote(sum, aces) == Value(h)
    {
      aces := aces - 1;
      sum := sum - 10;
    }
  }

  /** `canSplit`: exactly two cards of one rank, or two ten-valued cards. */
  predicate CanSplit(h: seq<Card>)
  {
    |h| == 2 && (h[0].rank == h[1].rank || (IsTenValue(h[0].rank) && IsTenValue(h[1].rank)))
  }

  /** Exactly the two-card hands whose cards add the same points can be split. */
  lemma CanSplitSpec(h: seq<Card>)
    ensures CanSplit(h) <==> |h| == 2 && CardPoints(h[0]) == CardPoints(h[1])
  {
    if |h| == 2 && CardPoints(h[0]) == CardPoints(h[1]) && !IsTenValue(h[0].rank) {
      assert h[0].rank == h[1].rank by {
        if h[0].rank != ACE {
          assert h[1].rank != ACE && !IsTenValue(h[1].rank);
          assert Ordinal(h[0].rank) == Ordinal(h[1].rank);
        }
      }
    }
  }

  /**
   * `settleDelta`: with a bet, a player bust loses it before the dealer's bust is looked at, a
   * dealer bust or a higher total wins it, a lower total loses it, and equal totals push;
   * without a bet nothing changes hands.
   */
  function SettleDelta(pv: int, dv: int, bet: int): (delta: int)
    ensures bet <= 0 ==> delta == 0
    ensures bet > 0 && pv > 21 ==> delta == -bet
    ensures bet > 0 && pv <= 21 && (dv > 21 || pv > dv) ==> delta == bet
    ensures bet > 0 && pv <= 21 && dv <= 21 && pv < dv ==> delta == -bet
    ensures pv <= 21 && dv <= 21 && pv == dv ==> delta == 0
  {
    if pv > 21 then (if bet > 0 then -bet else 0)
    else if dv > 21 then (if bet > 0 then bet else 0)
    else if pv > dv then (if bet > 0 then bet else 0)
    else if pv < dv then (if bet > 0 then -bet else 0)
    else 0
  }

  /**
   * The console settlement is the server's: a hand wins back what the server's engines return
   * on it, less the bet placed; and between two standing totals it is zero-sum.
   */
  lemma SettleDeltaAgrees(pv: int, dv: int, bet: int)
    requires bet > 0
    ensures SettleDelta(pv, dv, bet) == BlackjackRules.Returned(pv, dv, bet) - bet
    ensures pv <= 21 && dv <= 21 ==> SettleDelta(pv, dv, bet) == -SettleDelta(dv, pv, bet)
  {
  }

  // ---------------------------------------------------------------- the dealer

  /** The dealer's cards after drawing while the value is under 17, and the deck after. */
  function DealerDraws(h: seq<Card>, d: Deck): (seq<Card>, Deck)
    decreases 17 - HardSum(h)
  {
    if Value(h) >= 17 then (h, d)
    else
      ValueSpec(h);
      HardSumGrows(h, d.Top());
      DealerDraws(h + [d.Top()], d.Rest())
  }

  /** The dealer ends at 17 or more, and draws nothing at 17 or more. */
  lemma {:induction false} DealerDrawsTo17(h: seq<Card>, d: Deck)
    ensures Value(DealerDraws(h, d).0) >= 17
    ensures Value(h) >= 17 ==> DealerDraws(h, d) == (h, d)
    decreases 17 - HardSum(h)
  {
    if Value(h) < 17 {
      ValueSpec(h);
      HardSumGrows(h, d.Top());
      DealerDrawsTo17(h + [d.Top()], d.Rest());
    }
  }

  /**
   * The dealer holds its cards followed by the next cards of the deck, which moves on by as
   * many.
   */
  lemma {:induction false} DealerDrawsFromDeck(h: seq<Card>, d: Deck)
    ensures var (h', d') := DealerDraws(h, d);
      && |h'| >= |h|
      && h' == h + d.Peek(|h'| - |h|)
      && d' == d.Skip(|h'| - |h|)
    decreases 17 - HardSum(h)
  {
    if Value(h) < 17 {
      ValueSpec(h);
      HardSumGrows(h, d.Top());
      var h1 := h + [d.Top()];
      DealerDrawsFromDeck(h1, d.Rest());
      var (h', d') := DealerDraws(h1, d.Rest());
      assert DealerDraws(h, d) == (h', d');
      var n := |h'| - |h|;
      assert h' == h1 + d.Rest().Peek(n - 1);
      assert d.Peek(n) == [d.Top()] + d.Rest().Peek(n - 1);
    }
  }

  /** The dealer's turn as the source plays it. */
  method DealerTurn(dealer: seq<Card>, deck: Deck) returns (h: seq<Card>, d: Deck)
    ensures (h, d) == DealerDraws(dealer, deck)
  {
    h, d := dealer, deck;
    var v := ComputeValue(h);
    while v < 17
      invariant v == Value(h)
      invariant DealerDraws(h, d) == DealerDraws(dealer, deck)
      decreases 17 - HardSum(h)
    {
      ValueSpec(h);
      HardSumGrows(h, d.Top());
      h, d := h + [d.Top()], d.Rest();
      v := ComputeValue(h);
    }
  }

  // ---------------------------------------------------------------- the round's total

  /** The sum of `settleDelta` over the hands. */
  function TotalDelta(hands: seq<seq<Card>>, dv: int, bet: int): int
  {
    if hands == [] then 0
    else TotalDelta(hands[..|hands| - 1], dv, bet) + SettleDelta(Value(hands[|hands| - 1]), dv, bet)
  }

  /** A round wins or loses at most the bet on each hand, and nothing without a bet. */
  lemma {:induction false} TotalDeltaBounds(hands: seq<seq<Card>>, dv: int, bet: int)
    ensures bet > 0 ==> -bet * |hands| <= TotalDelta(hands, dv, bet) <= bet * |hands|
    ensures bet <= 0 ==> TotalDelta(hands, dv, bet) == 0
  {
    if hands != [] {
      var n := |hands| - 1;
      TotalDeltaBounds(hands[..n], dv, bet);
      assert bet * |hands| == bet * n + bet;
    }
  }

  /**
   * The settlement at the end of `playOneRoundForBet`: the single hand's `settleDelta` without a
   * split, the sum over the hands with one.
   */
  method SettleRound(hands: seq<seq<Card>>, dv: int, bet: int, didSplit: bool) returns (delta: int)
    requires |hands| >= 1
    requires !didSplit ==> |hands| == 1
    ensures delta == TotalDelta(hands, dv, bet)
  {
    delta := 0;
    if !didSplit {
      var pv := ComputeValue(hands[0]);
      delta := delta + SettleDelta(pv, dv, bet);
      assert hands[..0] == [];
    } else {
      var i := 0;
      while i < |hands|
        invariant 0 <= i <= |hands|
        invariant delta == TotalDelta(hands[..i], dv, bet)
      {
        assert hands[..i + 1][..i] == hands[..i];
        var pv := ComputeValue(hands[i]);
        delta := delta + SettleDelta(pv, dv, bet);
        i := i + 1;
      }
      assert hands[..|hands|] == hands;
    }
  }
}
