/**
 * The blackjack rules the server's two engines (`BlackjackGame` and `BlackjackRoom`) share:
 * `bestTotal`, the soft-ace total, the dealer drawing to 17, and what a finished hand returns.
 */
module BlackjackRules {
  import opened ServerCard

  /** The sum of `bjValue` over the cards, every ace counted 11. */
  function RawSum(cs: seq<Card>): int
  {
    if cs == [] then 0 else RawSum(cs[..|cs| - 1]) + cs[|cs| - 1].bjValue
  }

  /** The number of aces. */
  function Aces(cs: seq<Card>): (n: nat)
    ensures n <= |cs|
  {
    if cs == [] then 0 else Aces(cs[..|cs| - 1]) + (if cs[|cs| - 1].rank == ACE then 1 else 0)
  }

  /** The total with every ace counted 1. */
  function HardSum(cs: seq<Card>): int
  {
    RawSum(cs) - 10 * Aces(cs)
  }

  /** Takes 10 off for one ace after another while the total is over 21. */
  function Demote(sum: int, aces: nat): int
  {
    if sum > 21 && aces > 0 then Demote(sum - 10, aces - 1) else sum
  }

  /** `bestTotal`. */
  function BestTotal(cs: seq<Card>): int
  {
    Demote(RawSum(cs), Aces(cs))
  }

  /**
   * Demoting takes 10 off at most once per ace, only while the total is over 21: the result is
   * 21 or less unless every ace was demoted, and a total that was lowered is not 11 or less.
   */
  lemma {:induction false} DemoteSpec(sum: int, aces: nat)
    ensures sum - 10 * aces <= Demote(sum, aces) <= sum
    ensures (sum - Demote(sum, aces)) % 10 == 0
    ensures Demote(sum, aces) <= 21 || Demote(sum, aces) == sum - 10 * aces
    ensures Demote(sum, aces) < sum ==> Demote(sum, aces) > 11
    decreases aces
  {
    if sum > 21 && aces > 0 {
      DemoteSpec(sum - 10, aces - 1);
    }
  }

  /**
   * `bestTotal` counts each ace 11 or 1 and every other card its value; it is 21 or less unless
   * every ace already counts 1, and it only counts an ace 1 when 11 would go over 21.
   */
  lemma BestTotalSpec(cs: seq<Card>)
    ensures HardSum(cs) <= BestTotal(cs) <= RawSum(cs)
    ensures (RawSum(cs) - BestTotal(cs)) % 10 == 0
    ensures BestTotal(cs) <= 21 || BestTotal(cs) == HardSum(cs)
    ensures BestTotal(cs) < RawSum(cs) ==> BestTotal(cs) + 10 > 21
  {
    DemoteSpec(RawSum(cs), Aces(cs));
  }

  /** Every card adds at least 1 to the total with aces counted 1. */
  lemma HardSumGrows(cs: seq<Card>, c: Card)
    ensures HardSum(cs + [c]) >= HardSum(cs) + 1
  {
    assert (cs + [c])[..|cs|] == cs;
  }

  /** `bestTotal` as the source computes it: a sum with an ace count, then the demotion loop. */
  method ComputeBestTotal(cs: seq<Card>) returns (total: int)
    ensures total == BestTotal(cs)
  {
    var sum, aces := 0, 0;
    for i := 0 to |cs|
      invariant sum == RawSum(cs[..i]) && aces == Aces(cs[..i])
    {
      assert cs[..i + 1][..i] == cs[..i];
      sum := sum + cs[i].bjValue;
      if cs[i].rank == ACE {
        aces := aces + 1;
      }
    }
    assert cs[..|cs|] == cs;
    while sum > 21 && aces > 0
      invariant 0 <= aces && Demote(sum, aces) == BestTotal(cs)
    {
      sum := sum - 10;
      aces := aces - 1;
    }
    total := sum;
  }

  // ---------------------------------------------------------------- the dealer

  /** The dealer's cards after drawing while the total is under 17, and the deck after. */
  function DealerDraws(cs: seq<Card>, d: Deck): (seq<Card>, Deck)
    decreases 17 - HardSum(cs)
  {
    if BestTotal(cs) >= 17 then (cs, d)
    else
      BestTotalSpec(cs);
      HardSumGrows(cs, d.Top());
      DealerDraws(cs + [d.Top()], d.Rest())
  }

  /**
   * The dealer ends at 17 or more, holding its cards followed by the next cards of the deck,
   * which moves on by as many; it draws nothing at 17 or more.
   */
  lemma {:induction false} DealerDrawsSpec(cs: seq<Card>, d: Deck)
    ensures var (cs', d') := DealerDraws(cs, d);
      && BestTotal(cs') >= 17
      && |cs'| >= |cs|
      && cs' == cs + d.Peek(|cs'| - |cs|)
      && d' == d.Skip(|cs'| - |cs|)
    ensures BestTotal(cs) >= 17 ==> DealerDraws(cs, d) == (cs, d)
    decreases 17 - HardSum(cs)
  {
    if BestTotal(cs) < 17 {
      BestTotalSpec(cs);
      HardSumGrows(cs, d.Top());
      DealerDrawsSpec(cs + [d.Top()], d.Rest());
      var (cs', d') := DealerDraws(cs, d);
      var n := |cs'| - |cs|;
      assert d.Peek(n) == [d.Top()] + d.Rest().Peek(n - 1);
    }
  }

  // ---------------------------------------------------------------- settlement

  /** What a finished hand returns: nothing on a bust, twice the bet on a win, the bet on a push. */
  function Returned(total: int, dealerTotal: int, bet: int): (r: int)
    ensures total > 21 ==> r == 0
    ensures total <= 21 && (dealerTotal > 21 || total > dealerTotal) ==> r == 2 * bet
    ensures total <= 21 && dealerTotal <= 21 && total == dealerTotal ==> r == bet
    ensures total <= 21 && dealerTotal <= 21 && total < dealerTotal ==> r == 0
  {
    if total > 21 then 0
    else if dealerTotal > 21 || total > dealerTotal then bet * 2
    else if total == dealerTotal then bet
    else 0
  }
}
