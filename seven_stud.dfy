/**
 * The console's fixed-limit seven-card stud against the dealer
 * (sevenpoker/SevenStudFixedLimit.java): two down cards and one up card each, four more
 * streets of up, up, up and down cards, a betting round after each deal with at most three
 * raises, and a showdown of the best five of seven. The player's choices (the menu answers) and
 * the dealer's random draws are inputs of each betting round.
 */
module SevenStud {
  import opened Wrappers
  import opened PokerScore
  import opened ConsoleCard
  import opened ConsolePoker
  import opened BestFive
  import Arith

  // ---------------------------------------------------------------- bet sizing and ante

  function Max(a: int, b: int): int { if a >= b then a else b }

  function Min(a: int, b: int): int { if a <= b then a else b }

  /** The bet of the 3rd and 4th streets: the ante, but at least 1. */
  function SmallBet(ante: int): (small: int)
    ensures small >= 1 && small >= ante
    ensures small == ante || small == 1
  {
    Max(ante, 1)
  }

  /** The bet of the 5th to 7th streets: `max(2 * small, small + 1)`, which is twice the small bet. */
  function BigBet(small: int): (big: int)
    requires small >= 1
    ensures big == 2 * small && big > small
  {
    Max(small * 2, small + 1)
  }

  /** The ante the player actually pays: all of it, or the whole stack when that is less. */
  function AntePaid(ante: int, stack: int): (paid: int)
    ensures paid <= ante && paid <= stack
    ensures paid == ante || paid == stack
  {
    Min(ante, stack)
  }

  /** The ante puts the player all in exactly when the stack is short of it. */
  lemma AnteAllIn(ante: int, stack: int)
    ensures AntePaid(ante, stack) < ante <==> stack < ante
  {
  }

  // ---------------------------------------------------------------- up cards

  /** `upMaxRank`: the highest rank value among the up cards, ace high, or 0 when there are none. */
  method UpMaxRank(up: seq<Card>) returns (best: int)
    ensures up == [] ==> best == 0
    ensures forall i :: 0 <= i < |up| ==> RankValue(up[i].rank) <= best
    ensures up != [] ==> exists i :: 0 <= i < |up| && best == RankValue(up[i].rank)
  {
    best := 0;
    for k := 0 to |up|
      invariant k == 0 ==> best == 0
      invariant forall i :: 0 <= i < k ==> RankValue(up[i].rank) <= best
      invariant k > 0 ==> exists i :: 0 <= i < k && best == RankValue(up[i].rank)
    {
      best := Max(best, RankValue(up[k].rank));
    }
  }

  // ---------------------------------------------------------------- one betting round

  /** What a betting round takes from each side, and how it ended for the player. */
  datatype StreetPaid = StreetPaid(player: int, dealer: int, playerFolded: bool, playerAllIn: bool)

  /**
   * The outside inputs of one betting round: the player's menu answers (opening `choice` and
   * closing `fin`, each 1..3) and the three random draws of the dealer (a bluff bet when behind,
   * the one-point nudge of its up-card comparison, and a raise instead of a call).
   */
  datatype StreetInput = StreetInput(choice: int, bluff: bool, nudge: bool, raise: bool, fin: int)

  predicate ValidInput(i: StreetInput)
  {
    1 <= i.choice <= 3 && 1 <= i.fin <= 3
  }

  /**
   * `bettingRound`. The player acts first: check, bet (all in when the stack is short) or fold.
   * The dealer then bets after a check, or calls or raises a bet (only calls an all-in). If the
   * dealer bet or raised, the player calls, re-raises (answered by the dealer's call) or folds.
   * Every full bet, raise and re-raise counts one raise, and none is made once three stand.
   */
  method BettingRound(betSize: int, pUp: seq<Card>, dUp: seq<Card>, stack: int, input: StreetInput)
    returns (r: StreetPaid, raises: int, stack': int)
    requires betSize >= 1 && ValidInput(input)
    ensures 0 <= raises <= 3
    ensures stack' == stack - r.player
    ensures stack >= 0 ==> 0 <= r.player <= stack
    ensures r.dealer >= 0
    ensures stack >= 0 && !r.playerFolded ==>
      r.player == r.dealer || (r.playerAllIn && r.player < r.dealer)
    ensures input.choice == 1 && input.bluff && input.fin == 1 && 0 <= stack < betSize ==>
      r == StreetPaid(stack, betSize, false, true)
  {
    var payP, payD, toCall := 0, 0, 0;
    var bettingOpen, playerAllIn := true, false;
    raises := 0;
    stack' := stack;
    var pMax := UpMaxRank(pUp);
    var dMax := UpMaxRank(dUp);

    // The player leads: the opening menu is always offered, since nothing is owed yet.
    if input.choice == 2 && raises < 3 {
      var pay := Min(betSize, stack');
      payP, stack' := payP + pay, stack' - pay;
      toCall, bettingOpen := pay, false;
      if pay < betSize {
        playerAllIn := true;
      } else {
        raises := raises + 1;
      }
    } else if input.choice == 3 {
      return StreetPaid(payP, payD, true, playerAllIn), raises, stack';
    }

    // The dealer answers.
    if toCall == 0 && bettingOpen {
      var bet := raises < 3 && (dMax >= pMax || input.bluff);
      if bet {
        payD, toCall, bettingOpen, raises := payD + betSize, betSize, false, raises + 1;
      } else {
        return StreetPaid(payP, payD, false, playerAllIn), raises, stack';
      }
    } else if toCall > 0 {
      var allowRaise := !playerAllIn && raises < 3;
      var dChoice := if allowRaise && dMax + (if input.nudge then 1 else 0) >= pMax && input.raise then 2 else 1;
      if dChoice == 1 {
        payD, toCall := payD + toCall, 0;
      } else if raises < 3 {
        payD, toCall, raises := payD + toCall + betSize, betSize, raises + 1;
      } else {
        payD, toCall := payD + toCall, 0;
      }
    }

    // The player closes when the dealer bet or raised.
    if toCall > 0 {
      var canReRaise := !playerAllIn && raises < 3;
      if input.fin == 1 {
        var need := toCall;
        var pay := Min(need, stack');
        payP, stack', toCall := payP + pay, stack' - pay, toCall - pay;
        if pay < need {
          playerAllIn, toCall := true, 0;
        }
      } else if input.fin == 2 && canReRaise {
        var need := toCall + betSize;
        var pay := Min(need, stack');
        payP, stack' := payP + pay, stack' - pay;
        if pay < need {
          playerAllIn, toCall := true, pay - (need - betSize);
          if toCall < 0 {
            toCall := 0;
          }
        } else {
          toCall, raises := betSize, raises + 1;
        }
        if toCall > 0 {
          payD, toCall := payD + toCall, 0;
        }
      } else {
        return StreetPaid(payP, payD, true, playerAllIn), raises, stack';
      }
    }
    return StreetPaid(payP, payD, false, playerAllIn), raises, stack';
  }

  /**
   * As written, a player who checks, faces the dealer's bet and calls it short is all in for the
   * stack, while the dealer's whole bet stays in the pot: here 5 against 10.
   */
  method ShortCallLeavesExcess() returns (r: StreetPaid)
    ensures r == StreetPaid(5, 10, false, true)
  {
    var raises, stack';
    r, raises, stack' := BettingRound(10, [], [], 5, StreetInput(1, true, false, false, 1));
  }

  /**
   * The betting round with the dealer's unmatched excess handed back: unless the player folds,
   * both sides leave the same amount in the pot, as the showdown's payout assumes.
   */
  method CorrectedBettingRound(betSize: int, pUp: seq<Card>, dUp: seq<Card>, stack: int, input: StreetInput)
    returns (r: StreetPaid, raises: int, stack': int)
    requires betSize >= 1 && ValidInput(input)
    ensures 0 <= raises <= 3
    ensures stack' == stack - r.player
    ensures stack >= 0 ==> 0 <= r.player <= stack && r.dealer >= 0
    ensures stack >= 0 && !r.playerFolded ==> r.player == r.dealer
    ensures input.choice == 1 && input.bluff && input.fin == 1 && 0 <= stack < betSize ==>
      r == StreetPaid(stack, stack, false, true)
  {
    r, raises, stack' := BettingRound(betSize, pUp, dUp, stack, input);
    if !r.playerFolded && r.player < r.dealer {
      r := r.(dealer := r.player);
    }
  }

  // ---------------------------------------------------------------- the hand

  /**
   * The running totals of `playOneRoundForBet`: the pot, the player's delta, what each side has
   * paid into this hand, whether the player was ever all in, and what is left of the stack.
   */
  datatype Ledger = Ledger(pot: int, delta: int, totalP: int, totalD: int, allInEver: bool, stack: int)

  /** Before the showdown, the pot is what both sides paid and the delta is what the player paid. */
  predicate Balanced(l: Ledger, stack0: int)
  {
    l.pot == l.totalP + l.totalD && l.delta == -l.totalP && l.stack + l.totalP == stack0
  }

  /** The ledger after the ante: only the player pays it, up to the stack. */
  function AfterAnte(ante: int, stack: int): (l: Ledger)
    ensures Balanced(l, stack)
    ensures l.allInEver <==> stack < ante
  {
    var paid := AntePaid(ante, stack);
    Ledger(paid, -paid, paid, 0, paid < ante, stack - paid)
  }

  /** The ledger after a betting round that left `stack'` of the stack. */
  function AfterStreet(l: Ledger, r: StreetPaid, stack': int): Ledger
  {
    Ledger(l.pot + r.player + r.dealer, l.delta - r.player, l.totalP + r.player, l.totalD + r.dealer,
      l.allInEver || r.playerAllIn, stack')
  }

  /** Settling a betting round keeps the ledger balanced. */
  lemma AfterStreetBalanced(l: Ledger, r: StreetPaid, stack': int, stack0: int)
    requires Balanced(l, stack0) && stack' == l.stack - r.player
    ensures Balanced(AfterStreet(l, r, stack'), stack0)
  {
  }

  /**
   * The unmatched excess then goes to the player: after the ante and a short call of `s` against
   * the dealer's bet `b`, a win nets the whole of `b` though the player matched only `s`.
   */
  lemma ShortCallWinsUnmatched(ante: int, s: int, b: int)
    requires 0 <= ante && 0 <= s < b
    ensures AfterStreet(AfterAnte(ante, ante + s), StreetPaid(s, b, false, true), 0).pot == ante + s + b
    ensures AfterStreet(AfterAnte(ante, ante + s), StreetPaid(s, b, false, true), 0).delta == -(ante + s)
    ensures -(ante + s) + ShowdownGain(ante + s + b, 1) == b > s
  {
  }

  /** What the showdown adds to the delta: the pot on a win, half of it (rounded toward zero) on a tie. */
  function ShowdownGain(pot: int, cmp: int): (g: int)
    ensures pot >= 0 ==> 0 <= g <= pot
    ensures cmp < 0 ==> g == 0
    ensures cmp > 0 ==> g == pot
    ensures cmp == 0 && pot >= 0 ==> 2 * g <= pot < 2 * g + 2
  {
    if cmp > 0 then pot else if cmp < 0 then 0 else Arith.Div(pot, 2)
  }

  /** The player's seven cards, from the deal order of the hand: down, down, up, four more ups... */
  function PlayerSeven(deck: Deck): (cs: seq<Card>)
    ensures |cs| == 7
  {
    var d := deck.Peek(14);
    [d[0], d[2], d[12], d[4], d[6], d[8], d[10]]
  }

  /** ...and the dealer's, drawn right after each of the player's. */
  function DealerSeven(deck: Deck): (cs: seq<Card>)
    ensures |cs| == 7
  {
    var d := deck.Peek(14);
    [d[1], d[3], d[13], d[5], d[7], d[9], d[11]]
  }

/**
   * The outcome of `playOneRoundForBet`: its return value `delta`, with the ledger it ends on,
   * the number of betting rounds played and the shared deck as the hand leaves it.
   */
  datatype Outcome = Outcome(delta: int, ledger: Ledger, folded: bool, streets: nat, deck: Deck)

  /**
   * One street: deal one card to each side (up for streets 4 to 6, down for the 7th), then bet
   * through the corrected round, so that what the two sides add to the pot stays matched.
   * `street` 0 is the 3rd street, whose cards are dealt before the ante.
   */
  method Street(l: Ledger, betSize: int, pUp: seq<Card>, dUp: seq<Card>, input: StreetInput, ghost stack0: int)
    returns (l': Ledger, folded: bool)
    requires betSize >= 1 && ValidInput(input) && Balanced(l, stack0)
    ensures Balanced(l', stack0)
    ensures l.stack >= 0 ==> l'.stack >= 0 && l'.totalP >= l.totalP
    ensures l.stack >= 0 && !folded ==> l'.totalP - l'.totalD == l.totalP - l.totalD
  {
    var r, raises, stack' := CorrectedBettingRound(betSize, pUp, dUp, l.stack, input);
    AfterStreetBalanced(l, r, stack', stack0);
    l' := AfterStreet(l, r, stack');
    folded := r.playerFolded;
  }

  /**
   * `playOneRoundForBet` with the player's answers and the dealer's draws for the five betting
   * rounds given. A fold ends the hand with the delta at minus what the player paid; at the
   * showdown the delta gains the pot on a win and half of it on a tie.
   */
  method PlayOneRoundForBet(deck: Deck, ante: int, stack: int, inputs: seq<StreetInput>)
    returns (o: Outcome)
    requires |inputs| == 5 && forall i :: 0 <= i < 5 ==> ValidInput(inputs[i])
    ensures Balanced(o.ledger, stack)
    ensures o.folded ==> o.delta == -o.ledger.totalP
    ensures 1 <= o.streets <= 5 && (!o.folded ==> o.streets == 5)
    ensures o.deck == deck.Skip(4 + 2 * o.streets)
    ensures stack >= 0 && !o.folded ==> o.ledger.totalP == o.ledger.totalD + AntePaid(ante, stack)
    ensures !o.folded ==> exists ps, ds ::
      && IsBestScore(PlayerSeven(deck), ps)
      && IsBestScore(DealerSeven(deck), ds)
      && o.delta == -o.ledger.totalP + ShowdownGain(o.ledger.pot, Compare(ps, ds))
  {
    var small := SmallBet(ante);
    var big := BigBet(small);
    var d := deck.Peek(14);
    var pDown, dDown, pUp, dUp := [d[0], d[2]], [d[1], d[3]], [d[4]], [d[5]];
    var l := AfterAnte(ante, stack);
    var folded;
    l, folded := Street(l, small, pUp, dUp, inputs[0], stack);
    if folded {
      return Outcome(l.delta, l, true, 1, deck.Skip(6));
    }
    pUp, dUp := pUp + [d[6]], dUp + [d[7]];
    l, folded := Street(l, small, pUp, dUp, inputs[1], stack);
    if folded {
      return Outcome(l.delta, l, true, 2, deck.Skip(8));
    }
    pUp, dUp := pUp + [d[8]], dUp + [d[9]];
    l, folded := Street(l, big, pUp, dUp, inputs[2], stack);
    if folded {
      return Outcome(l.delta, l, true, 3, deck.Skip(10));
    }
    pUp, dUp := pUp + [d[10]], dUp + [d[11]];
    l, folded := Street(l, big, pUp, dUp, inputs[3], stack);
    if folded {
      return Outcome(l.delta, l, true, 4, deck.Skip(12));
    }
    pDown, dDown := pDown + [d[12]], dDown + [d[13]];
    l, folded := Street(l, big, pUp, dUp, inputs[4], stack);
    if folded {
      return Outcome(l.delta, l, true, 5, deck.Skip(14));
    }
    var delta := Showdown(l, pDown + pUp, dDown + dUp);
    Seven(d[0], d[2], d[12], d[4], d[6], d[8], d[10]);
    Seven(d[1], d[3], d[13], d[5], d[7], d[9], d[11]);
    return Outcome(delta, l, false, 5, deck.Skip(14));
  }

  /** The three down cards followed by the four up cards. */
  lemma Seven(a: Card, b: Card, c: Card, d: Card, e: Card, f: Card, g: Card)
    ensures [a, b] + [c] + ([d] + [e] + [f] + [g]) == [a, b, c, d, e, f, g]
  {
  }

  /** `PokerEval.evaluate(best5(cards))`: the best score of the seven cards. */
  method BestHandScore(seven: seq<Card>) returns (s: HandScore)
    requires |seven| == 7
    ensures IsBestScore(seven, s)
  {
    var five := Best5(seven);
    var r := Evaluate(five.value);
    s := r.value;
  }

  /** The showdown: each side's best five by `best5`, evaluated and compared. */
  method Showdown(l: Ledger, pAll: seq<Card>, dAll: seq<Card>) returns (delta: int)
    requires |pAll| == 7 && |dAll| == 7
    ensures exists ps, ds ::
      && IsBestScore(pAll, ps)
      && IsBestScore(dAll, ds)
      && delta == l.delta + ShowdownGain(l.pot, Compare(ps, ds))
  {
    var ps := BestHandScore(pAll);
    var ds := BestHandScore(dAll);
    var cmp := CompareTo(ps, ds);
    delta := l.delta + ShowdownGain(l.pot, cmp);
  }
}
