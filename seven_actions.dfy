/**
 * What each move of `SevenPokerGame` does to the table, as functions of the table before it:
 * the four action handlers, passing the turn and closing a street, each with the lemma that
 * states what it means and that it keeps the table's invariants.
 */
module SevenActions {
  import opened Wrappers
  import opened Collections
  import opened ServerCard
  import opened SevenTable
  import opened SevenLead
  import opened SevenRules

  /**
   * The guards of `applyAction`: the hand runs, the seat is in it, it holds the turn when
   * anyone does, and it is pending when anyone is.
   */
  predicate MayAct(t: Table, u: string)
  {
    t.inProgress && Active(t.players, u) && (t.turn.None? || t.turn.value == u) && (t.pending == [] || u in t.pending)
  }

  /** The invariant that holds between the game's public operations. */
  ghost predicate Playing(t: Table)
  {
    Valid(t) && TurnPending(t)
  }

  // ---------------------------------------------------------------- handlers

  /** The seat has acted: it no longer owes an action this street. */
  function Acted(t: Table, u: string): Table
  {
    t.(pending := Without(t.pending, u))
  }

  /** A seat that has acted is no longer owed an action; the invariants are kept. */
  lemma ActedValid(t: Table, u: string)
    requires Valid(t)
    ensures Valid(Acted(t, u)) && u !in Acted(t, u).pending
  {
  }

  /** `handleCheck`: refused while a bet stands, otherwise the seat no longer owes an action. */
  function CheckOutcome(t: Table, u: string): (Option<ActionResult>, Table)
  {
    if t.currentBet > 0 then (None, t) else (Some(ActionResult(CHECK, 0)), Acted(t, u))
  }

  /** A check is refused exactly when a bet stands; an accepted one moves no chips and keeps the invariants. */
  lemma CheckSpec(t: Table, u: string)
    requires Valid(t)
    ensures Valid(CheckOutcome(t, u).1)
    ensures CheckOutcome(t, u).0.Some? <==> t.currentBet <= 0
    ensures CheckOutcome(t, u).0.None? ==> CheckOutcome(t, u).1 == t
    ensures CheckOutcome(t, u).0.Some? ==> u !in CheckOutcome(t, u).1.pending && CheckOutcome(t, u).1.pot == t.pot
  {
    ActedValid(t, u);
  }

  /** The seat's street contribution becomes the standing bet. */
  function Matched(t: Table, u: string): Table
  {
    t.(streetContribution := t.streetContribution[u := t.currentBet])
  }

  lemma MatchedValid(t: Table, u: string)
    requires Valid(t)
    ensures Valid(Matched(t, u)) && StreetPaid(Matched(t, u).streetContribution, u) == t.currentBet
  {
  }

  /**
   * `handleCall`: with something to match, the seat pays it, its street contribution becomes
   * the standing bet and it no longer owes an action; otherwise it is a check.
   */
  function CallOutcome(t: Table, u: string): (Option<ActionResult>, Table)
    requires u in t.players
  {
    var toCall := NeededToCall(t.currentBet, t.streetContribution, u);
    if t.currentBet == 0 || toCall <= 0 then CheckOutcome(t, u)
    else (Some(ActionResult(CALL, toCall)), Acted(Matched(Pay(t, u, toCall), u), u))
  }

  /**
   * A call pays exactly what the seat lacks to match the standing bet, after which the seat has
   * put in the standing bet this street and owes no action; the invariants are kept.
   */
  lemma CallSpec(t: Table, u: string)
    requires Valid(t) && u in t.players
    ensures Valid(CallOutcome(t, u).1)
    ensures NeededToCall(t.currentBet, t.streetContribution, u) == 0 ==> CallOutcome(t, u) == CheckOutcome(t, u)
    ensures NeededToCall(t.currentBet, t.streetContribution, u) > 0 ==>
      var (r, t') := CallOutcome(t, u);
      && r == Some(ActionResult(CALL, t.currentBet - StreetPaid(t.streetContribution, u)))
      && StreetPaid(t'.streetContribution, u) == t.currentBet
      && t'.pot == t.pot + r.value.paid
      && u !in t'.pending
  {
    var toCall := NeededToCall(t.currentBet, t.streetContribution, u);
    if toCall == 0 {
      CheckSpec(t, u);
    } else {
      PayValid(t, u, toCall);
      PayBalanced(t, u, toCall);
      PayKeeps(t, u, toCall);
      MatchedValid(Pay(t, u, toCall), u);
      ActedValid(Matched(Pay(t, u, toCall), u), u);
    }
  }

  /** The standing bet rises to `target`, which the seat has now put in this street. */
  function Raised(t: Table, u: string, target: int, raises: int): Table
  {
    t.(currentBet := target, raisesThisStreet := raises, streetContribution := t.streetContribution[u := target])
  }

  /** Recording a higher standing bet for the seat keeps the invariants while the raise count stays in bounds. */
  lemma RaisedValid(t: Table, u: string, target: int, raises: int)
    requires Valid(t) && 0 <= raises <= MaxRaisesPerStreet
    ensures Valid(Raised(t, u, target, raises))
  {
  }

  /** Reopening the street after a bet keeps the invariants. */
  lemma ReopenValid(t: Table, u: string)
    requires Valid(t) && u in t.order
    ensures Valid(Reopen(t, u))
  {
    ReopenSpec(t, u);
  }

  /** The standing bet a bet or raise sets: the bet unit or the amount asked, whichever is larger, on top. */
  function RaiseTarget(t: Table, amount: int): int
  {
    t.currentBet + Max(BetUnit(t.stage, t.ante), amount)
  }

  /** What the seat pays to reach the new standing bet, never negative. */
  function RaisePay(t: Table, u: string, amount: int): int
  {
    Max(0, RaiseTarget(t, amount) - StreetPaid(t.streetContribution, u))
  }

  /** The raise counter after a bet (reset) or a raise (one more). */
  function RaiseCount(t: Table): int
  {
    if t.currentBet == 0 then 0 else t.raisesThisStreet + 1
  }

  /**
   * `handleBet`: once the street has had its three raises a bet is a call. Otherwise the
   * standing bet rises by the bet unit or the amount asked, whichever is larger (an opening
   * bet when nothing stood, a raise otherwise); the seat pays up to it, and every other seat
   * still in the hand must act again.
   */
  function BetOutcome(t: Table, u: string, amount: int): (Option<ActionResult>, Table)
    requires u in t.players && u in t.order
  {
    if t.currentBet != 0 && t.raisesThisStreet >= MaxRaisesPerStreet then CallOutcome(t, u)
    else
      (Some(ActionResult(if t.currentBet == 0 then BET else RAISE, RaisePay(t, u, amount))),
       Acted(Reopen(Pay(Raised(t, u, RaiseTarget(t, amount), RaiseCount(t)), u, RaisePay(t, u, amount)), u), u))
  }

  /** Each step of a bet or raise keeps the invariants. */
  lemma RaiseStepsValid(t: Table, u: string, target: int, raises: int, pay: int)
    requires Valid(t) && u in t.players && 0 <= raises <= MaxRaisesPerStreet
    ensures Valid(Acted(Reopen(Pay(Raised(t, u, target, raises), u, pay), u), u))
  {
    var raised := Raised(t, u, target, raises);
    RaisedValid(t, u, target, raises);
    PayValid(raised, u, pay);
    PayKeeps(raised, u, pay);
    ReopenValid(Pay(raised, u, pay), u);
    ActedValid(Reopen(Pay(raised, u, pay), u), u);
  }

  /** A bet or raise keeps the invariants. */
  lemma BetValid(t: Table, u: string, amount: int)
    requires Valid(t) && u in t.players
    ensures Valid(BetOutcome(t, u, amount).1)
  {
    assert u in t.order;
    if t.currentBet != 0 && t.raisesThisStreet >= MaxRaisesPerStreet {
      CallSpec(t, u);
    } else {
      RaiseStepsValid(t, u, RaiseTarget(t, amount), RaiseCount(t), RaisePay(t, u, amount));
    }
  }

  /** Once three raises stand on the street, a bet is a call. */
  lemma BetCapped(t: Table, u: string, amount: int)
    requires Valid(t) && u in t.players
    requires t.currentBet != 0 && t.raisesThisStreet >= MaxRaisesPerStreet
    ensures BetOutcome(t, u, amount) == CallOutcome(t, u)
  {
  }

  /**
   * Below the cap a bet opens the street or raises it (never more than three raises): the
   * standing bet rises by the bet unit or the amount asked, whichever is larger.
   */
  lemma BetRaises(t: Table, u: string, amount: int)
    requires Valid(t) && u in t.players
    requires t.currentBet == 0 || t.raisesThisStreet < MaxRaisesPerStreet
    ensures BetOutcome(t, u, amount).0.Some?
    ensures BetOutcome(t, u, amount).0.value.kind == (if t.currentBet == 0 then BET else RAISE)
    ensures BetOutcome(t, u, amount).1.currentBet == t.currentBet + Max(BetUnit(t.stage, t.ante), amount)
    ensures BetOutcome(t, u, amount).1.raisesThisStreet == (if t.currentBet == 0 then 0 else t.raisesThisStreet + 1)
  {
    assert u in t.order;
    PayKeeps(Raised(t, u, RaiseTarget(t, amount), RaiseCount(t)), u, RaisePay(t, u, amount));
  }

  /** After a bet or raise the seat has put in the new standing bet this street, and the pot holds what it paid. */
  lemma BetPays(t: Table, u: string, amount: int)
    requires Valid(t) && u in t.players
    requires t.currentBet == 0 || t.raisesThisStreet < MaxRaisesPerStreet
    ensures StreetPaid(BetOutcome(t, u, amount).1.streetContribution, u) == RaiseTarget(t, amount)
    ensures BetOutcome(t, u, amount).1.pot == t.pot + BetOutcome(t, u, amount).0.value.paid
  {
    assert u in t.order;
    var raised := Raised(t, u, RaiseTarget(t, amount), RaiseCount(t));
    PayBalanced(raised, u, RaisePay(t, u, amount));
    PayKeeps(raised, u, RaisePay(t, u, amount));
  }

  /** After a bet or raise every other seat still in the hand owes an action again, and the bettor does not. */
  lemma BetReopens(t: Table, u: string, amount: int)
    requires Valid(t) && u in t.players
    requires t.currentBet == 0 || t.raisesThisStreet < MaxRaisesPerStreet
    ensures forall x :: x in BetOutcome(t, u, amount).1.pending <==> Active(t.players, x) && x != u
  {
    assert u in t.order;
    var raised := Raised(t, u, RaiseTarget(t, amount), RaiseCount(t));
    PayKeeps(raised, u, RaisePay(t, u, amount));
    ReopenSpec(Pay(raised, u, RaisePay(t, u, amount)), u);
  }

  /** The folding seat leaves the hand, owes nothing and loses its street entry. */
  function Folded(t: Table, u: string): Table
    requires u in t.players
  {
    t.(players := t.players[u := t.players[u].(folded := true)], pending := Without(t.pending, u),
       streetContribution := t.streetContribution - {u})
  }

  /** `handleFold` after the fold itself: when at most one seat is left, the hand is settled by fold. */
  function SettleIfAlone(t: Table): Table
  {
    if |ActiveIn(t.order, t.players)| <= 1 then FoldSettlement(t) else t
  }

  /** `handleFold`: the seat folds, and when at most one seat is left the hand is settled by fold. */
  function FoldOutcome(t: Table, u: string): (Option<ActionResult>, Table)
    requires u in t.players
  {
    (Some(ActionResult(FOLD, 0)), SettleIfAlone(Folded(t, u)))
  }

  /** Folding keeps the invariants and takes exactly the folding seat out of the hand. */
  lemma FoldedValid(t: Table, u: string)
    requires Valid(t) && u in t.players
    ensures Valid(Folded(t, u))
    ensures forall x :: Active(Folded(t, u).players, x) <==> Active(t.players, x) && x != u
  {
    FoldedSeats(t, u);
    FoldedSeated(t, u);
    FoldedAccounted(t, u);
  }

  /** A fold changes only the folding seat's `folded` flag: no chips move. */
  lemma FoldedSeats(t: Table, u: string)
    requires u in t.players
    ensures forall x :: x in Folded(t, u).players <==> x in t.players
    ensures forall x :: Active(Folded(t, u).players, x) <==> Active(t.players, x) && x != u
    ensures forall x :: x in t.players ==> Folded(t, u).players[x].contributed == t.players[x].contributed
    ensures forall x :: x in t.players && x != u ==> Folded(t, u).players[x] == t.players[x]
    ensures Paid(Folded(t, u).players) == Paid(t.players)
  {
    PaidSame(t.players, u, t.players[u].(folded := true));
  }

  lemma FoldedSeated(t: Table, u: string)
    requires Seated(t) && u in t.players
    ensures Seated(Folded(t, u))
  {
    FoldedSeats(t, u);
  }

  lemma FoldedAccounted(t: Table, u: string)
    requires Accounted(t) && u in t.players
    ensures Accounted(Folded(t, u))
  {
    FoldedSeats(t, u);
    AccountedFrom(t, Folded(t, u));
  }

  lemma SettleIfAloneValid(t: Table)
    requires Valid(t)
    ensures Valid(SettleIfAlone(t))
  {
    FoldSettlementSpec(t);
  }

  /** A fold keeps the invariants; if the hand goes on, the folding seat is out of it and owes nothing. */
  lemma FoldValid(t: Table, u: string)
    requires Valid(t) && u in t.players
    ensures FoldOutcome(t, u).0 == Some(ActionResult(FOLD, 0))
    ensures Valid(FoldOutcome(t, u).1)
    ensures FoldOutcome(t, u).1.inProgress ==> !Active(FoldOutcome(t, u).1.players, u) && u !in FoldOutcome(t, u).1.pending
  {
    FoldedValid(t, u);
    SettleIfAloneValid(Folded(t, u));
    FoldSettlementSpec(Folded(t, u));
  }

  /** Settling by fold with a single seat left in the hand makes that seat the only winner, paid the whole pot. */
  lemma SoleWinner(t: Table)
    requires |ActiveIn(t.order, t.players)| == 1
    ensures !SettleIfAlone(t).inProgress
    ensures SettleIfAlone(t).winners == ActiveIn(t.order, t.players)
    ensures SettleIfAlone(t).payouts == map[SettleIfAlone(t).winners[0] := t.pot]
    ensures MapSum(SettleIfAlone(t).payouts) == t.pot
  {
    FirstActiveIsHead(t.order, t.players);
    MapSumSingle(ActiveIn(t.order, t.players)[0], t.pot);
  }

  /** When a fold leaves a single seat in the hand, the hand ends and that seat wins the whole pot. */
  lemma FoldSpec(t: Table, u: string)
    requires Valid(t) && u in t.players
    ensures var t1 := Folded(t, u);
      t.inProgress && |ActiveIn(t1.order, t1.players)| == 1 ==>
        var t' := FoldOutcome(t, u).1;
        && !t'.inProgress
        && t'.winners == ActiveIn(t1.order, t1.players)
        && t'.payouts == map[t'.winners[0] := t.pot]
        && MapSum(t'.payouts) == t.pot
  {
    if t.inProgress && |ActiveIn(Folded(t, u).order, Folded(t, u).players)| == 1 {
      SoleWinner(Folded(t, u));
    }
  }

  // ---------------------------------------------------------------- turns and streets

  /** `advanceTurnFrom`: the turn passes to the next pending seat after index `start`, or to no one. */
  function TurnAfter(t: Table, start: int): Table
    requires 0 <= start < |t.order|
  {
    if !t.inProgress || t.pending == [] || NextSeat(t.order, t.pending, t.players, start) < 0 then t.(turn := None, turnIndex := -1)
    else t.(turnIndex := NextSeat(t.order, t.pending, t.players, start), turn := Some(t.order[NextSeat(t.order, t.pending, t.players, start)]))
  }

  /**
   * Passing the turn keeps the invariants, gives it to a seat that owes an action, and gives it
   * to someone whenever anyone still owes one.
   */
  lemma TurnAfterSpec(t: Table, start: int)
    requires Valid(t) && 0 <= start < |t.order|
    ensures Valid(TurnAfter(t, start)) && TurnPending(TurnAfter(t, start))
    ensures t.inProgress && t.pending != [] ==> TurnAfter(t, start).turn.Some?
  {
    NextSeatSpec(t.order, t.pending, t.players, start);
    if t.inProgress && t.pending != [] {
      assert t.pending[0] in t.pending;
      assert t.pending[0] in t.order;
      assert Eligible(t.order, t.pending, t.players, IndexOf(t.order, t.pending[0]));
    }
  }

  /** The table once the next street's card is out: one more card to every seat still in the hand. */
  function NextStreet(t: Table): Table
  {
    if 0 <= t.stage + 1 < StreetCount && DealsCard[t.stage + 1] then
      t.(stage := t.stage + 1,
         players := DealTo(t.players, t.order, t.deck, 1, true).0,
         deck := DealTo(t.players, t.order, t.deck, 1, true).1)
    else t.(stage := t.stage + 1)
  }

  /** Dealing a street's card to every seat in order changes no seat's chips or place in the hand, and gives each seat in the hand one card. */
  lemma DealStreetSeats(players: map<string, Side>, order: seq<string>, d: Deck)
    requires NoDup(order) && forall x :: x in players <==> x in order
    ensures var p := DealTo(players, order, d, 1, true).0;
      && (forall x :: x in p <==> x in players)
      && (forall x :: Active(p, x) <==> Active(players, x))
      && (forall x :: Active(p, x) ==> |p[x].cards| == |players[x].cards| + 1)
      && Paid(p) == Paid(players)
      && (forall x :: x in p ==> p[x].contributed == players[x].contributed)
  {
    var p := DealTo(players, order, d, 1, true).0;
    DealToSpec(players, order, d, 1, true);
    assert forall x :: x in p ==> p[x].contributed == players[x].contributed && p[x].folded == players[x].folded by {
      forall x | x in p
        ensures p[x].contributed == players[x].contributed && p[x].folded == players[x].folded
      {
        assert p[x].(cards := players[x].cards) == players[x];
      }
    }
    assert Contributions(p) == Contributions(players);
  }

  /** Every street after the first deals a card. */
  lemma StreetDeals(i: int)
    requires 1 <= i < StreetCount
    ensures DealsCard[i]
  {
  }

  /**
   * Moving to the next street with seats that keep their chips and place in the hand, each seat
   * in the hand holding one card more, keeps the invariants.
   */
  lemma DealtStreetValid(t: Table, p: map<string, Side>, d: Deck)
    requires Valid(t) && t.inProgress && 0 <= t.stage < StreetCount - 1
    requires forall x :: x in p <==> x in t.players
    requires forall x :: Active(p, x) <==> Active(t.players, x)
    requires forall x :: Active(p, x) ==> |p[x].cards| == |t.players[x].cards| + 1
    requires Paid(p) == Paid(t.players)
    requires forall x :: x in p ==> p[x].contributed == t.players[x].contributed
    ensures Valid(t.(stage := t.stage + 1, players := p, deck := d))
  {
  }

  /** On a street before the last, the next street deals one card to every seat still in the hand, in seat order. */
  lemma NextStreetIs(t: Table)
    requires 0 <= t.stage < StreetCount - 1
    ensures NextStreet(t) == t.(stage := t.stage + 1, players := DealTo(t.players, t.order, t.deck, 1, true).0,
                                deck := DealTo(t.players, t.order, t.deck, 1, true).1)
  {
    StreetDeals(t.stage + 1);
  }

  lemma NextStreetDealtValid(t: Table)
    requires Valid(t) && t.inProgress && t.stage < StreetCount - 1
    ensures Valid(t.(stage := t.stage + 1, players := DealTo(t.players, t.order, t.deck, 1, true).0,
                     deck := DealTo(t.players, t.order, t.deck, 1, true).1))
  {
    DealStreetSeats(t.players, t.order, t.deck);
    DealtStreetValid(t, DealTo(t.players, t.order, t.deck, 1, true).0, DealTo(t.players, t.order, t.deck, 1, true).1);
  }

  /** Dealing the next street keeps the invariants of a hand on a street before the last. */
  lemma NextStreetValid(t: Table)
    requires Valid(t) && t.inProgress && t.stage < StreetCount - 1
    ensures Valid(NextStreet(t))
  {
    NextStreetIs(t);
    NextStreetDealtValid(t);
  }

  /**
   * `advanceStreetOrFinish`: nothing once the hand is over; settlement by fold when at most one
   * seat is left; the showdown after the last street; otherwise the next street's card and a
   * new street opened at its lead.
   */
  ghost predicate Advanced(t: Table, t': Table)
  {
    if !t.inProgress then t' == t
    else if |ActiveIn(t.order, t.players)| <= 1 then t' == FoldSettlement(t)
    else if t.stage >= StreetCount - 1 then ShowdownOutcome(t, t')
    else
      var t1 := NextStreet(t);
      && IsLead(t1.order, t1.players, t1.stage, t'.turnIndex)
      && t' == Opened(t1, t'.turnIndex)
  }

  /** Closing a street keeps the invariants and leaves the turn with a seat that owes an action. */
  lemma AdvancedSpec(t: Table, t': Table)
    requires Valid(t) && Advanced(t, t')
    ensures Valid(t') && TurnPending(t')
  {
    if !t.inProgress {
    } else if |ActiveIn(t.order, t.players)| <= 1 {
      FoldSettlementSpec(t);
    } else if t.stage >= StreetCount - 1 {
      ShowdownValid(t, t');
    } else {
      NextStreetOpened(t, t'.turnIndex);
    }
  }

  /** Opening the next street keeps the invariants and gives the turn to its lead. */
  lemma NextStreetOpened(t: Table, lead: int)
    requires Valid(t) && t.inProgress && t.stage < StreetCount - 1
    requires IsLead(NextStreet(t).order, NextStreet(t).players, NextStreet(t).stage, lead)
    ensures Valid(Opened(NextStreet(t), lead)) && TurnPending(Opened(NextStreet(t), lead))
  {
    NextStreetValid(t);
    OpenedSpec(NextStreet(t), lead);
  }
}
