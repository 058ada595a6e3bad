/**
 * The rules `SevenPokerGame` applies to its table, stated on `Table` values: the invariants
 * every operation keeps, bet sizing, the pot, who must act after a bet or raise, settling a
 * hand that everyone but one seat folded, splitting the pot at showdown, and seating.
 */
module SevenRules {
  import opened Text
  import opened Wrappers
  import opened Collections
  import opened Arith
  import opened PokerScore
  import opened ServerCard
  import opened ServerPoker
  import opened SevenTable
  import opened SevenLead

  function Max(a: int, b: int): int { if a > b then a else b }

  // ---------------------------------------------------------------- invariants

  /**
   * Seats: every seat is listed once in `order` and is a key of `players`; `pending` holds
   * seats still in the hand, once each; the raise counter is within its limit; a turn, when
   * there is one, names the seat at `turnIndex` of a hand in progress.
   */
  ghost predicate Seated(t: Table)
  {
    && NoDup(t.order)
    && (forall u :: u in t.players <==> u in t.order)
    && NoDup(t.pending)
    && (forall u :: u in t.pending ==> Active(t.players, u))
    && 0 <= t.raisesThisStreet <= MaxRaisesPerStreet
    && (t.turn.None? <==> t.turnIndex == -1)
    && (t.turn.Some? ==> t.inProgress && 0 <= t.turnIndex < |t.order| && t.order[t.turnIndex] == t.turn.value)
  }

  /**
   * Chips: the pot is never negative, holds everything paid while the hand runs, and `bets`
   * mirrors `contributed`; a settled hand pays out exactly the settled pot.
   */
  ghost predicate Accounted(t: Table)
  {
    && t.pot >= 0
    && (t.inProgress ==> t.pot == Paid(t.players) && t.winners == [])
    && (t.winners != [] ==> MapSum(t.payouts) == t.settledPot)
    && (forall u :: u in t.players ==> u in t.bets && t.bets[u] == t.players[u].contributed)
  }

  /** Cards: while the hand runs, every seat still in it holds three cards plus one per street. */
  ghost predicate Dealt(t: Table)
  {
    t.inProgress ==> 0 <= t.stage < StreetCount && forall u :: Active(t.players, u) ==> |t.players[u].cards| == 3 + t.stage
  }

  ghost predicate Valid(t: Table)
  {
    Seated(t) && Accounted(t) && Dealt(t)
  }

  /** The invariants hold of a table equal to one of which they hold. */
  lemma ValidSame(t: Table, t': Table)
    requires Valid(t) && t == t'
    ensures Valid(t')
  {
  }

  /** The chips invariant holds of a table with the same pot, bets, settlement and chips paid per seat. */
  lemma AccountedFrom(t: Table, t': Table)
    requires Accounted(t)
    requires t'.pot == t.pot && t'.inProgress == t.inProgress && t'.bets == t.bets
    requires t'.winners == t.winners && t'.payouts == t.payouts && t'.settledPot == t.settledPot
    requires forall x :: x in t'.players <==> x in t.players
    requires forall x :: x in t.players ==> t'.players[x].contributed == t.players[x].contributed
    requires Paid(t'.players) == Paid(t.players)
    ensures Accounted(t')
  {
  }

  /** The seats invariant holds of a table with the same seats, each as much in the hand, and the same turn. */
  lemma SeatedFrom(t: Table, t': Table)
    requires Seated(t)
    requires t'.order == t.order && t'.pending == t.pending && t'.raisesThisStreet == t.raisesThisStreet
    requires t'.turn == t.turn && t'.turnIndex == t.turnIndex && t'.inProgress == t.inProgress
    requires forall x :: x in t'.players <==> x in t.players
    requires forall x :: Active(t'.players, x) <==> Active(t.players, x)
    ensures Seated(t')
  {
  }

  /** The turn, when there is one, belongs to a seat that still has to act. */
  ghost predicate TurnPending(t: Table)
  {
    t.turn.Some? ==> t.turn.value in t.pending && Active(t.players, t.turn.value)
  }

  // ---------------------------------------------------------------- betting

  /**
   * `streetBetUnit`: the ante before the first street, otherwise max(10, ante) times the
   * street's multiplier, streets past the last counting as the last.
   */
  function BetUnit(stage: int, ante: int): (u: int)
    ensures stage < 0 ==> u == ante
    ensures 0 <= stage <= 1 ==> u == Max(10, ante)
    ensures stage >= 2 ==> u == 2 * Max(10, ante)
    ensures stage >= 0 ==> u >= 10
  {
    if stage < 0 then ante else Max(10, ante) * Multipliers[Min(stage, StreetCount - 1)]
  }

  /** `neededToCall`: what the seat must add to match the standing bet, never negative. */
  function NeededToCall(currentBet: int, sc: map<string, int>, u: string): (r: int)
    ensures r >= 0
    ensures r == 0 <==> currentBet == 0 || StreetPaid(sc, u) >= currentBet
    ensures r > 0 ==> StreetPaid(sc, u) + r == currentBet
  {
    if currentBet == 0 then 0 else Max(0, currentBet - StreetPaid(sc, u))
  }

  /** `contribute`: a positive amount goes into the pot and onto the seat's `contributed` and `bets`. */
  function Pay(t: Table, u: string, amount: int): Table
    requires u in t.players
  {
    if amount <= 0 then t
    else
      var c := t.players[u].contributed + amount;
      t.(pot := t.pot + amount, players := t.players[u := t.players[u].(contributed := c)], bets := t.bets[u := c])
  }

  /** Paying moves the pot and the seats' total together. */
  lemma PayBalanced(t: Table, u: string, amount: int)
    requires u in t.players
    ensures Paid(Pay(t, u, amount).players) - Pay(t, u, amount).pot == Paid(t.players) - t.pot
    ensures Pay(t, u, amount).pot == t.pot + Max(0, amount)
  {
    if amount > 0 {
      PaidAdd(t.players, u, amount);
    }
  }

  /** Paying changes no seat's place in the hand, nor the street's betting state. */
  lemma PayKeeps(t: Table, u: string, amount: int)
    requires u in t.players
    ensures forall x :: Active(Pay(t, u, amount).players, x) <==> Active(t.players, x)
    ensures Pay(t, u, amount).order == t.order && Pay(t, u, amount).pending == t.pending
    ensures Pay(t, u, amount).streetContribution == t.streetContribution && Pay(t, u, amount).currentBet == t.currentBet
    ensures Pay(t, u, amount).raisesThisStreet == t.raisesThisStreet
  {
  }

  /** Paying keeps every invariant. */
  lemma PayValid(t: Table, u: string, amount: int)
    requires Valid(t) && u in t.players
    ensures Valid(Pay(t, u, amount))
  {
    PaySeated(t, u, amount);
    PayAccounted(t, u, amount);
    PayDealt(t, u, amount);
  }

  lemma PaySeated(t: Table, u: string, amount: int)
    requires Seated(t) && u in t.players
    ensures Seated(Pay(t, u, amount))
  {
    if amount > 0 {
      var t' := Pay(t, u, amount);
      assert forall x :: Active(t'.players, x) <==> Active(t.players, x);
    }
  }

  lemma PayAccounted(t: Table, u: string, amount: int)
    requires Accounted(t) && u in t.players
    ensures Accounted(Pay(t, u, amount))
  {
    if amount > 0 {
      PaidAdd(t.players, u, amount);
    }
  }

  lemma PayDealt(t: Table, u: string, amount: int)
    requires Dealt(t) && u in t.players
    ensures Dealt(Pay(t, u, amount))
  {
    if amount > 0 {
      var t' := Pay(t, u, amount);
      assert forall x :: Active(t'.players, x) <==> Active(t.players, x);
    }
  }

  /** Changing only the street's betting state keeps the invariants when the pending seats are in the hand, once each. */
  lemma StreetStateValid(t: Table, pending: seq<string>, sc: map<string, int>, currentBet: int, raises: int)
    requires Valid(t)
    requires NoDup(pending) && (forall x :: x in pending ==> Active(t.players, x))
    requires 0 <= raises <= MaxRaisesPerStreet
    ensures Valid(t.(pending := pending, streetContribution := sc, currentBet := currentBet, raisesThisStreet := raises))
  {
  }

  /** The seats visited after index `i` by `resetPendingAfterAggressiveAction`: all but seat `i`, cyclically. */
  function Others(order: seq<string>, i: int): (r: seq<string>)
    requires 0 <= i < |order|
    ensures |r| == |order| - 1
  {
    order[i + 1..] + order[..i]
  }

  lemma OthersIndex(order: seq<string>, i: int, k: int)
    requires 0 <= i < |order| && 0 <= k < |order| - 1
    ensures Others(order, i)[k] == order[(i + k + 1) % |order|]
  {
    var n, x := |order|, i + k + 1;
    if x < n {
      ModSmall(x, n);
      assert Others(order, i)[k] == order[i + 1..][k];
    } else {
      ModWrap(x, n);
      assert Others(order, i)[k] == order[..i][x - n];
    }
  }

  /** Without repeats, the other seats are exactly the seats other than seat `i`, once each. */
  lemma OthersSpec(order: seq<string>, i: int)
    requires NoDup(order) && 0 <= i < |order|
    ensures forall x :: x in Others(order, i) <==> x in order && x != order[i]
    ensures NoDup(Others(order, i))
  {
    assert order == order[..i] + [order[i]] + order[i + 1..];
    forall x | x in Others(order, i)
      ensures x != order[i]
    {
      if x in order[i + 1..] {
        var j :| 0 <= j < |order[i + 1..]| && order[i + 1..][j] == x;
        assert order[i + 1 + j] == x;
      } else {
        var j :| 0 <= j < i && order[j] == x;
      }
    }
    forall a, b | 0 <= a < b < |Others(order, i)|
      ensures Others(order, i)[a] != Others(order, i)[b]
    {
      OthersIndex(order, i, a);
      OthersIndex(order, i, b);
      var n := |order|;
      var ia, ib := (i + a + 1) % n, (i + b + 1) % n;
      assert ia != ib by {
        assert (i + a + 1 < n && ia == i + a + 1) || (i + a + 1 >= n && ia == i + a + 1 - n);
        assert (i + b + 1 < n && ib == i + b + 1) || (i + b + 1 >= n && ib == i + b + 1 - n);
      }
    }
  }

  /** `putIfAbsent(uid, 0)` for every seat of `p`. */
  function ZeroFill(sc: map<string, int>, p: seq<string>): (r: map<string, int>)
    ensures forall x :: x in r <==> x in sc || x in p
    ensures forall x :: StreetPaid(r, x) == StreetPaid(sc, x)
  {
    map x | x in sc.Keys + (set y | y in p) :: StreetPaid(sc, x)
  }

  /**
   * `resetPendingAfterAggressiveAction`: every other seat still in the hand must act again, in
   * seat order starting after the aggressor, and gets a street entry of 0 if it had none.
   */
  function Reopen(t: Table, u: string): Table
    requires u in t.order
  {
    var p := ActiveIn(Others(t.order, IndexOf(t.order, u)), t.players);
    t.(pending := p, streetContribution := ZeroFill(t.streetContribution, p))
  }

  /** After a bet or raise, the seats owed an action are exactly the other seats still in the hand. */
  lemma ReopenSpec(t: Table, u: string)
    requires Seated(t) && u in t.order
    ensures forall x :: x in Reopen(t, u).pending <==> Active(t.players, x) && x != u
    ensures NoDup(Reopen(t, u).pending)
    ensures Seated(Reopen(t, u))
  {
    var i := IndexOf(t.order, u);
    OthersSpec(t.order, i);
    ActiveInSpec(Others(t.order, i), t.players);
  }

  /** `isStreetComplete`. */
  predicate StreetComplete(t: Table)
  {
    !t.inProgress || (t.pending == [] && (t.currentBet == 0 ||
      forall u :: u in t.order && Active(t.players, u) ==> StreetPaid(t.streetContribution, u) >= t.currentBet))
  }

  // ---------------------------------------------------------------- streets

  /** The lead score of the seat at index `i`. */
  function SeatLead(order: seq<string>, players: map<string, Side>, stage: int, i: int): LeadScore
    requires 0 <= i < |order| && order[i] in players
  {
    Lead(players[order[i]].cards, stage)
  }

  /**
   * `findLeadIndex`: -1 when no seat is still in the hand; otherwise a seat in the hand whose
   * lead score no seat beats, and every seat before it scores strictly lower (the first such seat).
   */
  ghost predicate IsLead(order: seq<string>, players: map<string, Side>, stage: int, idx: int)
  {
    && -1 <= idx < |order|
    && (idx == -1 <==> forall i :: 0 <= i < |order| ==> !Active(players, order[i]))
    && (idx >= 0 ==>
         && Active(players, order[idx])
         && (forall i :: 0 <= i < |order| && Active(players, order[i]) ==>
               LeadCompare(SeatLead(order, players, stage, i), SeatLead(order, players, stage, idx)) <= 0)
         && (forall i :: 0 <= i < idx && Active(players, order[i]) ==>
               LeadCompare(SeatLead(order, players, stage, i), SeatLead(order, players, stage, idx)) < 0))
  }

  /** There is only one lead seat. */
  lemma IsLeadUnique(order: seq<string>, players: map<string, Side>, stage: int, a: int, b: int)
    requires IsLead(order, players, stage, a) && IsLead(order, players, stage, b)
    ensures a == b
  {
    if a >= 0 && b >= 0 && a != b {
      LeadCompareAntisymmetric(SeatLead(order, players, stage, a), SeatLead(order, players, stage, b));
    }
  }

  /** `startStreet` once the lead is known: no bet, and every seat still in the hand pending from the lead on. */
  function Opened(t: Table, lead: int): Table
    requires -1 <= lead < |t.order|
  {
    var p := if lead < 0 then [] else ActiveIn(Rotate(t.order, lead), t.players);
    t.(currentBet := 0, raisesThisStreet := 0, streetContribution := map x | x in p :: 0, pending := p,
       turnIndex := lead, turn := if lead < 0 then None else Some(t.order[lead]))
  }

  /** Starting from a seat still in the hand, the rotation's seats in the hand are all of them, once each, that seat first. */
  lemma RotatedActive(order: seq<string>, players: map<string, Side>, lead: int)
    requires NoDup(order) && 0 <= lead < |order| && Active(players, order[lead])
    ensures var p := ActiveIn(Rotate(order, lead), players);
      && NoDup(p) && p != [] && p[0] == order[lead]
      && forall x :: x in p <==> x in order && Active(players, x)
  {
    RotateSame(order, lead);
    ActiveInSpec(Rotate(order, lead), players);
    assert Rotate(order, lead) == [order[lead]] + (order[lead + 1..] + order[..lead]);
    ActiveInCons(order[lead], order[lead + 1..] + order[..lead], players);
  }

  /** A street opened at the lead owes an action to every seat in the hand. */
  lemma OpenedPending(t: Table, lead: int)
    requires Seated(t) && IsLead(t.order, t.players, t.stage, lead)
    ensures forall x :: x in Opened(t, lead).pending <==> Active(t.players, x)
    ensures NoDup(Opened(t, lead).pending)
  {
    if lead >= 0 {
      RotatedActive(t.order, t.players, lead);
    } else {
      forall x | x in t.order
        ensures !Active(t.players, x)
      {
        var i := IndexOf(t.order, x);
      }
    }
  }

  /** Opening a street keeps the invariants and gives the lead the turn, which it owes. */
  lemma OpenedSpec(t: Table, lead: int)
    requires Valid(t) && t.inProgress && IsLead(t.order, t.players, t.stage, lead)
    ensures Valid(Opened(t, lead)) && TurnPending(Opened(t, lead))
  {
    OpenedPending(t, lead);
    if lead >= 0 {
      RotatedActive(t.order, t.players, lead);
    }
  }

  // ---------------------------------------------------------------- settling by fold

  /** The seats after `settleByFold`: the winner takes `pot`, every other seat is paid 0. */
  function FoldPayouts(players: map<string, Side>, w: string, pot: int): map<string, Side>
  {
    map u | u in players :: if u == w then players[u].(winner := true, payout := Some(pot)) else players[u].(payout := Some(0))
  }

  /**
   * `settleByFold`: the first seat in order still in the hand wins the whole pot, and the hand
   * ends at stage 5; with no seat left the hand just ends.
   */
  function FoldSettlement(t: Table): Table
  {
    match FirstActive(t.order, t.players)
    case None => t.(inProgress := false, turn := None, turnIndex := -1, stage := StreetCount)
    case Some(w) =>
      t.(players := FoldPayouts(t.players, w, t.pot), winners := [w], payouts := map[w := t.pot], settledPot := t.pot,
         pot := 0, inProgress := false, turn := None, turnIndex := -1, pending := [], stage := StreetCount)
  }

  lemma MapSumSingle(k: string, v: int)
    ensures MapSum(map[k := v]) == v
  {
    MapSumUpdate(map[], k, v);
  }

  /**
   * Settling by fold keeps the invariants and pays the single winner exactly what everyone
   * paid in: the payouts sum to the settled pot, which is the whole of it.
   */
  lemma FoldSettlementSpec(t: Table)
    requires Valid(t)
    ensures Valid(FoldSettlement(t)) && !FoldSettlement(t).inProgress
    ensures FirstActive(t.order, t.players).Some? ==>
      && MapSum(FoldSettlement(t).payouts) == FoldSettlement(t).settledPot == t.pot
      && FoldSettlement(t).pot == 0
      && (t.inProgress ==> MapSum(FoldSettlement(t).payouts) == Paid(t.players))
  {
    var t' := FoldSettlement(t);
    match FirstActive(t.order, t.players)
    case None =>
      assert Seated(t');
    case Some(w) =>
      MapSumSingle(w, t.pot);
      assert t'.players == FoldPayouts(t.players, w, t.pot);
      FoldPayoutsKeep(t.players, w, t.pot);
      EndedValid(t, t');
  }

  /** Paying out by fold keeps every seat and what each paid in. */
  lemma FoldPayoutsKeep(players: map<string, Side>, w: string, pot: int)
    ensures var p := FoldPayouts(players, w, pot);
      && (forall x :: x in p <==> x in players)
      && (forall x :: x in players ==> p[x].contributed == players[x].contributed)
  {
  }

  // ---------------------------------------------------------------- showdown

  /** Scores for every contender, each the best five-card score of that seat's cards. */
  ghost predicate Scored(players: map<string, Side>, cs: seq<string>, scores: map<string, HandScore>)
  {
    forall u :: u in cs ==> u in players && u in scores && IsBestScore(players[u].cards, scores[u])
  }

  /** No contender scores above `u`. */
  predicate Top(cs: seq<string>, scores: map<string, HandScore>, u: string)
  {
    u in scores && forall v :: v in cs && v in scores ==> Compare(scores[v], scores[u]) <= 0
  }

  /** The showdown winners: the contenders no contender beats, in seat order. */
  function Winners(cs: seq<string>, scores: map<string, HandScore>): seq<string>
  {
    Tied(cs, cs, scores)
  }

  function Tied(us: seq<string>, cs: seq<string>, scores: map<string, HandScore>): seq<string>
  {
    if us == [] then []
    else Tied(us[..|us| - 1], cs, scores) + (if Top(cs, scores, us[|us| - 1]) then [us[|us| - 1]] else [])
  }

  lemma {:induction false} TiedSpec(us: seq<string>, cs: seq<string>, scores: map<string, HandScore>)
    ensures forall x :: x in Tied(us, cs, scores) <==> x in us && Top(cs, scores, x)
    ensures NoDup(us) ==> NoDup(Tied(us, cs, scores))
  {
    if us != [] {
      var init := us[..|us| - 1];
      assert us == init + [us[|us| - 1]];
      TiedSpec(init, cs, scores);
      if NoDup(us) {
        assert NoDup(init);
        assert us[|us| - 1] !in init;
      }
    }
  }

  /** The share of the `i`-th of `w` winners: `pot / w`, one more for the first `pot % w`. */
  function Share(pot: int, w: int, i: int): int
    requires w > 0
  {
    Div(pot, w) + (if i < Rem(pot, w) then 1 else 0)
  }

  /** `payouts` after the distribution loop over the first winners. */
  function Payouts(ws: seq<string>, pot: int, w: int): map<string, int>
    requires w > 0
  {
    if ws == [] then map[] else Payouts(ws[..|ws| - 1], pot, w)[ws[|ws| - 1] := Share(pot, w, |ws| - 1)]
  }

  /** The first `k` winners, and no one else, have a payout. */
  lemma {:induction false} PayoutsKeys(ws: seq<string>, pot: int, w: int)
    requires w > 0
    ensures Payouts(ws, pot, w).Keys == set u | u in ws
  {
    if ws != [] {
      var init := ws[..|ws| - 1];
      assert ws == init + [ws[|ws| - 1]];
      PayoutsKeys(init, pot, w);
    }
  }

  /** Each of distinct winners is paid the share of its own position. */
  lemma {:induction false} PayoutsAt(ws: seq<string>, pot: int, w: int)
    requires NoDup(ws) && w > 0
    ensures forall i :: 0 <= i < |ws| ==> ws[i] in Payouts(ws, pot, w) && Payouts(ws, pot, w)[ws[i]] == Share(pot, w, i)
  {
    if ws != [] {
      var init := ws[..|ws| - 1];
      assert NoDup(init);
      PayoutsAt(init, pot, w);
      forall i | 0 <= i < |init|
        ensures ws[i] != ws[|ws| - 1] && ws[i] == init[i]
      {
      }
    }
  }

  /** Paying the first `k` of distinct winners hands out `k` shares plus one chip to each of those among the first `pot % w`. */
  lemma {:induction false} PayoutsSum(ws: seq<string>, pot: int, w: int)
    requires NoDup(ws) && w > 0 && pot >= 0
    ensures MapSum(Payouts(ws, pot, w)) == |ws| * Div(pot, w) + Min(|ws|, Rem(pot, w))
  {
    if ws != [] {
      var init := ws[..|ws| - 1];
      var u := ws[|ws| - 1];
      var k, d, r := |init|, Div(pot, w), Rem(pot, w);
      var m := Payouts(init, pot, w);
      NoDupInit(ws);
      PayoutsSum(init, pot, w);
      PayoutsKeys(init, pot, w);
      DivBounds(pot, w);
      assert u !in m;
      assert Payouts(ws, pot, w) == m[u := Share(pot, w, k)];
      MapSumUpdate(m, u, Share(pot, w, k));
      calc {
        MapSum(Payouts(ws, pot, w));
        MapSum(m) + Share(pot, w, k);
        k * d + Min(k, r) + d + (if k < r then 1 else 0);
        { ShareStep(k, d, r); }
        (k + 1) * d + Min(k + 1, r);
      }
      assert |ws| == k + 1;
    }
  }

  lemma NoDupInit(ws: seq<string>)
    requires NoDup(ws) && ws != []
    ensures NoDup(ws[..|ws| - 1]) && ws[|ws| - 1] !in ws[..|ws| - 1]
  {
    var init := ws[..|ws| - 1];
    forall j | 0 <= j < |init|
      ensures init[j] != ws[|ws| - 1]
    {
      assert init[j] == ws[j];
    }
  }

  lemma ShareStep(k: int, d: int, r: int)
    ensures (k + 1) * d + Min(k + 1, r) == k * d + Min(k, r) + d + (if k < r then 1 else 0)
  {
  }

  /** Split among all `w` winners, the payouts add up to the pot. */
  lemma PayoutsSumToPot(ws: seq<string>, pot: int)
    requires NoDup(ws) && |ws| > 0 && pot >= 0
    ensures MapSum(Payouts(ws, pot, |ws|)) == pot
  {
    PayoutsSum(ws, pot, |ws|);
    DivBounds(pot, |ws|);
    assert Min(|ws|, Rem(pot, |ws|)) == Rem(pot, |ws|);
  }

  /**
   * The seats after `resolveShowdown`: contenders record their score, winners are flagged and
   * paid their share, the other contenders are paid 0, and no folded seat is a winner.
   */
  function ShowdownSeats(players: map<string, Side>, cs: seq<string>, ws: seq<string>,
                         scores: map<string, HandScore>, payouts: map<string, int>): map<string, Side>
  {
    map u | u in players ::
      var p := if u in cs && u in scores then players[u].(showdownScore := Some(scores[u])) else players[u];
      if u in ws && u in payouts then p.(winner := true, payout := Some(payouts[u]))
      else if u in cs then p.(winner := false, payout := Some(0))
      else p.(winner := false)
  }

  /**
   * `resolveShowdown` when some seat is still in the hand: the contenders are the seats in the
   * hand in seat order, each gets the best five-card score of its cards, the winners are the
   * contenders no one beats, they split the pot, and the hand ends at stage 5.
   */
  ghost predicate ShowdownOutcome(t: Table, t': Table)
  {
    var cs := ActiveIn(t.order, t.players);
    && (forall u :: u in t'.showdownScores <==> u in cs)
    && Scored(t.players, cs, t'.showdownScores)
    && t'.winners == Winners(cs, t'.showdownScores)
    && t'.winners != []
    && t'.payouts == Payouts(t'.winners, t.pot, |t'.winners|)
    && t' == t.(players := ShowdownSeats(t.players, cs, t'.winners, t'.showdownScores, t'.payouts),
                showdownScores := t'.showdownScores, winners := t'.winners, payouts := t'.payouts,
                settledPot := t.pot, pot := 0, inProgress := false, stage := StreetCount,
                turn := None, turnIndex := -1, pending := [])
  }

  /**
   * At showdown the winners are exactly the contenders whose best-of-seven score no contender
   * beats, that is, equals the highest one; each appears once.
   */
  lemma ShowdownWinners(t: Table, t': Table)
    requires Seated(t) && ShowdownOutcome(t, t')
    ensures var cs := ActiveIn(t.order, t.players);
      && (forall u :: u in t'.winners <==> u in cs && Top(cs, t'.showdownScores, u))
      && NoDup(t'.winners)
  {
    var cs := ActiveIn(t.order, t.players);
    ActiveInSpec(t.order, t.players);
    TiedSpec(cs, cs, t'.showdownScores);
  }

  /** The winners split the pot: the payouts add up to it, the `i`-th winner getting the `i`-th share. */
  lemma ShowdownPayouts(t: Table, t': Table)
    requires Valid(t) && ShowdownOutcome(t, t')
    ensures MapSum(t'.payouts) == t.pot
    ensures forall i :: 0 <= i < |t'.winners| ==> t'.winners[i] in t'.payouts && t'.payouts[t'.winners[i]] == Share(t.pot, |t'.winners|, i)
  {
    ShowdownWinners(t, t');
    PayoutsAt(t'.winners, t.pot, |t'.winners|);
    PayoutsSumToPot(t'.winners, t.pot);
  }

  /** Settling the showdown changes no seat's chips and seats no one new. */
  lemma ShowdownSeatsKeep(players: map<string, Side>, cs: seq<string>, ws: seq<string>,
                          scores: map<string, HandScore>, payouts: map<string, int>)
    ensures forall x :: x in ShowdownSeats(players, cs, ws, scores, payouts) <==> x in players
    ensures forall x :: x in players ==> ShowdownSeats(players, cs, ws, scores, payouts)[x].contributed == players[x].contributed
  {
  }

  /** A hand that ends with the same seats, the same chips paid and nobody owed an action keeps the invariants. */
  lemma EndedValid(t: Table, t': Table)
    requires Valid(t)
    requires t'.order == t.order && t'.bets == t.bets && t'.pending == [] && t'.turn == None && t'.turnIndex == -1
    requires t'.raisesThisStreet == t.raisesThisStreet && !t'.inProgress && t'.pot == 0
    requires forall x :: x in t'.players <==> x in t.players
    requires forall x :: x in t.players ==> t'.players[x].contributed == t.players[x].contributed
    requires t'.winners != [] ==> MapSum(t'.payouts) == t'.settledPot
    ensures Valid(t')
  {
  }

  /** A showdown ends the hand with every invariant kept. */
  lemma ShowdownValid(t: Table, t': Table)
    requires Valid(t) && ShowdownOutcome(t, t')
    ensures Valid(t') && !t'.inProgress && t'.pot == 0 && t'.settledPot == t.pot
  {
    var cs := ActiveIn(t.order, t.players);
    ShowdownSeatsKeep(t.players, cs, t'.winners, t'.showdownScores, t'.payouts);
    ShowdownPayouts(t, t');
    EndedValid(t, t');
  }

  // ---------------------------------------------------------------- seating

  /** `String.trim` on the front: drop leading characters up to the space. */
  function TrimStart(s: string): (r: string)
    ensures |r| <= |s| && r == s[|s| - |r|..]
    ensures r == [] || r[0] > ' '
    ensures forall i :: 0 <= i < |s| - |r| ==> s[i] <= ' '
  {
    if s != [] && s[0] <= ' ' then TrimStart(s[1..]) else s
  }

  /** `String.trim` on the back. */
  function TrimEnd(s: string): (r: string)
    ensures |r| <= |s| && r == s[..|r|]
    ensures r == [] || r[|r| - 1] > ' '
    ensures forall i :: |r| <= i < |s| ==> s[i] <= ' '
  {
    if s != [] && s[|s| - 1] <= ' ' then TrimEnd(s[..|s| - 1]) else s
  }

  function Trim(s: string): string
  {
    TrimEnd(TrimStart(s))
  }

  predicate InfixAt(s: string, t: string, i: int)
  {
    0 <= i <= |s| - |t| && s[i..i + |t|] == t
  }

  predicate HasInfix(s: string, t: string)
  {
    exists i | 0 <= i <= |s| - |t| :: InfixAt(s, t, i)
  }

  predicate HasSuffix(s: string, t: string)
  {
    |t| <= |s| && s[|s| - |t|..] == t
  }

  /** `isAiUser`: the upper-cased id contains "_AI", starts with "AI_" or ends with "AI". */
  predicate IsAiUser(u: string)
  {
    var up := UpperAll(u);
    HasInfix(up, "_AI") || HasPrefix(up, "AI_") || HasSuffix(up, "AI")
  }

  /** Bot ids are recognised in any case. */
  lemma AiUserExamples()
    ensures IsAiUser("ai_1") && IsAiUser("dealer_AI") && IsAiUser("AI")
  {
    assert UpperAll("ai_1")[..3] == "AI_";
    assert UpperAll("dealer_AI") == "DEALER_AI";
    assert InfixAt("DEALER_AI", "_AI", 6);
    assert UpperAll("AI") == "AI";
  }

  /** An id counts as a bot only by those three patterns; a human id that merely ends in "ai" is one. */
  lemma AiUserNonExamples()
    ensures IsAiUser("kai")
    ensures !IsAiUser("alice")
  {
    assert UpperAll("kai") == "KAI";
    assert UpperAll("alice") == "ALICE";
    forall i | 0 <= i <= 2
      ensures !InfixAt("ALICE", "_AI", i)
    {
      assert "ALICE"[i] != '_';
    }
    assert !HasPrefix("ALICE", "AI_") by {
      assert "ALICE"[1] != "AI_"[1];
    }
    assert !HasSuffix("ALICE", "AI") by {
      assert "ALICE"[4] != "AI"[1];
    }
  }

  /** The ids `start` seats, in order: trimmed, empty ones skipped, and each id once (its first occurrence). */
  function SeatOrder(users: seq<string>): seq<string>
  {
    if users == [] then []
    else
      var o := SeatOrder(users[..|users| - 1]);
      var u := Trim(users[|users| - 1]);
      if u == [] || u in o then o else o + [u]
  }

  /** The same, as the source writes it: a repeated id is appended to `order` again. */
  function SeatOrderAsWritten(users: seq<string>): seq<string>
  {
    if users == [] then []
    else
      var o := SeatOrderAsWritten(users[..|users| - 1]);
      var u := Trim(users[|users| - 1]);
      if u == [] then o else o + [u]
  }

  /** Seating lists each id once and lists the same ids as the source's `order`. */
  lemma {:induction false} SeatOrderSpec(users: seq<string>)
    ensures NoDup(SeatOrder(users))
    ensures forall u :: u in SeatOrder(users) <==> u in SeatOrderAsWritten(users)
    ensures forall u :: u in SeatOrder(users) ==> u != []
  {
    if users != [] {
      var init := users[..|users| - 1];
      SeatOrderSpec(init);
      var o, u := SeatOrder(init), Trim(users[|users| - 1]);
      if u != [] && u !in o {
        NoDupSnoc(o, u);
      }
    }
  }

  /** Ids with no blank around them are kept as they are. */
  lemma TrimPlain(u: string)
    requires u != [] && u[0] > ' ' && u[|u| - 1] > ' '
    ensures Trim(u) == u
  {
  }

  lemma SeatOrderAsWrittenSnoc(users: seq<string>, x: string)
    ensures SeatOrderAsWritten(users + [x]) ==
      if Trim(x) == [] then SeatOrderAsWritten(users) else SeatOrderAsWritten(users) + [Trim(x)]
  {
    assert (users + [x])[..|users|] == users;
  }

  lemma SeatOrderSnoc(users: seq<string>, x: string)
    ensures SeatOrder(users + [x]) ==
      if Trim(x) == [] || Trim(x) in SeatOrder(users) then SeatOrder(users) else SeatOrder(users) + [Trim(x)]
  {
    assert (users + [x])[..|users|] == users;
  }

  /** An id given twice is seated twice in the source's `order`. */
  lemma RepeatedIdSeatedTwice(x: string, y: string)
    requires x != [] && Trim(x) == x && y != [] && Trim(y) == y
    ensures SeatOrderAsWritten([x, x, y]) == [x, x, y]
  {
    var one, two, three := [x], [x, x], [x, x, y];
    assert [] + [x] == one;
    assert one + [x] == two;
    assert two + [y] == three;
    SeatOrderAsWrittenSnoc([], x);
    SeatOrderAsWrittenSnoc(one, x);
    SeatOrderAsWrittenSnoc(two, y);
  }

  /** Seated once per id, the repeat is dropped. */
  lemma RepeatedIdSeatedOnce(x: string, y: string)
    requires x != [] && Trim(x) == x && y != [] && Trim(y) == y && x != y
    ensures SeatOrder([x, x, y]) == [x, y]
  {
    var one, two, three := [x], [x, x], [x, x, y];
    assert [] + [x] == one;
    assert one + [x] == two;
    assert two + [y] == three;
    assert one + [y] == [x, y];
    SeatOrderSnoc([], x);
    SeatOrderSnoc(one, x);
    SeatOrderSnoc(two, y);
  }

  /** With the ids "a", "a", "b" the source's `order` lists "a" twice, while `players` can hold only one seat for it. */
  lemma DuplicateSeatRepeats()
    ensures SeatOrderAsWritten(["a", "a", "b"]) == ["a", "a", "b"]
    ensures !NoDup(SeatOrderAsWritten(["a", "a", "b"]))
  {
    TrimPlain("a");
    TrimPlain("b");
    RepeatedIdSeatedTwice("a", "b");
    var o := SeatOrderAsWritten(["a", "a", "b"]);
    assert o[0] == o[1];
  }

  /**
   * When that "a" wins the showdown both of its entries are winners: a pot of 30 is split in
   * two and the single `payouts` entry for "a" keeps 15, so 15 chips leave the table.
   */
  lemma DuplicateSeatLosesChips()
    ensures Payouts(["a", "a"], 30, 2) == map["a" := 15]
    ensures MapSum(Payouts(["a", "a"], 30, 2)) == 15
  {
    assert ["a", "a"][..1] == ["a"];
    assert ["a"][..0] == [];
    assert Share(30, 2, 0) == 15 && Share(30, 2, 1) == 15;
    MapSumSingle("a", 15);
  }

  /** Seated once per id, the same ids take two seats. */
  lemma DuplicateSeatCorrected()
    ensures SeatOrder(["a", "a", "b"]) == ["a", "b"]
  {
    TrimPlain("a");
    TrimPlain("b");
    RepeatedIdSeatedOnce("a", "b");
  }
}
