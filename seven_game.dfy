/**
 * `SevenPokerGame`'s operations as methods that update a `State` in place, each proved to
 * leave the table the function of `SevenRules`/`SevenActions` that says what it does.
 */
module SevenGame {
  import opened Wrappers
  import opened Collections
  import opened PokerScore
  import opened ServerCard
  import opened ServerPoker
  import opened SevenTable
  import opened SevenLead
  import opened SevenRules
  import opened SevenActions

  // ---------------------------------------------------------------- chips

  /** `contribute`. */
  method Contribute(s: State, user: string, amount: int)
    modifies s
    requires user in s.players
    ensures s.View() == Pay(old(s.View()), user, amount)
  {
    if amount <= 0 {
      return;
    }
    s.pot := s.pot + amount;
    var side := s.players[user];
    s.players := s.players[user := side.(contributed := side.contributed + amount)];
    s.bets := s.bets[user := side.contributed + amount];
  }

  // ---------------------------------------------------------------- pending seats

  /** `putIfAbsent(uid, 0)` after the seats of `p` is `ZeroFill` of `p` and `uid`. */
  lemma ZeroFillSnoc(sc: map<string, int>, p: seq<string>, uid: string)
    ensures ZeroFill(sc, p + [uid]) ==
      (if uid in ZeroFill(sc, p) then ZeroFill(sc, p) else ZeroFill(sc, p)[uid := 0])
  {
  }

  /** Offset `size` from an index comes back to it. */
  lemma ModSelf(i: int, size: int)
    requires 0 <= i < size
    ensures (i + size) % size == i
  {
  }

  /** `resetPendingAfterAggressiveAction`. */
  method ResetPending(s: State, aggressor: string)
    modifies s
    requires NoDup(s.order) && aggressor in s.order
    ensures s.View() == Reopen(old(s.View()), aggressor)
  {
    var pending, sc := ReopenLoop(s.View(), aggressor);
    s.pending := pending;
    s.streetContribution := sc;
  }

  /**
   * The loop of `resetPendingAfterAggressiveAction`: walking the seats after the aggressor, it
   * lists those still in the hand and gives each a zero street contribution if it has none.
   */
  method ReopenLoop(t: Table, aggressor: string) returns (pending: seq<string>, sc: map<string, int>)
    requires NoDup(t.order) && aggressor in t.order
    ensures pending == Reopen(t, aggressor).pending
    ensures sc == Reopen(t, aggressor).streetContribution
  {
    pending := [];
    sc := t.streetContribution;
    var size := |t.order|;
    var startIdx := IndexOf(t.order, aggressor);
    ghost var others := Others(t.order, startIdx);
    var offset := 1;
    while offset <= size
      invariant 1 <= offset <= size + 1
      invariant pending == ActiveIn(others[..Min(offset - 1, size - 1)], t.players)
      invariant sc == ZeroFill(t.streetContribution, pending)
    {
      var idx := (startIdx + offset) % size;
      var uid := t.order[idx];
      ResetStep(t, startIdx, offset, pending, sc);
      if uid != aggressor && uid in t.players && !t.players[uid].folded {
        if uid !in sc {
          sc := sc[uid := 0];
        }
        pending := pending + [uid];
      }
      offset := offset + 1;
    }
    assert others[..size - 1] == others;
  }

  /** One offset of the loop of `resetPendingAfterAggressiveAction` keeps both of its invariants. */
  lemma ResetStep(t: Table, i: int, offset: int, pending: seq<string>, sc: map<string, int>)
    requires NoDup(t.order) && 0 <= i < |t.order| && 1 <= offset <= |t.order|
    requires pending == ActiveIn(Others(t.order, i)[..Min(offset - 1, |t.order| - 1)], t.players)
    requires sc == ZeroFill(t.streetContribution, pending)
    ensures var uid := t.order[(i + offset) % |t.order|];
      var add := uid != t.order[i] && uid in t.players && !t.players[uid].folded;
      var pending' := if add then pending + [uid] else pending;
      && pending' == ActiveIn(Others(t.order, i)[..Min(offset, |t.order| - 1)], t.players)
      && (if add && uid !in sc then sc[uid := 0] else sc) == ZeroFill(t.streetContribution, pending')
  {
    var uid := t.order[(i + offset) % |t.order|];
    PendingStep(t.order, t.players, i, offset, pending);
    ZeroFillSnoc(t.streetContribution, pending, uid);
  }

  /** One offset of the loop of `resetPendingAfterAggressiveAction`. */
  lemma PendingStep(order: seq<string>, players: map<string, Side>, i: int, offset: int, pending: seq<string>)
    requires NoDup(order) && 0 <= i < |order| && 1 <= offset <= |order|
    requires pending == ActiveIn(Others(order, i)[..Min(offset - 1, |order| - 1)], players)
    ensures var uid := order[(i + offset) % |order|];
      ActiveIn(Others(order, i)[..Min(offset, |order| - 1)], players) ==
        if uid != order[i] && Active(players, uid) then pending + [uid] else pending
  {
    var size := |order|;
    var others := Others(order, i);
    var uid := order[(i + offset) % size];
    if offset < size {
      OthersIndex(order, i, offset - 1);
      OthersSpec(order, i);
      assert others[..offset] == others[..offset - 1] + [uid];
      ActiveInSnoc(others[..offset - 1], uid, players);
    } else {
      ModSelf(i, size);
    }
  }

  // ---------------------------------------------------------------- handlers

  /** `handleCheck`. */
  method HandleCheck(s: State, user: string) returns (r: Option<ActionResult>)
    modifies s
    ensures (r, s.View()) == CheckOutcome(old(s.View()), user)
  {
    if s.currentBet > 0 {
      return None;
    }
    s.pending := Without(s.pending, user);
    return Some(ActionResult(CHECK, 0));
  }

  /** `handleCall`. */
  method HandleCall(s: State, user: string) returns (r: Option<ActionResult>)
    modifies s
    requires user in s.players
    ensures (r, s.View()) == CallOutcome(old(s.View()), user)
  {
    var toCall := NeededToCall(s.currentBet, s.streetContribution, user);
    if s.currentBet == 0 || toCall <= 0 {
      r := HandleCheck(s, user);
      return;
    }
    var pay := Max(0, toCall);
    Contribute(s, user, pay);
    var newContribution := Min(s.currentBet, StreetPaid(s.streetContribution, user) + pay);
    s.streetContribution := s.streetContribution[user := newContribution];
    s.pending := Without(s.pending, user);
    return Some(ActionResult(CALL, pay));
  }

  /**
   * The steps `handleBet` takes for a bet and for a raise: the standing bet becomes `target`,
   * the seat pays `pay`, every other seat still in the hand must act again, and the seat has acted.
   */
  method RaiseTo(s: State, user: string, target: int, raises: int, pay: int)
    modifies s
    requires user in s.players && NoDup(s.order) && user in s.order
    ensures s.View() == Acted(Reopen(Pay(Raised(old(s.View()), user, target, raises), user, pay), user), user)
  {
    ghost var t := s.View();
    s.currentBet := target;
    s.raisesThisStreet := raises;
    s.streetContribution := s.streetContribution[user := target];
    ghost var raised := s.View();
    assert raised == Raised(t, user, target, raises);
    Contribute(s, user, pay);
    assert s.order == raised.order by {
      PayKeeps(raised, user, pay);
    }
    ResetPending(s, user);
    s.pending := Without(s.pending, user);
  }

  /** `handleBet`. */
  method HandleBet(s: State, user: string, amount: int) returns (r: Option<ActionResult>)
    modifies s
    requires user in s.players && NoDup(s.order) && user in s.order
    ensures (r, s.View()) == BetOutcome(old(s.View()), user, amount)
  {
    ghost var t := s.View();
    var betUnit := BetUnit(s.stage, s.ante);
    var effectiveRaise := Max(betUnit, amount);
    var previous := StreetPaid(s.streetContribution, user);
    if s.currentBet == 0 {
      var target := effectiveRaise;
      var pay := Max(0, target - previous);
      assert target == RaiseTarget(t, amount) && pay == RaisePay(t, user, amount) && 0 == RaiseCount(t);
      RaiseTo(s, user, target, 0, pay);
      return Some(ActionResult(BET, pay));
    }
    if s.raisesThisStreet >= MaxRaisesPerStreet {
      r := HandleCall(s, user);
      return;
    }
    var target := s.currentBet + effectiveRaise;
    var pay := Max(0, target - previous);
    assert target == RaiseTarget(t, amount) && pay == RaisePay(t, user, amount);
    RaiseTo(s, user, target, s.raisesThisStreet + 1, pay);
    return Some(ActionResult(RAISE, pay));
  }

  /** `activePlayers`, counting the seats in seat order. */
  method ActivePlayers(s: State) returns (count: int)
    ensures count == |ActiveIn(s.order, s.players)|
  {
    count := 0;
    var k := 0;
    while k < |s.order|
      invariant 0 <= k <= |s.order|
      invariant count == |ActiveIn(s.order[..k], s.players)|
    {
      var u := s.order[k];
      ActiveInSnoc(s.order[..k], u, s.players);
      assert s.order[..k + 1] == s.order[..k] + [u];
      if u in s.players && !s.players[u].folded {
        count := count + 1;
      }
      k := k + 1;
    }
    assert s.order[..k] == s.order;
  }

  /** The first seat still in the hand is the first one the search meets. */
  lemma {:induction false} FirstActiveAt(us: seq<string>, players: map<string, Side>, k: int)
    requires 0 <= k < |us| && Active(players, us[k])
    requires forall j :: 0 <= j < k ==> !Active(players, us[j])
    ensures FirstActive(us, players) == Some(us[k])
  {
    if k > 0 {
      FirstActiveAt(us[1..], players, k - 1);
    }
  }

  /** `settleByFold`'s loop over `us`: every seat but the winner's is paid 0. */
  function PayLosers(p: map<string, Side>, us: seq<string>, w: string): map<string, Side>
  {
    if us == [] then p
    else if us[|us| - 1] != w && us[|us| - 1] in PayLosers(p, us[..|us| - 1], w) then
      PayLosers(p, us[..|us| - 1], w)[us[|us| - 1] := PayLosers(p, us[..|us| - 1], w)[us[|us| - 1]].(payout := Some(0))]
    else PayLosers(p, us[..|us| - 1], w)
  }

  /** The loop pays 0 to exactly the seats it visits other than the winner, and seats no one. */
  lemma {:induction false} PayLosersSpec(p: map<string, Side>, us: seq<string>, w: string)
    ensures forall u :: u in PayLosers(p, us, w) <==> u in p
    ensures forall u :: u in p ==> PayLosers(p, us, w)[u] == if u != w && u in us then p[u].(payout := Some(0)) else p[u]
  {
    if us != [] {
      PayLosersSpec(p, us[..|us| - 1], w);
      assert us == us[..|us| - 1] + [us[|us| - 1]];
    }
  }

  /** Paying the losers over the whole seat order after the winner's update gives `FoldPayouts`. */
  lemma PayLosersAll(players: map<string, Side>, order: seq<string>, w: string, pot: int)
    requires w in players && forall u :: u in players <==> u in order
    ensures PayLosers(players[w := players[w].(winner := true, payout := Some(pot))], order, w) == FoldPayouts(players, w, pot)
  {
    PayLosersSpec(players[w := players[w].(winner := true, payout := Some(pot))], order, w);
  }

  /** `settleByFold` with a winner whose seats are `players` once the losers are paid: the explicit new table. */
  lemma FoldSettlementIs(t: Table, w: string, players: map<string, Side>)
    requires FirstActive(t.order, t.players) == Some(w) && forall u :: u in t.players <==> u in t.order
    requires players == PayLosers(t.players[w := t.players[w].(winner := true, payout := Some(t.pot))], t.order, w)
    ensures FoldSettlement(t) == t.(players := players, winners := [w], payouts := map[w := t.pot],
      settledPot := t.pot, pot := 0, inProgress := false, turn := None, turnIndex := -1, pending := [], stage := StreetCount)
  {
    PayLosersAll(t.players, t.order, w, t.pot);
  }

  /** The search of `settleByFold` for its winner: the first seat in order still in the hand. */
  method FirstInHand(s: State) returns (winner: Option<string>)
    ensures winner == FirstActive(s.order, s.players)
  {
    var k := 0;
    while k < |s.order|
      invariant 0 <= k <= |s.order|
      invariant forall j :: 0 <= j < k ==> !Active(s.players, s.order[j])
    {
      var uid := s.order[k];
      if uid in s.players && !s.players[uid].folded {
        FirstActiveAt(s.order, s.players, k);
        return Some(uid);
      }
      k := k + 1;
    }
    return None;
  }

  /** The loop of `settleByFold` that pays 0 to every seat other than the winner's. */
  method PayLosersLoop(order: seq<string>, players: map<string, Side>, w: string) returns (p: map<string, Side>)
    ensures p == PayLosers(players, order, w)
  {
    p := players;
    var k := 0;
    while k < |order|
      invariant 0 <= k <= |order|
      invariant p == PayLosers(players, order[..k], w)
    {
      var uid := order[k];
      assert order[..k + 1][..k] == order[..k];
      if uid != w && uid in p {
        p := p[uid := p[uid].(payout := Some(0))];
      }
      k := k + 1;
    }
    assert order[..k] == order;
  }

  /** Records a settlement: the seats with their flags and payouts, the winners and the pot they shared. */
  method Award(s: State, players: map<string, Side>, winners: seq<string>, payouts: map<string, int>)
    modifies s
    ensures s.View() == old(s.View()).(players := players, winners := winners, payouts := payouts, settledPot := old(s.pot))
  {
    s.players, s.winners, s.payouts, s.settledPot := players, winners, payouts, s.pot;
  }

  /** The closing stores both settlements share: the pot is emptied and nobody is left to act. */
  method CloseHand(s: State)
    modifies s
    ensures s.View() == old(s.View()).(pot := 0, inProgress := false, turn := None, turnIndex := -1, pending := [], stage := StreetCount)
  {
    s.pot, s.inProgress, s.turn, s.turnIndex, s.pending, s.stage := 0, false, None, -1, [], StreetCount;
  }

  /** `settleByFold`. */
  method SettleByFold(s: State)
    modifies s
    requires forall u :: u in s.players <==> u in s.order
    ensures s.View() == FoldSettlement(old(s.View()))
  {
    ghost var t := s.View();
    var winner := FirstInHand(s);
    if winner.None? {
      s.inProgress := false;
      s.turn := None;
      s.turnIndex := -1;
      s.stage := StreetCount;
      return;
    }
    var w := winner.value;
    var players := s.players[w := s.players[w].(winner := true, payout := Some(s.pot))];
    players := PayLosersLoop(s.order, players, w);
    Award(s, players, [w], map[w := s.pot]);
    CloseHand(s);
    FoldSettlementIs(t, w, players);
  }

  /** `handleFold`. */
  method HandleFold(s: State, user: string) returns (r: Option<ActionResult>)
    modifies s
    requires user in s.players && forall u :: u in s.players <==> u in s.order
    ensures (r, s.View()) == FoldOutcome(old(s.View()), user)
  {
    ghost var t := s.View();
    var side := s.players[user];
    s.players, s.pending, s.streetContribution := s.players[user := side.(folded := true)], Without(s.pending, user),
      s.streetContribution - {user};
    assert s.View() == Folded(t, user);
    assert s.players.Keys == t.players.Keys;
    var active := ActivePlayers(s);
    if active <= 1 {
      SettleByFold(s);
    }
    return Some(ActionResult(FOLD, 0));
  }

  // ---------------------------------------------------------------- turns

  /** `isStreetComplete`. */
  method IsStreetComplete(s: State) returns (r: bool)
    ensures r == StreetComplete(s.View())
  {
    if !s.inProgress {
      return true;
    }
    if s.pending != [] {
      return false;
    }
    if s.currentBet == 0 {
      return true;
    }
    var i := 0;
    while i < |s.order|
      invariant 0 <= i <= |s.order|
      invariant forall j :: 0 <= j < i && Active(s.players, s.order[j]) ==> StreetPaid(s.streetContribution, s.order[j]) >= s.currentBet
    {
      var uid := s.order[i];
      if uid in s.players && !s.players[uid].folded {
        var paid := StreetPaid(s.streetContribution, uid);
        if paid < s.currentBet {
          return false;
        }
      }
      i := i + 1;
    }
    forall u | u in s.order && Active(s.players, u)
      ensures StreetPaid(s.streetContribution, u) >= s.currentBet
    {
      var j :| 0 <= j < |s.order| && s.order[j] == u;
    }
    return true;
  }

  /** One more step of the cyclic index `(idx + 1 + size) % size` is one more offset from the start. */
  lemma ModStep(start: int, i: int, size: int)
    requires 0 <= start < size && 0 <= i < size
    ensures ((start + i) % size + 1 + size) % size == (start + i + 1) % size
  {
    var a := start + i;
    if a < size {
      ModLow(a, size);
      ModHigh(a + 1 + size, size);
      if a + 1 < size {
        ModLow(a + 1, size);
      } else {
        ModHigh(a + 1, size);
      }
    } else {
      ModHigh(a, size);
      ModHigh(a + 1 - size + size, size);
      ModHigh(a + 1, size);
    }
  }

  lemma ModLow(x: int, size: int)
    requires 0 <= x < size
    ensures x % size == x
  {
  }

  /** `x % size` for `size <= x <= 2 * size`. */
  lemma ModHigh(x: int, size: int)
    requires 0 < size <= x <= 2 * size
    ensures x % size == if x < 2 * size then x - size else 0
  {
  }

  /** The search loop of `advanceTurnFrom`: seat after seat from `startIdx`, wrapping round. */
  method NextSeatLoop(order: seq<string>, pending: seq<string>, players: map<string, Side>, startIdx: int)
    returns (found: int)
    requires 0 <= startIdx < |order|
    ensures found == NextSeat(order, pending, players, startIdx)
  {
    var size := |order|;
    var idx := startIdx;
    found := -1;
    var i := 0;
    while i < size && found < 0
      invariant 0 <= i <= size
      invariant found < 0 ==> idx == (startIdx + i) % size && NextOffset(order, pending, players, startIdx, 1) > i
      invariant found >= 0 ==> found == NextSeat(order, pending, players, startIdx)
    {
      ModStep(startIdx, i, size);
      idx := (idx + 1 + size) % size;
      var candidate := order[idx];
      if candidate in pending && candidate in players && !players[candidate].folded {
        assert EligibleAfter(order, pending, players, startIdx, i + 1);
        found := idx;
      } else {
        assert !EligibleAfter(order, pending, players, startIdx, i + 1);
        i := i + 1;
      }
    }
  }

  /** `advanceTurnFrom`. */
  method AdvanceTurnFrom(s: State, startIdx: int)
    modifies s
    requires 0 <= startIdx < |s.order|
    ensures s.View() == TurnAfter(old(s.View()), startIdx)
  {
    if !s.inProgress || s.pending == [] {
      s.turn, s.turnIndex := None, -1;
      return;
    }
    var found := NextSeatLoop(s.order, s.pending, s.players, startIdx);
    if found >= 0 {
      s.turnIndex, s.turn := found, Some(s.order[found]);
    } else {
      s.turn, s.turnIndex := None, -1;
    }
  }

  // ---------------------------------------------------------------- streets

  /** Each seat's lead score, for the seats still in the hand. */
  function Candidates(order: seq<string>, players: map<string, Side>, stage: int): (cs: seq<Option<LeadScore>>)
    ensures |cs| == |order|
    ensures forall i :: 0 <= i < |order| ==>
      cs[i] == if Active(players, order[i]) then Some(SeatLead(order, players, stage, i)) else None
  {
    seq(|order|, i requires 0 <= i < |order| =>
      if Active(players, order[i]) then Some(SeatLead(order, players, stage, i)) else None)
  }

  /** The lead search over the first `i` candidates: `b` is the first of those no other one beats, or -1. */
  ghost predicate LeadAmong(cs: seq<Option<LeadScore>>, i: int, b: int)
  {
    && 0 <= i <= |cs|
    && -1 <= b < i
    && (b == -1 <==> forall j :: 0 <= j < i ==> cs[j].None?)
    && (b >= 0 ==>
         && cs[b].Some?
         && (forall j :: 0 <= j < i && cs[j].Some? ==> LeadCompare(cs[j].value, cs[b].value) <= 0)
         && (forall j :: 0 <= j < b && cs[j].Some? ==> LeadCompare(cs[j].value, cs[b].value) < 0))
  }

  /** A search over every seat finds the lead. */
  lemma LeadAmongIsLead(order: seq<string>, players: map<string, Side>, stage: int, b: int)
    requires LeadAmong(Candidates(order, players, stage), |order|, b)
    ensures IsLead(order, players, stage, b)
  {
    var cs := Candidates(order, players, stage);
    if b >= 0 {
      forall j | 0 <= j < |order| && Active(players, order[j])
        ensures LeadCompare(SeatLead(order, players, stage, j), SeatLead(order, players, stage, b)) <= 0
      {
        assert cs[j].Some?;
      }
    } else {
      forall j | 0 <= j < |order|
        ensures !Active(players, order[j])
      {
        assert cs[j].None?;
      }
    }
  }

  /** A seat out of the hand, or one that does not beat the lead so far, leaves the lead where it is. */
  lemma LeadKeep(cs: seq<Option<LeadScore>>, i: int, b: int)
    requires LeadAmong(cs, i, b) && i < |cs|
    requires cs[i].None? || (b >= 0 && LeadCompare(cs[i].value, cs[b].value) <= 0)
    ensures LeadAmong(cs, i + 1, b)
  {
  }

  /** The first seat in the hand is the lead so far. */
  lemma LeadFirst(cs: seq<Option<LeadScore>>, i: int)
    requires LeadAmong(cs, i, -1) && i < |cs| && cs[i].Some?
    ensures LeadAmong(cs, i + 1, i)
  {
    LeadCompareReflexive(cs[i].value);
  }

  /** A seat that beats the lead so far beats every seat before it. */
  lemma LeadBeat(cs: seq<Option<LeadScore>>, i: int, b: int)
    requires LeadAmong(cs, i, b) && i < |cs| && b >= 0 && cs[i].Some?
    requires LeadCompare(cs[i].value, cs[b].value) > 0
    ensures LeadAmong(cs, i + 1, i)
  {
    var x := cs[i].value;
    LeadCompareReflexive(x);
    forall j | 0 <= j < i && cs[j].Some?
      ensures LeadCompare(cs[j].value, x) < 0
    {
      var y := cs[j].value;
      LeadCompareAntisymmetric(y, cs[b].value);
      LeadCompareTransitive(x, cs[b].value, y);
      LeadCompareAntisymmetric(x, y);
    }
  }

  /** `findLeadIndex`. */
  method FindLeadIndex(s: State) returns (bestIdx: int)
    ensures IsLead(s.order, s.players, s.stage, bestIdx)
  {
    ghost var cs := Candidates(s.order, s.players, s.stage);
    var best := LeadScore(-1, []);
    bestIdx := -1;
    var i := 0;
    while i < |s.order|
      invariant LeadAmong(cs, i, bestIdx)
      invariant bestIdx >= 0 ==> best == cs[bestIdx].value
    {
      var uid := s.order[i];
      if uid in s.players && !s.players[uid].folded {
        var score := LeadScoreOf(s.players[uid].cards, s.stage);
        assert cs[i] == Some(score);
        var cmp := 1;
        if bestIdx >= 0 {
          cmp := LeadCompareTo(score, best);
        }
        if cmp > 0 {
          if bestIdx < 0 {
            LeadFirst(cs, i);
          } else {
            LeadBeat(cs, i, bestIdx);
          }
          best := score;
          bestIdx := i;
        } else {
          LeadKeep(cs, i, bestIdx);
        }
      } else {
        LeadKeep(cs, i, bestIdx);
      }
      i := i + 1;
    }
    LeadAmongIsLead(s.order, s.players, s.stage, bestIdx);
  }

  /** `x -> 0` over `p + [u]` is `x -> 0` over `p`, then `u -> 0`. */
  lemma ZeroMapSnoc(p: seq<string>, u: string)
    ensures (map x | x in p + [u] :: 0) == (map x | x in p :: 0)[u := 0]
  {
  }

  /** The street's pending seats and zeroed contributions, from the lead round the table. */
  method OpenFrom(s: State, lead: int) returns (pending: seq<string>, sc: map<string, int>)
    requires 0 <= lead < |s.order|
    ensures pending == ActiveIn(Rotate(s.order, lead), s.players)
    ensures sc == map x | x in pending :: 0
  {
    pending, sc := [], map[];
    var size := |s.order|;
    var offset := 0;
    while offset < size
      invariant 0 <= offset <= size
      invariant pending == ActiveIn(Rotate(s.order, lead)[..offset], s.players)
      invariant sc == map x | x in pending :: 0
    {
      var idx := (lead + offset) % size;
      var uid := s.order[idx];
      RotateIndex(s.order, lead, offset);
      assert Rotate(s.order, lead)[..offset + 1] == Rotate(s.order, lead)[..offset] + [uid];
      ActiveInSnoc(Rotate(s.order, lead)[..offset], uid, s.players);
      if uid in s.players && !s.players[uid].folded {
        ZeroMapSnoc(pending, uid);
        sc := sc[uid := 0];
        pending := pending + [uid];
      }
      offset := offset + 1;
    }
    assert Rotate(s.order, lead)[..size] == Rotate(s.order, lead);
  }

  /** The stores of `startStreet`. */
  method OpenStreet(s: State, pending: seq<string>, sc: map<string, int>, lead: int, turn: Option<string>)
    modifies s
    ensures s.View() == old(s.View()).(currentBet := 0, raisesThisStreet := 0, streetContribution := sc,
      pending := pending, turnIndex := lead, turn := turn)
  {
    s.currentBet, s.raisesThisStreet, s.streetContribution, s.pending, s.turnIndex, s.turn := 0, 0, sc, pending, lead, turn;
  }

  /** `startStreet`. */
  method StartStreet(s: State)
    modifies s
    ensures !old(s.inProgress) ==> s.View() == old(s.View())
    ensures old(s.inProgress) ==> IsLead(old(s.order), old(s.players), old(s.stage), s.turnIndex)
    ensures old(s.inProgress) ==> s.View() == Opened(old(s.View()), s.turnIndex)
  {
    if !s.inProgress {
      return;
    }
    var lead := FindLeadIndex(s);
    if lead < 0 {
      OpenStreet(s, [], map[], -1, None);
      return;
    }
    var pending, sc := OpenFrom(s, lead);
    OpenStreet(s, pending, sc, lead, Some(s.order[lead]));
  }
}
