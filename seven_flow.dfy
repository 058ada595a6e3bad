/**
 * The control flow of `SevenPokerGame`: closing a street (`advanceStreetOrFinish`), one action
 * through the guards of `applyAction`, the bots' `autoAct` loop, and the public operations
 * `start`, `bet`, `call`, `check`, `fold` and `next`. Each keeps `Playing`, the invariant that
 * holds between public operations.
 */
module SevenFlow {
  import opened Wrappers
  import opened Collections
  import opened ServerCard
  import opened SevenTable
  import opened SevenRules
  import opened SevenActions
  import opened SevenGame
  import opened SevenPlay
  import opened SevenDeal
  import opened SevenSeating

  // ---------------------------------------------------------------- closing a street

  method NextStage(s: State)
    modifies s
    ensures s.View() == old(s.View()).(stage := old(s.stage) + 1)
  {
    s.stage := s.stage + 1;
  }

  /** `advanceStreetOrFinish`, as `Advanced` describes it. */
  method AdvanceStreetOrFinish(s: State)
    modifies s
    requires Valid(s.View())
    ensures Advanced(old(s.View()), s.View())
  {
    if !s.inProgress {
      return;
    }
    var n := ActivePlayers(s);
    if n <= 1 {
      SettleByFold(s);
      return;
    }
    if s.stage >= StreetCount - 1 {
      ResolveShowdown(s);
      return;
    }
    ghost var t := s.View();
    NextStage(s);
    if DealsCard[s.stage] {
      DealRound(s, 1, true);
    }
    assert s.View() == NextStreet(t);
    StartStreet(s);
  }

  // ---------------------------------------------------------------- one action

  /** The handler `applyAction` dispatches to; any other action type is refused. */
  function Handled(t: Table, u: string, kind: ActionType, amount: int): (Option<ActionResult>, Table)
    requires u in t.players && u in t.order
  {
    match kind
    case BET => BetOutcome(t, u, amount)
    case CALL => CallOutcome(t, u)
    case CHECK => CheckOutcome(t, u)
    case FOLD => FoldOutcome(t, u)
    case _ => (None, t)
  }

  /** A check keeps the invariants and the seat order, and a refused one changes nothing. */
  lemma CheckKeeps(t: Table, u: string)
    requires Valid(t)
    ensures Valid(CheckOutcome(t, u).1) && CheckOutcome(t, u).1.order == t.order
    ensures CheckOutcome(t, u).0.None? ==> CheckOutcome(t, u).1 == t
  {
    CheckSpec(t, u);
  }

  /** So does a call. */
  lemma CallKeeps(t: Table, u: string)
    requires Valid(t) && u in t.players
    ensures Valid(CallOutcome(t, u).1) && CallOutcome(t, u).1.order == t.order
    ensures CallOutcome(t, u).0.None? ==> CallOutcome(t, u).1 == t
  {
    CallSpec(t, u);
    CheckKeeps(t, u);
  }

  /** So does a bet. */
  lemma BetKeeps(t: Table, u: string, amount: int)
    requires Valid(t) && u in t.players
    ensures Valid(BetOutcome(t, u, amount).1) && BetOutcome(t, u, amount).1.order == t.order
    ensures BetOutcome(t, u, amount).0.None? ==> BetOutcome(t, u, amount).1 == t
  {
    BetValid(t, u, amount);
    if t.currentBet != 0 && t.raisesThisStreet >= MaxRaisesPerStreet {
      CallKeeps(t, u);
    } else {
      BetRaises(t, u, amount);
      PayKeeps(Raised(t, u, RaiseTarget(t, amount), RaiseCount(t)), u, RaisePay(t, u, amount));
    }
  }

  /** A fold is never refused, and keeps the invariants and the seat order. */
  lemma FoldKeeps(t: Table, u: string)
    requires Valid(t) && u in t.players
    ensures Valid(FoldOutcome(t, u).1) && FoldOutcome(t, u).1.order == t.order
    ensures FoldOutcome(t, u).0 == Some(ActionResult(FOLD, 0))
  {
    FoldValid(t, u);
  }

  /**
   * Every handler keeps the invariants and the seat order; a refused action changes nothing;
   * a fold is never refused, and an action type other than the four always is.
   */
  lemma HandledSpec(t: Table, u: string, kind: ActionType, amount: int)
    requires Valid(t) && u in t.players
    ensures Valid(Handled(t, u, kind, amount).1)
    ensures Handled(t, u, kind, amount).1.order == t.order
    ensures Handled(t, u, kind, amount).0.None? ==> Handled(t, u, kind, amount).1 == t
    ensures kind == FOLD ==> Handled(t, u, kind, amount).0 == Some(ActionResult(FOLD, 0))
    ensures kind !in {BET, CALL, CHECK, FOLD} ==> Handled(t, u, kind, amount).0.None?
  {
    match kind
    case BET => BetKeeps(t, u, amount);
    case CALL => CallKeeps(t, u);
    case CHECK => CheckKeeps(t, u);
    case FOLD => FoldKeeps(t, u);
    case _ =>
  }

  /**
   * `applyAction`: a seat that may not act changes nothing, nor does a refused action;
   * otherwise a hand that ended has no turn, a complete street is closed, and any other action
   * passes the turn on from the seat that acted.
   */
  ghost predicate ActionOutcome(t: Table, u: string, kind: ActionType, amount: int, t': Table)
    requires Valid(t)
  {
    if !MayAct(t, u) then t' == t
    else
      HandledSpec(t, u, kind, amount);
      var (r, t1) := Handled(t, u, kind, amount);
      if r.None? then t' == t
      else if !t1.inProgress then t' == t1.(turn := None, turnIndex := -1)
      else if StreetComplete(t1) then Advanced(t1, t')
      else t' == TurnAfter(t1, IndexOf(t.order, u))
  }

  /** Whether the action went through with the hand still running (when `applyAction` calls `autoAct`). */
  ghost predicate Applied(t: Table, u: string, kind: ActionType, amount: int)
    requires Valid(t)
  {
    MayAct(t, u) && Handled(t, u, kind, amount).0.Some? && Handled(t, u, kind, amount).1.inProgress
  }

  /** An action keeps the invariant between public operations. */
  lemma ActionPlaying(t: Table, u: string, kind: ActionType, amount: int, t': Table)
    requires Playing(t) && ActionOutcome(t, u, kind, amount, t')
    ensures Playing(t')
  {
    if MayAct(t, u) {
      HandledSpec(t, u, kind, amount);
      var (r, t1) := Handled(t, u, kind, amount);
      if r.Some? && t1.inProgress {
        if StreetComplete(t1) {
          AdvancedSpec(t1, t');
        } else {
          TurnAfterSpec(t1, IndexOf(t.order, u));
        }
      }
    }
  }

  method Dispatch(s: State, user: string, kind: ActionType, amount: int) returns (r: Option<ActionResult>)
    modifies s
    requires user in s.players && NoDup(s.order) && user in s.order && forall u :: u in s.players <==> u in s.order
    ensures (r, s.View()) == Handled(old(s.View()), user, kind, amount)
  {
    match kind
    case BET => r := HandleBet(s, user, amount);
    case CALL => r := HandleCall(s, user);
    case CHECK => r := HandleCheck(s, user);
    case FOLD => r := HandleFold(s, user);
    case _ => r := None;
  }

  method EndTurn(s: State)
    modifies s
    ensures s.View() == old(s.View()).(turn := None, turnIndex := -1)
  {
    s.turn, s.turnIndex := None, -1;
  }

  /** The guards of `applyAction`. */
  method MayActNow(s: State, user: string) returns (b: bool)
    ensures b == MayAct(s.View(), user)
  {
    b := s.inProgress && user in s.players && !s.players[user].folded
      && (s.turn.None? || s.turn.value == user) && (s.pending == [] || user in s.pending);
  }

  /** What `applyAction` does once the handler has acted. */
  method Proceed(s: State, user: string) returns (applied: bool)
    modifies s
    requires Valid(s.View()) && user in s.order
    ensures !old(s.inProgress) ==> s.View() == old(s.View()).(turn := None, turnIndex := -1)
    ensures old(s.inProgress) && StreetComplete(old(s.View())) ==> Advanced(old(s.View()), s.View())
    ensures old(s.inProgress) && !StreetComplete(old(s.View())) ==> s.View() == TurnAfter(old(s.View()), IndexOf(old(s.order), user))
    ensures applied == old(s.inProgress)
  {
    if !s.inProgress {
      EndTurn(s);
      return false;
    }
    var complete := IsStreetComplete(s);
    if complete {
      AdvanceStreetOrFinish(s);
    } else {
      AdvanceTurnFrom(s, IndexOf(s.order, user));
    }
    applied := true;
  }

  /** `applyAction`, without the call to `autoAct` (its callers make it when `applied` holds). */
  method ApplyAction(s: State, user: string, kind: ActionType, amount: int) returns (applied: bool)
    modifies s
    requires Valid(s.View())
    ensures ActionOutcome(old(s.View()), user, kind, amount, s.View())
    ensures applied == Applied(old(s.View()), user, kind, amount)
  {
    var may := MayActNow(s, user);
    if !may {
      return false;
    }
    ghost var t := s.View();
    HandledSpec(t, user, kind, amount);
    var r := Dispatch(s, user, kind, amount);
    if r.None? {
      return false;
    }
    applied := Proceed(s, user);
  }

  // ---------------------------------------------------------------- bots

  /**
   * A bot seat holds the turn of a running hand and its policy has a move. The policy (the
   * seat's random profile in the source) is a parameter: a move for a table and a seat.
   */
  ghost predicate BotToMove(t: Table, bot: (Table, string) -> Option<Decision>)
  {
    && t.inProgress && t.turn.Some? && t.turn.value in t.players
    && t.players[t.turn.value].ai && !t.players[t.turn.value].folded
    && bot(t, t.turn.value).Some?
  }

  /** One bot move: the bot holding the turn makes its policy's move through `applyAction`. */
  ghost predicate BotMove(t: Table, bot: (Table, string) -> Option<Decision>, t': Table)
  {
    && Valid(t) && BotToMove(t, bot)
    && ActionOutcome(t, t.turn.value, bot(t, t.turn.value).value.kind, bot(t, t.turn.value).value.amount, t')
  }

  /** Each table of `ts` after the first is reached from the one before by a bot move. */
  ghost predicate BotRun(ts: seq<Table>, bot: (Table, string) -> Option<Decision>)
    decreases |ts|
  {
    |ts| <= 1 || (BotRun(ts[..|ts| - 1], bot) && BotMove(ts[|ts| - 2], bot, ts[|ts| - 1]))
  }

  /**
   * What `autoAct` does to a table: at most 20 bot moves in a row, stopping before the 20th only
   * when no bot is left to move.
   */
  ghost predicate BotsMoved(t: Table, t': Table, bot: (Table, string) -> Option<Decision>)
  {
    exists ts :: 1 <= |ts| <= 21 && ts[0] == t && ts[|ts| - 1] == t' && BotRun(ts, bot)
      && (|ts| < 21 ==> !BotToMove(t', bot))
  }

  /** A run of bot moves can only start where a bot holds the turn. */
  lemma {:induction false} FirstMoveNeedsBot(ts: seq<Table>, bot: (Table, string) -> Option<Decision>)
    requires |ts| >= 2 && BotRun(ts, bot)
    ensures BotToMove(ts[0], bot)
  {
    if |ts| > 2 {
      FirstMoveNeedsBot(ts[..|ts| - 1], bot);
    }
  }

  /** Where no bot holds the turn, `autoAct` changes nothing. */
  lemma NoBotStays(t: Table, t': Table, bot: (Table, string) -> Option<Decision>)
    requires BotsMoved(t, t', bot) && !BotToMove(t, bot)
    ensures t' == t
  {
    var ts :| 1 <= |ts| <= 21 && ts[0] == t && ts[|ts| - 1] == t' && BotRun(ts, bot)
      && (|ts| < 21 ==> !BotToMove(t', bot));
    if |ts| >= 2 {
      FirstMoveNeedsBot(ts, bot);
    }
  }

  /**
   * `autoAct`: bots move while one holds the turn, for at most 20 moves. It keeps the invariant
   * between public operations, and the moves it makes are those `BotsMoved` describes.
   */
  method AutoAct(s: State, bot: (Table, string) -> Option<Decision>)
    modifies s
    requires Playing(s.View())
    ensures Playing(s.View())
    ensures BotsMoved(old(s.View()), s.View(), bot)
  {
    ghost var trace := [s.View()];
    var guard := 0;
    while s.inProgress && s.turn.Some? && guard < 20
      invariant Playing(s.View()) && 0 <= guard <= 20 && |trace| == guard + 1
      invariant trace[0] == old(s.View()) && trace[guard] == s.View() && BotRun(trace, bot)
      decreases 20 - guard
    {
      guard := guard + 1;
      var actor := s.turn.value;
      if actor !in s.players || !s.players[actor].ai || s.players[actor].folded {
        break;
      }
      var decision := bot(s.View(), actor);
      if decision.None? {
        break;
      }
      ghost var t := s.View();
      var _ := ApplyAction(s, actor, decision.value.kind, decision.value.amount);
      ActionPlaying(t, actor, decision.value.kind, decision.value.amount, s.View());
      assert BotMove(t, bot, s.View());
      assert (trace + [s.View()])[..|trace|] == trace;
      trace := trace + [s.View()];
    }
    assert |trace| <= 21 && trace[|trace| - 1] == s.View() && (|trace| < 21 ==> !BotToMove(s.View(), bot));
  }

  /**
   * A player's action as `applyAction` carries it out, followed by the bots' moves when it went
   * through with the hand still running.
   */
  ghost predicate ActedThenBots(t: Table, u: string, kind: ActionType, amount: int,
                                bot: (Table, string) -> Option<Decision>, t': Table)
    requires Valid(t)
  {
    exists mid :: ActionOutcome(t, u, kind, amount, mid)
      && (if Applied(t, u, kind, amount) then BotsMoved(mid, t', bot) else t' == mid)
  }

  /** When the bots never have a move, a player's action is exactly what `applyAction` makes of it. */
  lemma ActedWithoutBots(t: Table, u: string, kind: ActionType, amount: int,
                         bot: (Table, string) -> Option<Decision>, t': Table)
    requires Valid(t) && ActedThenBots(t, u, kind, amount, bot, t')
    requires forall x, v :: bot(x, v).None?
    ensures ActionOutcome(t, u, kind, amount, t')
  {
    var mid :| ActionOutcome(t, u, kind, amount, mid)
      && (if Applied(t, u, kind, amount) then BotsMoved(mid, t', bot) else t' == mid);
    if Applied(t, u, kind, amount) {
      NoBotStays(mid, t', bot);
    }
  }

  /** One action from a player, then the bots' moves when it went through with the hand still running. */
  method Act(s: State, user: string, kind: ActionType, amount: int, bot: (Table, string) -> Option<Decision>)
    modifies s
    requires Playing(s.View())
    ensures Playing(s.View())
    ensures ActedThenBots(old(s.View()), user, kind, amount, bot, s.View())
    ensures !MayAct(old(s.View()), user) ==> s.View() == old(s.View())
  {
    ghost var t := s.View();
    var applied := ApplyAction(s, user, kind, amount);
    ghost var mid := s.View();
    ActionPlaying(t, user, kind, amount, mid);
    if applied {
      AutoAct(s, bot);
    }
    assert ActionOutcome(t, user, kind, amount, mid);
  }

  /** `bet`: a negative amount counts as 0. */
  method Bet(s: State, user: string, amount: int, bot: (Table, string) -> Option<Decision>)
    modifies s
    requires Playing(s.View())
    ensures Playing(s.View())
    ensures ActedThenBots(old(s.View()), user, BET, Max(0, amount), bot, s.View())
    ensures !MayAct(old(s.View()), user) ==> s.View() == old(s.View())
  {
    Act(s, user, BET, Max(0, amount), bot);
  }

  method Call(s: State, user: string, bot: (Table, string) -> Option<Decision>)
    modifies s
    requires Playing(s.View())
    ensures Playing(s.View())
    ensures ActedThenBots(old(s.View()), user, CALL, 0, bot, s.View())
    ensures !MayAct(old(s.View()), user) ==> s.View() == old(s.View())
  {
    Act(s, user, CALL, 0, bot);
  }

  method Check(s: State, user: string, bot: (Table, string) -> Option<Decision>)
    modifies s
    requires Playing(s.View())
    ensures Playing(s.View())
    ensures ActedThenBots(old(s.View()), user, CHECK, 0, bot, s.View())
    ensures !MayAct(old(s.View()), user) ==> s.View() == old(s.View())
  {
    Act(s, user, CHECK, 0, bot);
  }

  method Fold(s: State, user: string, bot: (Table, string) -> Option<Decision>)
    modifies s
    requires Playing(s.View())
    ensures Playing(s.View())
    ensures ActedThenBots(old(s.View()), user, FOLD, 0, bot, s.View())
    ensures !MayAct(old(s.View()), user) ==> s.View() == old(s.View())
  {
    Act(s, user, FOLD, 0, bot);
  }

  method ClearPending(s: State)
    modifies s
    ensures s.View() == old(s.View()).(pending := [])
  {
    s.pending := [];
  }

  /** Forgetting who still owes an action keeps the invariants. */
  lemma ClearedValid(t: Table)
    requires Valid(t)
    ensures Valid(t.(pending := []))
  {
    StreetStateValid(t, [], t.streetContribution, t.currentBet, t.raisesThisStreet);
  }

  /** What `next` does: on a running hand, the street closed with nobody pending, then the bots' moves. */
  ghost predicate NextOutcome(t: Table, bot: (Table, string) -> Option<Decision>, t': Table)
  {
    if !t.inProgress then t' == t
    else exists mid :: Advanced(t.(pending := []), mid) && BotsMoved(mid, t', bot)
  }

  /** `next`: the street is closed whoever still owes an action, then the bots move. */
  method Next(s: State, bot: (Table, string) -> Option<Decision>)
    modifies s
    requires Playing(s.View())
    ensures Playing(s.View())
    ensures NextOutcome(old(s.View()), bot, s.View())
  {
    if !s.inProgress {
      return;
    }
    ClearedValid(s.View());
    ClearPending(s);
    ghost var t := s.View();
    AdvanceStreetOrFinish(s);
    ghost var mid := s.View();
    AdvancedSpec(t, mid);
    AutoAct(s, bot);
    assert Advanced(t, mid);
  }

  /** `start` up to the bots' first moves: the first street opened at its lead on the `Started` table. */
  method Open(s: State, users: seq<string>, ante: int, d: Deck)
    modifies s
    ensures IsLead(SeatOrder(users), Started(users, ante, d).players, 0, s.turnIndex)
    ensures s.View() == Opened(Started(users, ante, d), s.turnIndex)
  {
    Begin(s, users, ante, d);
    DealInitial(s);
    CollectAntes(s);
    StartStreet(s);
  }

  /** The first street opened at its lead keeps the invariant between public operations. */
  lemma OpenedStarted(users: seq<string>, ante: int, d: Deck, lead: int)
    requires IsLead(SeatOrder(users), Started(users, ante, d).players, 0, lead)
    ensures Playing(Opened(Started(users, ante, d), lead))
  {
    StartedSpec(users, ante, d);
    OpenedSpec(Started(users, ante, d), lead);
  }

  /** What `start` does: the first street of the `Started` table opened at its lead, then the bots' moves. */
  ghost predicate StartOutcome(users: seq<string>, ante: int, d: Deck, bot: (Table, string) -> Option<Decision>, t': Table)
  {
    exists lead :: IsLead(SeatOrder(users), Started(users, ante, d).players, 0, lead)
      && BotsMoved(Opened(Started(users, ante, d), lead), t', bot)
  }

  /** `start`: a new hand with these ids, this ante and this deck, then the bots' first moves. */
  method Start(s: State, users: seq<string>, ante: int, d: Deck, bot: (Table, string) -> Option<Decision>)
    modifies s
    ensures Playing(s.View())
    ensures StartOutcome(users, ante, d, bot, s.View())
  {
    Open(s, users, ante, d);
    ghost var lead := s.turnIndex;
    OpenedStarted(users, ante, d, lead);
    AutoAct(s, bot);
    assert IsLead(SeatOrder(users), Started(users, ante, d).players, 0, lead);
  }
}
