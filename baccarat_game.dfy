/**
 * The server's single-player baccarat (`BaccaratGame`): one call deals a coup and settles one
 * user's main bet and side bets against it. The game's only state is its deck.
 */
module BaccaratGame {
  import opened Wrappers
  import opened Text
  import opened ServerCard
  import opened BaccaratRules
  import opened BaccaratRoom

  /** `BaccaratGame.State`. */
  datatype State = State(inProgress: bool, player: Side, banker: Side, delta: int)

  /**
   * What the bet returns against the outcome: the main bet by its upper-cased pick (nothing for a
   * null pick), then 12 times the stake per flagged pair bet whose side has a pair, and 13 times
   * the stake for a flagged SUPER6 on a banker win with 6.
   */
  function SoloReturn(main: Option<string>, pp: bool, pb: bool, super6: bool, amount: int, o: Outcome, commission: bool): int
  {
    (if main.Some? then MainReturn(UpperAll(main.value), o.winner, amount, commission) else 0)
    + SideReturn(pp, pb, super6, amount, o)
  }

  /** What the flagged side bets return. */
  function SideReturn(pp: bool, pb: bool, super6: bool, amount: int, o: Outcome): int
  {
    (if pp && o.playerPair then amount * 12 else 0)
    + (if pb && o.bankerPair then amount * 12 else 0)
    + (if super6 && o.winner == BANKER && o.bankerTotal == 6 then amount * 13 else 0)
  }

  /** `bet`: the coup from the deck, and the state it leaves. */
  function AfterBet(d: Deck, main: Option<string>, pp: bool, pb: bool, super6: bool, amount: int, commission: bool): (State, Deck)
  {
    var (p, b, d') := Coup(d);
    (State(false, p, b, SoloReturn(main, pp, pb, super6, amount, OutcomeOf(p, b), commission)), d')
  }

  /** The solo return of a bet with a pick is the room's return of the bets it places. */
  lemma SoloReturnIsUserReturn(main: string, pp: bool, pb: bool, super6: bool, amount: int, o: Outcome, commission: bool)
    ensures SoloReturn(Some(main), pp, pb, super6, amount, o, commission)
      == UserReturn(PlacedBets(map[], main, amount, pp, pb, super6), o, commission)
  {
    SingleBetReturn(main, amount, pp, pb, super6, o, commission);
  }

  /** The room's settlement of a ledger holding one user. */
  lemma SettlementOfOne(user: string, m: Bets, o: Outcome, commission: bool)
    ensures Settlement(map[user := m], o, commission) == map[user := UserReturn(m, o, commission)]
  {
  }

  /** The room holding only this bet, placed by `user` into an empty ledger before any deal. */
  function SoloRoom(d: Deck, user: string, main: string, pp: bool, pb: bool, super6: bool, amount: int): Round
  {
    Round(false, Side([], 0), Side([], 0), Placed(map[], user, main, amount, pp, pb, super6), map[], false, d)
  }

  /** The single-player game deals the same coup as the shared room and leaves the same deck. */
  lemma SoloDealsAsRoom(d: Deck, user: string, main: string, pp: bool, pb: bool, super6: bool, amount: int, commission: bool)
    ensures var (s, d') := AfterBet(d, Some(main), pp, pb, super6, amount, commission);
      var t' := Dealt(SoloRoom(d, user, main, pp, pb, super6, amount), commission);
      s.player == t'.player && s.banker == t'.banker && d' == t'.deck
  {
  }

  /**
   * The single-player game settles a bet exactly as the shared room settles the same bet placed
   * by one user into an empty ledger.
   */
  lemma SoloSettlesAsRoom(d: Deck, user: string, main: string, pp: bool, pb: bool, super6: bool, amount: int, commission: bool)
    ensures var (s, _) := AfterBet(d, Some(main), pp, pb, super6, amount, commission);
      Dealt(SoloRoom(d, user, main, pp, pb, super6, amount), commission).settle == map[user := s.delta]
  {
    var (p, b, d') := Coup(d);
    SoloSettlement(user, main, pp, pb, super6, amount, OutcomeOf(p, b), commission);
  }

  /** Against any outcome, the room's settlement of the one placed bet is the solo return. */
  lemma SoloSettlement(user: string, main: string, pp: bool, pb: bool, super6: bool, amount: int, o: Outcome, commission: bool)
    ensures Settlement(Placed(map[], user, main, amount, pp, pb, super6), o, commission)
      == map[user := SoloReturn(Some(main), pp, pb, super6, amount, o, commission)]
  {
    var m := PlacedBets(map[], main, amount, pp, pb, super6);
    calc {
      Settlement(Placed(map[], user, main, amount, pp, pb, super6), o, commission);
      { assert Placed(map[], user, main, amount, pp, pb, super6) == map[user := m]; }
      Settlement(map[user := m], o, commission);
      { SettlementOfOne(user, m, o, commission); }
      map[user := UserReturn(m, o, commission)];
      { SoloReturnIsUserReturn(main, pp, pb, super6, amount, o, commission); }
      map[user := SoloReturn(Some(main), pp, pb, super6, amount, o, commission)];
    }
  }

  /**
   * After a bet the round is over; the deal is the shared coup; a stake that is not negative
   * never returns a negative amount; and with no bet flagged and no pick it returns nothing.
   */
  lemma AfterBetSpec(d: Deck, main: Option<string>, pp: bool, pb: bool, super6: bool, amount: int, commission: bool)
    ensures var (s, d') := AfterBet(d, main, pp, pb, super6, amount, commission);
      && !s.inProgress
      && s.player.total == Point(s.player.cards) && s.banker.total == Point(s.banker.cards)
      && d' == d.Skip(|s.player.cards| + |s.banker.cards|)
      && (amount >= 0 ==> s.delta >= 0)
      && (main.None? && !pp && !pb && !super6 ==> s.delta == 0)
  {
    CoupSpec(d);
    var (p, b, d') := Coup(d);
    if main.Some? && amount >= 0 {
      MainReturnWin(UpperAll(main.value), OutcomeOf(p, b).winner, amount, commission);
    }
  }

  class Game {
    var deck: Deck

    /** `new BaccaratGame(decks)`. */
    constructor (d: Deck)
      ensures deck == d
    {
      deck := d;
    }

    /** `bet`. */
    method Bet(main: Option<string>, pp: bool, pb: bool, super6: bool, amount: int, commission: bool) returns (s: State)
      modifies this
      ensures (s, deck) == AfterBet(old(deck), main, pp, pb, super6, amount, commission)
    {
      var p, b, d := DealSides(deck);
      deck := d;
      var winner := if p.total == b.total then TIE else if p.total > b.total then PLAYER else BANKER;
      var settle := 0;
      if main.Some? {
        settle := SwitchMain(UpperAll(main.value), winner, amount, commission);
      }
      var pPair := |p.cards| >= 2 && p.cards[0].rank == p.cards[1].rank;
      var bPair := |b.cards| >= 2 && b.cards[0].rank == b.cards[1].rank;
      var o := Outcome(winner, pPair, bPair, b.total);
      assert o == OutcomeOf(p, b);
      var side := SideStakes(pp, pb, super6, amount, o);
      settle := settle + side;
      assert settle == SoloReturn(main, pp, pb, super6, amount, OutcomeOf(p, b), commission);
      s := State(false, p, b, settle);
    }
  }

  /** The `switch` on the upper-cased pick in `bet`: an unknown pick adds nothing. */
  method SwitchMain(pick: string, winner: Winner, amount: int, commission: bool) returns (settle: int)
    ensures settle == MainReturn(pick, winner, amount, commission)
  {
    settle := 0;
    if pick == "PLAYER" {
      if winner == PLAYER {
        settle := settle + amount * 2;
      } else if winner == TIE {
        settle := settle + amount;
      }
    } else if pick == "BANKER" {
      if winner == BANKER {
        var profit := if commission then BankerProfit(amount, true) else amount;
        settle := settle + amount + profit;
      } else if winner == TIE {
        settle := settle + amount;
      }
    } else if pick == "TIE" {
      if winner == TIE {
        settle := settle + amount * 9;
      }
    }
  }

  /** The side bets' part of `bet`. */
  method SideStakes(pp: bool, pb: bool, super6: bool, amount: int, o: Outcome) returns (settle: int)
    ensures settle == SideReturn(pp, pb, super6, amount, o)
  {
    settle := 0;
    if pp && o.playerPair {
      settle := settle + amount * 12;
    }
    if pb && o.bankerPair {
      settle := settle + amount * 12;
    }
    if super6 && o.winner == BANKER && o.bankerTotal == 6 {
      settle := settle + amount * 13;
    }
  }
}
