/**
 * `SevenPokerGame.start` up to opening the first street: clearing the table, seating the ids
 * it is given, dealing three cards to each and collecting the antes.
 */
module SevenSeating {
  import opened Wrappers
  import opened Collections
  import opened ServerCard
  import opened SevenTable
  import opened SevenRules
  import opened SevenDeal

  // ---------------------------------------------------------------- seating

  /** A fresh seat for each id, a bot when its name says so. */
  function Seats(order: seq<string>): map<string, Side>
  {
    map u | u in order :: NewSide(IsAiUser(u))
  }

  /** A zero bet for each id. */
  function ZeroBets(order: seq<string>): map<string, int>
  {
    map u | u in order :: 0
  }

  /**
   * The table `start` sets up before dealing: a hand in progress on the first street, the ante
   * at least 10, a new deck, the given ids seated in order, and everything else cleared.
   */
  function Begun(users: seq<string>, ante: int, d: Deck): Table
  {
    var order := SeatOrder(users);
    Table(true, 0, 0, Max(10, ante), ZeroBets(order), Seats(order), d, order, -1, None, 0, 0,
          map[], [], map[], map[], [], 0)
  }

  method ClearHand(s: State, ante: int)
    modifies s
    ensures s.View() == old(s.View()).(inProgress := true, stage := 0, pot := 0, ante := Max(10, ante), bets := map[], players := map[])
  {
    s.inProgress, s.stage, s.pot := true, 0, 0;
    s.ante := Max(10, ante);
    s.bets, s.players := map[], map[];
  }

  method ClearSeats(s: State, d: Deck)
    modifies s
    ensures s.View() == old(s.View()).(deck := d, order := [], turnIndex := -1, turn := None, currentBet := 0, raisesThisStreet := 0)
  {
    s.deck, s.order, s.turnIndex := d, [], -1;
    s.turn, s.currentBet, s.raisesThisStreet := None, 0, 0;
  }

  method ClearStreet(s: State)
    modifies s
    ensures s.View() == old(s.View()).(streetContribution := map[], pending := [], payouts := map[], showdownScores := map[], winners := [], settledPot := 0)
  {
    s.streetContribution, s.pending, s.payouts := map[], [], map[];
    s.showdownScores, s.winners, s.settledPot := map[], [], 0;
  }

  /** Seating one more id adds its fresh seat and its zero bet. */
  lemma SeatsSnoc(order: seq<string>, u: string)
    ensures Seats(order + [u]) == Seats(order)[u := NewSide(IsAiUser(u))]
    ensures ZeroBets(order + [u]) == ZeroBets(order)[u := 0]
  {
  }

  /** Seating one more id: nothing when it is blank or already seated, otherwise a fresh seat for it at the end. */
  lemma BegunSnoc(users: seq<string>, x: string, ante: int, d: Deck)
    ensures var t := Begun(users, ante, d); var u := Trim(x);
      Begun(users + [x], ante, d) ==
        if u == [] || u in t.order then t
        else t.(players := t.players[u := NewSide(IsAiUser(u))], bets := t.bets[u := 0], order := t.order + [u])
  {
    SeatOrderSnoc(users, x);
    SeatsSnoc(SeatOrder(users), Trim(x));
  }

  /** `players.put(u, side)`, `bets.put(u, 0)` and `order.add(u)`. */
  method Seat(s: State, u: string)
    modifies s
    ensures s.View() == old(s.View()).(players := old(s.players)[u := NewSide(IsAiUser(u))], bets := old(s.bets)[u := 0], order := old(s.order) + [u])
  {
    s.players := s.players[u := NewSide(IsAiUser(u))];
    s.bets := s.bets[u := 0];
    s.order := s.order + [u];
  }

  /** The setup of `start`, up to dealing: the table is `Begun`, whatever it held before. */
  method Begin(s: State, users: seq<string>, ante: int, d: Deck)
    modifies s
    ensures s.View() == Begun(users, ante, d)
  {
    ClearHand(s, ante);
    ClearSeats(s, d);
    ClearStreet(s);
    assert Seats([]) == map[] && ZeroBets([]) == map[];
    var k := 0;
    while k < |users|
      invariant 0 <= k <= |users|
      invariant s.View() == Begun(users[..k], ante, d)
    {
      var u := Trim(users[k]);
      assert users[..k + 1] == users[..k] + [users[k]];
      BegunSnoc(users[..k], users[k], ante, d);
      if u != [] && u !in s.order {
        Seat(s, u);
      }
      k := k + 1;
    }
    assert users[..|users|] == users;
  }

  /** The table once the antes are in: `Begun`, dealt, and every seat's ante paid. */
  function Started(users: seq<string>, ante: int, d: Deck): Table
  {
    Antes(Initial(Begun(users, ante, d)), SeatOrder(users))
  }

  /** After the initial deal every seat is a fresh seat holding three cards. */
  lemma InitialBegunSeats(users: seq<string>, ante: int, d: Deck)
    ensures var p := Initial(Begun(users, ante, d)).players;
      && (forall u :: u in p <==> u in SeatOrder(users))
      && (forall u :: u in p ==> p[u] == NewSide(IsAiUser(u)).(cards := p[u].cards) && |p[u].cards| == 3)
  {
    SeatOrderSpec(users);
    InitialSpec(Begun(users, ante, d));
  }

  /** Nothing in the hand is paid yet after the initial deal. */
  lemma InitialBegunPaid(users: seq<string>, ante: int, d: Deck)
    ensures Paid(Initial(Begun(users, ante, d)).players) == 0
  {
    var p := Initial(Begun(users, ante, d)).players;
    InitialBegunSeats(users, ante, d);
    assert forall u :: u in Contributions(p) ==> Contributions(p)[u] == 0;
    MapSumZeros(Contributions(p));
  }

  /** After the initial deal the table's invariants hold. */
  lemma InitialBegunValid(users: seq<string>, ante: int, d: Deck)
    ensures Valid(Initial(Begun(users, ante, d)))
  {
    var t := Initial(Begun(users, ante, d));
    InitialBegunSeats(users, ante, d);
    assert Seated(t) by {
      SeatOrderSpec(users);
    }
    assert Accounted(t) by {
      InitialBegunPaid(users, ante, d);
    }
  }

  /** After the antes every seat is a fresh seat with three cards and the ante paid. */
  lemma StartedSeats(users: seq<string>, ante: int, d: Deck)
    ensures var t := Started(users, ante, d);
      && (forall u :: u in t.players <==> u in SeatOrder(users))
      && (forall u :: u in t.players ==> |t.players[u].cards| == 3)
      && (forall u :: u in t.players ==> t.players[u] == NewSide(IsAiUser(u)).(cards := t.players[u].cards, contributed := Max(10, ante)))
  {
    var t1 := Initial(Begun(users, ante, d));
    SeatOrderSpec(users);
    InitialBegunSeats(users, ante, d);
    AntesSeats(t1, SeatOrder(users));
  }

  /**
   * `start` up to opening the first street: the ids in seating order at a table in progress at
   * its first street, the pot holding one ante per seat, and the table's invariants holding
   * (the seats themselves are `StartedSeats`).
   */
  lemma StartedSpec(users: seq<string>, ante: int, d: Deck)
    ensures var t := Started(users, ante, d);
      && Valid(t) && t.inProgress && t.stage == 0
      && t.order == SeatOrder(users)
      && t.pot == Max(10, ante) * |SeatOrder(users)|
  {
    StartedValid(users, ante, d);
    StartedPot(users, ante, d);
  }

  /** The table's invariants hold once the antes are in. */
  lemma StartedValid(users: seq<string>, ante: int, d: Deck)
    ensures Valid(Started(users, ante, d))
  {
    InitialBegunValid(users, ante, d);
    AntesValid(Initial(Begun(users, ante, d)), SeatOrder(users));
  }

  /** The pot holds one ante per seat. */
  lemma StartedPot(users: seq<string>, ante: int, d: Deck)
    ensures Started(users, ante, d).pot == Max(10, ante) * |SeatOrder(users)|
  {
    var t0 := Begun(users, ante, d);
    SeatOrderSpec(users);
    InitialSpec(t0);
    AntesPot(Initial(t0), SeatOrder(users));
  }
}
