/**
 * Opening a hand of `SevenPokerGame`: seating the players, the initial deal, the antes, and the
 * one-card deal of each later street, as methods on `State` proved against the value-level
 * functions `SeatOrder`, `DealTo` and `Antes`.
 */
module SevenDeal {
  import opened Wrappers
  import opened Collections
  import opened ServerCard
  import opened SevenTable
  import opened SevenRules
  import opened SevenGame

  // ---------------------------------------------------------------- dealing

  /** `draw`: `n` cards off the deck, in order, onto the seat's hand. */
  method Draw(s: State, u: string, n: nat)
    modifies s
    requires u in s.players
    ensures s.View() == old(s.View()).(
      players := old(s.players)[u := old(s.players)[u].(cards := old(s.players)[u].cards + old(s.deck).Peek(n))],
      deck := old(s.deck).Skip(n))
  {
    var cards := s.players[u].cards;
    var d := s.deck;
    var i := 0;
    while i < n
      invariant 0 <= i <= n
      invariant cards == old(s.players)[u].cards + old(s.deck).Peek(i)
      invariant d == old(s.deck).Skip(i)
    {
      assert old(s.deck).Peek(i + 1) == old(s.deck).Peek(i) + [d.Top()];
      cards := cards + [d.Top()];
      d := d.Rest();
      i := i + 1;
    }
    s.players := s.players[u := s.players[u].(cards := cards)];
    s.deck := d;
  }

  /**
   * One round of dealing in seat order: `n` cards to every seat (`dealInitial`'s two rounds),
   * or one card to every seat still in the hand (`dealStreetCards`).
   */
  method DealRound(s: State, n: nat, skipFolded: bool)
    modifies s
    ensures s.View() == old(s.View()).(
      players := DealTo(old(s.players), old(s.order), old(s.deck), n, skipFolded).0,
      deck := DealTo(old(s.players), old(s.order), old(s.deck), n, skipFolded).1)
  {
    ghost var t := s.View();
    var k := 0;
    while k < |s.order|
      invariant 0 <= k <= |t.order|
      invariant s.View() == t.(players := DealTo(t.players, t.order[..k], t.deck, n, skipFolded).0,
                               deck := DealTo(t.players, t.order[..k], t.deck, n, skipFolded).1)
    {
      var u := s.order[k];
      assert t.order[..k + 1][..k] == t.order[..k];
      if u in s.players && !(skipFolded && s.players[u].folded) {
        Draw(s, u, n);
      }
      k := k + 1;
    }
    assert t.order[..|t.order|] == t.order;
  }

  /** `dealInitial`: two cards to every seat in seat order, then one more to each. */
  function Initial(t: Table): Table
  {
    var (p1, d1) := DealTo(t.players, t.order, t.deck, 2, false);
    var (p2, d2) := DealTo(p1, t.order, d1, 1, false);
    t.(players := p2, deck := d2)
  }

  method DealInitial(s: State)
    modifies s
    ensures s.View() == Initial(old(s.View()))
  {
    DealRound(s, 2, false);
    DealRound(s, 1, false);
  }

  /**
   * The initial deal gives every seat of `order` three more cards, and changes nothing else
   * about any seat.
   */
  lemma InitialSpec(t: Table)
    requires NoDup(t.order) && forall u :: u in t.players <==> u in t.order
    ensures Initial(t).players.Keys == t.players.Keys
    ensures forall u :: u in t.players ==> |Initial(t).players[u].cards| == |t.players[u].cards| + 3
    ensures forall u :: u in t.players ==> Initial(t).players[u].(cards := t.players[u].cards) == t.players[u]
    ensures forall u :: u in t.players ==> Initial(t).players[u].cards[..|t.players[u].cards|] == t.players[u].cards
  {
    InitialFields(t);
    InitialCards(t);
  }

  /** The initial deal adds no seat and changes nothing of a seat but its cards. */
  lemma InitialFields(t: Table)
    ensures Initial(t).players.Keys == t.players.Keys
    ensures forall u :: u in t.players ==> Initial(t).players[u].(cards := t.players[u].cards) == t.players[u]
  {
    var (p1, d1) := DealTo(t.players, t.order, t.deck, 2, false);
    DealToFields(t.players, t.order, t.deck, 2, false);
    DealToFields(p1, t.order, d1, 1, false);
  }

  /** The initial deal puts three cards on top of every seated player's old ones. */
  lemma InitialCards(t: Table)
    requires NoDup(t.order) && forall u :: u in t.players <==> u in t.order
    ensures forall u :: u in t.players ==> DealtCards(t.players[u], Initial(t).players, u, 3)
  {
    var (p1, d1) := DealTo(t.players, t.order, t.deck, 2, false);
    var p2 := DealTo(p1, t.order, d1, 1, false).0;
    assert Initial(t).players == p2;
    DealToFields(t.players, t.order, t.deck, 2, false);
    DealToCards(t.players, t.order, t.deck, 2, false);
    DealToCards(p1, t.order, d1, 1, false);
    forall u | u in t.players
      ensures DealtCards(t.players[u], p2, u, 3)
    {
      var c0, c1, c2 := t.players[u].cards, p1[u].cards, p2[u].cards;
      assert DealtCards(t.players[u], p1, u, 2) && DealtCards(p1[u], p2, u, 1);
      assert c2[..|c0|] == c2[..|c1|][..|c0|];
    }
  }

  // ---------------------------------------------------------------- antes

  /** `collectAntes` over the seats `us`: each of them at the table pays the ante, in order. */
  function Antes(t: Table, us: seq<string>): (r: Table)
    ensures r == t.(pot := r.pot, players := r.players, bets := r.bets)
    ensures r.players.Keys == t.players.Keys
  {
    if us == [] then t
    else
      var t' := Antes(t, us[..|us| - 1]);
      var u := us[|us| - 1];
      if u in t'.players then Pay(t', u, t'.ante) else t'
  }

  method CollectAntes(s: State)
    modifies s
    ensures s.View() == Antes(old(s.View()), old(s.order))
  {
    ghost var t := s.View();
    var k := 0;
    while k < |s.order|
      invariant 0 <= k <= |t.order|
      invariant s.View() == Antes(t, t.order[..k])
    {
      var u := s.order[k];
      assert t.order[..k + 1][..k] == t.order[..k];
      if u in s.players {
        Contribute(s, u, s.ante);
      }
      k := k + 1;
    }
    assert t.order[..|t.order|] == t.order;
  }

  /** What paying does to one seat. */
  lemma PaySeat(t: Table, u: string, amount: int, x: string)
    requires u in t.players && x in t.players
    ensures Pay(t, u, amount).players[x] ==
      if x == u then t.players[u].(contributed := t.players[u].contributed + Max(0, amount)) else t.players[x]
  {
    var side := t.players[u];
    if amount <= 0 {
      assert side.(contributed := side.contributed + 0) == side;
    } else {
      assert Pay(t, u, amount).players == t.players[u := side.(contributed := side.contributed + amount)];
    }
  }

  /**
   * With seats listed once each, every listed seat pays the ante once (when it is positive),
   * unlisted seats pay nothing, and nothing else about a seat changes.
   */
  lemma {:induction false} AntesSeats(t: Table, us: seq<string>)
    requires NoDup(us)
    ensures forall u :: u in t.players ==>
      Antes(t, us).players[u] == t.players[u].(contributed := t.players[u].contributed + (if u in us then Max(0, t.ante) else 0))
  {
    if us != [] {
      var init := us[..|us| - 1];
      var u := us[|us| - 1];
      assert NoDup(init);
      assert u !in init;
      AntesSeats(t, init);
      var t' := Antes(t, init);
      var a := Max(0, t.ante);
      assert t'.ante == t.ante;
      var r := if u in t.players then Pay(t', u, t.ante) else t';
      assert Antes(t, us) == r;
      forall x | x in t.players
        ensures r.players[x] == t.players[x].(contributed := t.players[x].contributed + (if x in us then a else 0))
      {
        assert x in us <==> x in init || x == u;
        if u in t.players {
          PaySeat(t', u, t.ante, x);
        }
      }
    }
  }

  /** With every listed seat at the table, the pot grows by the ante per listed seat. */
  lemma {:induction false} AntesPot(t: Table, us: seq<string>)
    requires forall u :: u in us ==> u in t.players
    ensures Antes(t, us).pot == t.pot + Max(0, t.ante) * |us|
  {
    if us != [] {
      var init := us[..|us| - 1];
      assert forall x :: x in init ==> x in us;
      AntesPot(t, init);
      var t' := Antes(t, init);
      var u := us[|us| - 1];
      assert t'.ante == t.ante && u in t'.players;
      assert Antes(t, us) == Pay(t', u, t.ante);
      MulSucc(Max(0, t.ante), |init|);
    }
  }

  lemma MulSucc(a: int, n: int)
    ensures a * (n + 1) == a * n + a
  {
  }

  /** Paying the antes keeps every invariant. */
  lemma {:induction false} AntesValid(t: Table, us: seq<string>)
    requires Valid(t)
    ensures Valid(Antes(t, us))
  {
    if us != [] {
      var t' := Antes(t, us[..|us| - 1]);
      AntesValid(t, us[..|us| - 1]);
      if us[|us| - 1] in t'.players {
        PayValid(t', us[|us| - 1], t'.ante);
      }
    }
  }
}
