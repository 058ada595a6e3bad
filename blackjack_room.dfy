/**
 * The server's multi-seat blackjack room (`BlackjackRoom`): every user in the room plays one hand
 * against a shared dealer for the same bet, hitting or standing in any order; once every user
 * has finished, the dealer draws to 17 and every hand is settled. The room is a class whose
 * fields the operations update, each operation proved equal to a function of the room before
 * it, and those functions proved to keep `Valid` and to deal and settle as the source promises.
 */
module BlackjackRoom {
  import opened Collections
  import opened ServerCard
  import opened BlackjackRules

  /** A hand: its cards, the `bestTotal` stored with them, whether it is finished and whether it went bust. */
  datatype Hand = Hand(cards: seq<Card>, total: int, done: bool, bust: bool)

  /** A new hand holding these cards, its total computed. */
  function NewHand(cs: seq<Card>): Hand
  {
    Hand(cs, BestTotal(cs), false, false)
  }

  /**
   * Every field of `BlackjackRoom.State`, with the room's deck. The hands are a map from user id
   * with `order` the order in which the ids were first put into it (the map is a `LinkedHashMap`).
   */
  datatype Table = Table(
    inProgress: bool,
    bet: int,
    hands: map<string, Hand>,
    order: seq<string>,
    dealer: Hand,
    decks: int,
    finished: set<string>,
    deltaTotal: int,
    settle: map<string, int>,
    settlementApplied: bool,
    deck: Deck)

  // ---------------------------------------------------------------- invariant

  /** The stored total is the hand's `bestTotal`. */
  predicate Totalled(h: Hand)
  {
    h.total == BestTotal(h.cards)
  }

  /** The order lists every user holding a hand, once each, and the dealer's total is up to date. */
  ghost predicate Keyed(t: Table)
  {
    && NoDup(t.order)
    && (forall u :: u in t.hands <==> u in t.order)
    && Totalled(t.dealer)
  }

  /**
   * Besides `Keyed`: every total is up to date, a hand is bust exactly when it is over 21 and a
   * bust hand is finished, and `finished` holds exactly the users whose hands are finished.
   */
  ghost predicate Valid(t: Table)
  {
    && Keyed(t)
    && (forall u :: u in t.hands ==> Totalled(t.hands[u]))
    && (forall u :: u in t.hands ==> (t.hands[u].bust <==> t.hands[u].total > 21))
    && (forall u :: u in t.hands ==> (t.hands[u].bust ==> t.hands[u].done))
    && (forall u :: u in t.finished <==> u in t.hands && t.hands[u].done)
  }

  // ---------------------------------------------------------------- start

  /**
   * The dealing loop of `start`: two cards to each user in turn; a user listed twice gets a new
   * hand but keeps the first place in the order.
   */
  function Deal(hands: map<string, Hand>, order: seq<string>, users: seq<string>, d: Deck): (r: (map<string, Hand>, seq<string>, Deck))
    ensures r.2 == d.Skip(2 * |users|)
  {
    if users == [] then (hands, order, d)
    else
      var (h, o, d1) := Deal(hands, order, users[..|users| - 1], d);
      var u := users[|users| - 1];
      (h[u := NewHand(d1.Peek(2))], if u in h then o else o + [u], d1.Skip(2))
  }

  /** The loop of `start`: each user in turn gets a new two-card hand, joining the order once. */
  method DealHands(users: seq<string>, d0: Deck) returns (hands: map<string, Hand>, order: seq<string>, d: Deck)
    ensures (hands, order, d) == Deal(map[], [], users, d0)
  {
    hands, order, d := map[], [], d0;
    var k := 0;
    while k < |users|
      invariant 0 <= k <= |users|
      invariant (hands, order, d) == Deal(map[], [], users[..k], d0)
    {
      assert users[..k + 1][..k] == users[..k];
      var u := users[k];
      var cs := [d.Top(), d.Rest().Top()];
      assert cs == d.Peek(2);
      var total := ComputeBestTotal(cs);
      if u !in hands {
        order := order + [u];
      }
      hands, d := hands[u := Hand(cs, total, false, false)], d.Skip(2);
      k := k + 1;
    }
    assert users[..|users|] == users;
  }

  /** `start`: the round is reset, every user dealt two cards in turn, then the dealer two. */
  function Started(t: Table, users: seq<string>, bet: int): Table
  {
    var (h, o, d) := Deal(map[], [], users, t.deck);
    t.(inProgress := true, bet := bet, deltaTotal := 0, hands := h, order := o, finished := {}, settle := map[],
       settlementApplied := false, dealer := NewHand(d.Peek(2)), deck := d.Skip(2))
  }

  /** Two cards never total more than 21: only two aces reach 22, and one of them is then demoted. */
  lemma TwoCards(cs: seq<Card>)
    requires |cs| == 2
    ensures BestTotal(cs) <= 21
  {
    var a := cs[0];
    assert cs[..1] == [a] && [a][..0] == [];
    assert RawSum([a]) == a.bjValue && Aces([a]) == (if a.rank == ACE then 1 else 0);
    assert RawSum(cs) == a.bjValue + cs[1].bjValue;
    assert Aces(cs) == (if a.rank == ACE then 1 else 0) + (if cs[1].rank == ACE then 1 else 0);
    if RawSum(cs) > 21 {
      assert RawSum(cs) == 22 && Aces(cs) == 2;
      assert Demote(22, 2) == Demote(12, 1) == 12;
    }
  }

  /** A hand as `start` deals it. */
  predicate Fresh(h: Hand)
  {
    |h.cards| == 2 && h == NewHand(h.cards) && h.total <= 21
  }

  /**
   * Dealing keeps the order free of repeats and in step with the map, adds exactly the dealt
   * users, gives each of them a fresh two-card hand and leaves the earlier order in front.
   */
  lemma DealSpec(hands: map<string, Hand>, order: seq<string>, users: seq<string>, d: Deck)
    requires NoDup(order) && (forall u :: u in hands <==> u in order)
    requires forall u :: u in hands ==> Fresh(hands[u])
    ensures var (h, o, _) := Deal(hands, order, users, d);
      && NoDup(o) && (forall u :: u in h <==> u in o)
      && (forall u :: u in h <==> u in hands || u in users)
      && (forall u :: u in h ==> Fresh(h[u]))
      && |o| >= |order| && o[..|order|] == order
  {
    DealHandsSpec(hands, order, users, d);
    DealOrderSpec(hands, order, users, d);
  }

  /** Dealing gives a fresh hand to every user and keeps the hands already there. */
  lemma {:induction false} DealHandsSpec(hands: map<string, Hand>, order: seq<string>, users: seq<string>, d: Deck)
    requires forall u :: u in hands ==> Fresh(hands[u])
    ensures var h := Deal(hands, order, users, d).0;
      && (forall u :: u in h <==> u in hands || u in users)
      && (forall u :: u in h ==> Fresh(h[u]))
  {
    if users != [] {
      var init := users[..|users| - 1];
      DealHandsSpec(hands, order, init, d);
      var (h, o, d1) := Deal(hands, order, init, d);
      TwoCards(d1.Peek(2));
      assert forall x :: x in users <==> x in init || x == users[|users| - 1];
    }
  }

  /** Dealing appends each new user to the order once, so the order keeps listing the hands once each. */
  lemma {:induction false} DealOrderSpec(hands: map<string, Hand>, order: seq<string>, users: seq<string>, d: Deck)
    requires NoDup(order) && (forall u :: u in hands <==> u in order)
    ensures var (h, o, _) := Deal(hands, order, users, d);
      && NoDup(o) && (forall u :: u in h <==> u in o)
      && |o| >= |order| && o[..|order|] == order
  {
    if users != [] {
      var init := users[..|users| - 1];
      DealOrderSpec(hands, order, init, d);
      var (h, o, d1) := Deal(hands, order, init, d);
      var u := users[|users| - 1];
      if u !in h {
        var o' := o + [u];
        assert o'[..|o|] == o && o'[..|order|] == o[..|order|];
        NoDupSnoc(o, u);
      }
    }
  }

  /**
   * A started room is running and valid, dealer and users each hold two cards, the users
   * holding hands are exactly the ones listed, each once in the order, and nothing is finished
   * or settled.
   */
  lemma StartedSpec(t: Table, users: seq<string>, bet: int)
    ensures var t' := Started(t, users, bet);
      && Valid(t') && t'.inProgress && t'.bet == bet && t'.deltaTotal == 0
      && (forall u :: u in t'.hands <==> u in users)
      && (forall u :: u in t'.hands ==> |t'.hands[u].cards| == 2 && !t'.hands[u].done)
      && |t'.dealer.cards| == 2
      && t'.finished == {} && t'.settle == map[] && !t'.settlementApplied
      && t'.deck == t.deck.Skip(2 * |users| + 2)
  {
    DealSpec(map[], [], users, t.deck);
    var (h, o, d) := Deal(map[], [], users, t.deck);
    TwoCards(d.Peek(2));
  }

  // ---------------------------------------------------------------- settling

  /** What each hand returns against the dealer's total. */
  function Returns(hands: map<string, Hand>, dealerTotal: int, bet: int): (r: map<string, int>)
    ensures r.Keys == hands.Keys
  {
    map u | u in hands :: Returned(hands[u].total, dealerTotal, bet)
  }

  /**
   * `settleMaybe`: nothing while fewer users have finished than hold hands; otherwise the
   * dealer draws to 17, every hand is settled, and the round ends.
   */
  ghost function Settled(t: Table): Table
  {
    if |t.finished| < |t.hands| then t
    else
      var (cs, d) := DealerDraws(t.dealer.cards, t.deck);
      var r := Returns(t.hands, BestTotal(cs), t.bet);
      t.(dealer := t.dealer.(cards := cs, total := BestTotal(cs)), deck := d, settle := r, deltaTotal := MapSum(r),
         inProgress := false)
  }

  /** A subset at least as large as its superset is the whole of it. */
  lemma SubsetFull<T>(a: set<T>, b: set<T>)
    requires a <= b && |a| >= |b|
    ensures a == b
  {
    if a != b {
      var x :| x in b && x !in a;
      assert a <= b - {x};
      SubsetSize(a, b - {x});
    }
  }

  lemma {:induction false} SubsetSize<T>(a: set<T>, b: set<T>)
    requires a <= b
    ensures |a| <= |b|
    decreases |b|
  {
    if a != {} {
      var x :| x in a;
      SubsetSize(a - {x}, b - {x});
    }
  }

  /** In a valid room, as many users have finished as hold hands exactly when every hand is finished. */
  lemma AllFinished(t: Table)
    requires Valid(t)
    ensures |t.finished| >= |t.hands| <==> forall u :: u in t.hands ==> t.hands[u].done
  {
    assert t.finished <= t.hands.Keys;
    if |t.finished| >= |t.hands| {
      SubsetFull(t.finished, t.hands.Keys);
    }
    if forall u :: u in t.hands ==> t.hands[u].done {
      assert t.finished == t.hands.Keys;
    }
  }

  /** Settling happens only once every hand is finished. */
  lemma SettledWaits(t: Table)
    requires Valid(t) && exists u :: u in t.hands && !t.hands[u].done
    ensures Settled(t) == t
  {
    AllFinished(t);
  }

  /** Settling keeps the room valid and leaves the hands, the order and the finished users as they were. */
  lemma SettledValid(t: Table)
    requires Valid(t)
    ensures Valid(Settled(t))
    ensures Settled(t).hands == t.hands && Settled(t).order == t.order && Settled(t).finished == t.finished
  {
    var t' := Settled(t);
    SettledHands(t);
    assert Totalled(t'.dealer);
    assert Keyed(t');
  }

  /**
   * Once every hand is finished the round is over, and the dealer holds 17 or more after drawing
   * only from the deck.
   */
  lemma SettledDealer(t: Table)
    requires Valid(t) && forall u :: u in t.hands ==> t.hands[u].done
    ensures var t' := Settled(t);
      && !t'.inProgress
      && BestTotal(t'.dealer.cards) >= 17 && t'.dealer.total == BestTotal(t'.dealer.cards)
      && |t'.dealer.cards| >= |t.dealer.cards|
      && t'.dealer.cards == t.dealer.cards + t.deck.Peek(|t'.dealer.cards| - |t.dealer.cards|)
  {
    AllFinished(t);
    DealerDrawsSpec(t.dealer.cards, t.deck);
  }

  /**
   * Once every hand is finished, every user holding a hand has a settle value, that value is what
   * the hand returns against the dealer's final total (nothing on a bust or a loss, the bet on a
   * push, twice the bet on a win), and `deltaTotal` is their sum.
   */
  lemma SettledReturns(t: Table)
    requires Valid(t) && forall u :: u in t.hands ==> t.hands[u].done
    ensures var t' := Settled(t);
      && t'.settle.Keys == t.hands.Keys
      && (forall u :: u in t'.settle ==> t'.settle[u] == Returned(t.hands[u].total, t'.dealer.total, t.bet))
      && t'.deltaTotal == MapSum(t'.settle)
  {
    AllFinished(t);
  }

  /** Settle values are never negative when the bet is not, and at most twice the bet. */
  lemma ReturnsBounds(hands: map<string, Hand>, dealerTotal: int, bet: int)
    requires bet >= 0
    ensures forall u :: u in hands ==> 0 <= Returns(hands, dealerTotal, bet)[u] <= 2 * bet
  {
  }

  // ---------------------------------------------------------------- hit and stand

  /** Whether `user` may act: the round runs and the user holds a hand not yet finished. */
  predicate MayAct(t: Table, user: string)
  {
    t.inProgress && user in t.hands && !t.hands[user].done
  }

  /** The hand after a hit: one more card, the total recomputed, and bust and finished over 21. */
  function HitHand(h: Hand, c: Card): (h': Hand)
    ensures h'.cards == h.cards + [c] && Totalled(h')
    ensures h'.bust == (BestTotal(h'.cards) > 21 || h.bust)
    ensures h'.done == (BestTotal(h'.cards) > 21 || h.done)
  {
    var cs := h.cards + [c];
    var h1 := h.(cards := cs, total := BestTotal(cs));
    if h1.total > 21 then h1.(bust := true, done := true) else h1
  }

  /** The user's hand replaced, the user finished when the new hand is, and the deck moved on to `d`. */
  function Put(t: Table, user: string, h: Hand, d: Deck): Table
  {
    t.(hands := t.hands[user := h], finished := if h.done then t.finished + {user} else t.finished, deck := d)
  }

  /** Settling never touches the hands or the finished users. */
  lemma SettledHands(t: Table)
    ensures Settled(t).hands == t.hands && Settled(t).finished == t.finished && Settled(t).order == t.order
  {
  }

  lemma PutKeyed(t: Table, user: string, h: Hand, d: Deck)
    requires Keyed(t) && user in t.hands
    ensures Keyed(Put(t, user, h, d))
  {
  }

  /** Replacing an unfinished hand by one whose total, bust and finished flags agree keeps the room valid. */
  lemma PutValid(t: Table, user: string, h: Hand, d: Deck)
    requires Valid(t) && MayAct(t, user)
    requires Totalled(h) && (h.bust <==> h.total > 21) && (h.bust ==> h.done)
    ensures Valid(Put(t, user, h, d))
  {
  }

  /** `hit`: one more card to the user's hand; a total over 21 busts and finishes it, and the room may settle. */
  ghost function AfterHit(t: Table, user: string): Table
  {
    if !MayAct(t, user) then t
    else
      var h := HitHand(t.hands[user], t.deck.Top());
      var t1 := Put(t, user, h, t.deck.Rest());
      if h.bust then Settled(t1) else t1
  }

  /** `stand`: the user's hand is finished, and the room may settle. */
  ghost function AfterStand(t: Table, user: string): Table
  {
    if !MayAct(t, user) then t
    else Settled(Put(t, user, t.hands[user].(done := true), t.deck))
  }

  /** A hit keeps the room valid, and leaves it unchanged unless the user may act. */
  lemma HitValid(t: Table, user: string)
    requires Valid(t)
    ensures Valid(AfterHit(t, user))
    ensures !MayAct(t, user) ==> AfterHit(t, user) == t
  {
    if MayAct(t, user) {
      var h := HitHand(t.hands[user], t.deck.Top());
      PutValid(t, user, h, t.deck.Rest());
      SettledValid(Put(t, user, h, t.deck.Rest()));
    }
  }

  /** When the user may act, a hit gives the user's hand the next card and changes no other hand. */
  lemma HitSpec(t: Table, user: string)
    requires Valid(t) && MayAct(t, user)
    ensures var t' := AfterHit(t, user);
      && t'.hands.Keys == t.hands.Keys
      && t'.hands[user].cards == t.hands[user].cards + [t.deck.Top()]
      && (forall u :: u in t.hands && u != user ==> t'.hands[u] == t.hands[u])
  {
    var h := HitHand(t.hands[user], t.deck.Top());
    var t1 := Put(t, user, h, t.deck.Rest());
    SettledHands(t1);
    assert AfterHit(t, user).hands == t1.hands == t.hands[user := h];
  }

  /**
   * When the user may act, the hand a hit leaves is bust, finished and its user among the finished
   * exactly when its new total is over 21.
   */
  lemma HitBust(t: Table, user: string)
    requires Valid(t) && MayAct(t, user)
    ensures var t' := AfterHit(t, user);
      && user in t'.hands
      && (t'.hands[user].bust <==> BestTotal(t'.hands[user].cards) > 21)
      && (t'.hands[user].done <==> t'.hands[user].bust)
      && (user in t'.finished <==> t'.hands[user].bust)
  {
    assert !t.hands[user].bust;
    SettledHands(Put(t, user, HitHand(t.hands[user], t.deck.Top()), t.deck.Rest()));
  }

  /** A stand keeps the room valid, and leaves it unchanged unless the user may act. */
  lemma StandValid(t: Table, user: string)
    requires Valid(t)
    ensures Valid(AfterStand(t, user))
    ensures !MayAct(t, user) ==> AfterStand(t, user) == t
  {
    if MayAct(t, user) {
      var h := t.hands[user].(done := true);
      PutValid(t, user, h, t.deck);
      SettledValid(Put(t, user, h, t.deck));
    }
  }

  /**
   * When the user may act, a stand finishes the user's hand with its cards unchanged, puts the
   * user among the finished, and changes no other hand.
   */
  lemma StandSpec(t: Table, user: string)
    requires Valid(t) && MayAct(t, user)
    ensures var t' := AfterStand(t, user);
      && t'.hands.Keys == t.hands.Keys
      && t'.hands[user] == t.hands[user].(done := true) && user in t'.finished
      && (forall u :: u in t.hands && u != user ==> t'.hands[u] == t.hands[u])
  {
    SettledHands(Put(t, user, t.hands[user].(done := true), t.deck));
  }

  /** What the users `us` return, entered one by one. */
  function ReturnsOver(us: seq<string>, hands: map<string, Hand>, total: int, bet: int): (r: map<string, int>)
    requires forall i :: 0 <= i < |us| ==> us[i] in hands
    ensures forall u :: u in r <==> u in us
    ensures forall u :: u in r ==> r[u] == Returned(hands[u].total, total, bet)
  {
    if us == [] then map[]
    else
      var u := us[|us| - 1];
      ReturnsOver(us[..|us| - 1], hands, total, bet)[u := Returned(hands[u].total, total, bet)]
  }

  /** The settling loop of `settleMaybe`, over the hands in order: each hand's return, and their sum. */
  method SettleHands(order: seq<string>, hands: map<string, Hand>, total: int, bet: int) returns (r: map<string, int>, sum: int)
    requires NoDup(order) && forall u :: u in hands <==> u in order
    ensures r == Returns(hands, total, bet) && sum == MapSum(r)
  {
    assert forall i :: 0 <= i < |order| ==> order[i] in hands;
    sum := 0;
    r := map[];
    var k := 0;
    while k < |order|
      invariant 0 <= k <= |order|
      invariant r == ReturnsOver(order[..k], hands, total, bet)
      invariant sum == SumOver(order[..k], hands, total, bet)
    {
      var u := order[k];
      SettleHandsStep(order, k, hands, total, bet);
      var x := ReturnOf(hands[u].total, total, bet);
      r := r[u := x];
      sum := sum + x;
      k := k + 1;
    }
    assert order[..|order|] == order;
    SettleHandsAll(order, hands, total, bet);
  }

  /** One more user entered: its return is added to the map and to the sum. */
  lemma SettleHandsStep(order: seq<string>, k: int, hands: map<string, Hand>, total: int, bet: int)
    requires 0 <= k < |order| && forall i :: 0 <= i < |order| ==> order[i] in hands
    ensures forall i :: 0 <= i < k ==> order[..k][i] in hands
    ensures ReturnsOver(order[..k + 1], hands, total, bet)
      == ReturnsOver(order[..k], hands, total, bet)[order[k] := Returned(hands[order[k]].total, total, bet)]
    ensures SumOver(order[..k + 1], hands, total, bet)
      == SumOver(order[..k], hands, total, bet) + Returned(hands[order[k]].total, total, bet)
  {
    assert order[..k + 1][..k] == order[..k];
  }

  /** Over the whole order, entering the returns one by one builds the settle map and sums it. */
  lemma SettleHandsAll(order: seq<string>, hands: map<string, Hand>, total: int, bet: int)
    requires NoDup(order) && forall u :: u in hands <==> u in order
    ensures ReturnsOver(order, hands, total, bet) == Returns(hands, total, bet)
    ensures SumOver(order, hands, total, bet) == MapSum(Returns(hands, total, bet))
  {
    MapsAgree(ReturnsOver(order, hands, total, bet), hands, total, bet);
    SumOverMapSum(order, hands, total, bet);
  }

  /** The sum of what the users `us` return, entered one by one. */
  function SumOver(us: seq<string>, hands: map<string, Hand>, total: int, bet: int): int
    requires forall i :: 0 <= i < |us| ==> us[i] in hands
  {
    if us == [] then 0
    else
      var u := us[|us| - 1];
      SumOver(us[..|us| - 1], hands, total, bet) + Returned(hands[u].total, total, bet)
  }

  /** With every user listed once, the running sum is the sum of the settle map. */
  lemma {:induction false} SumOverMapSum(us: seq<string>, hands: map<string, Hand>, total: int, bet: int)
    requires NoDup(us) && forall i :: 0 <= i < |us| ==> us[i] in hands
    ensures SumOver(us, hands, total, bet) == MapSum(ReturnsOver(us, hands, total, bet))
  {
    if us != [] {
      var init := us[..|us| - 1];
      var u := us[|us| - 1];
      assert NoDup(init) && u !in init;
      SumOverMapSum(init, hands, total, bet);
      MapSumUpdate(ReturnsOver(init, hands, total, bet), u, Returned(hands[u].total, total, bet));
    }
  }

  lemma MapsAgree(r: map<string, int>, hands: map<string, Hand>, total: int, bet: int)
    requires forall u :: u in r <==> u in hands
    requires forall u :: u in r ==> r[u] == Returned(hands[u].total, total, bet)
    ensures r == Returns(hands, total, bet)
  {
  }

  /** The body of the settling loop: what one hand returns. */
  method ReturnOf(handTotal: int, total: int, bet: int) returns (x: int)
    ensures x == Returned(handTotal, total, bet)
  {
    x := 0;
    if handTotal > 21 {
      x := 0;
    } else if total > 21 || handTotal > total {
      x := bet * 2;
    } else if handTotal == total {
      x := bet;
    }
  }

  // ---------------------------------------------------------------- the room

  class Room {
    var inProgress: bool
    var bet: int
    var hands: map<string, Hand>
    var order: seq<string>
    var dealer: Hand
    var decks: int
    var finished: set<string>
    var deltaTotal: int
    var settle: map<string, int>
    var settlementApplied: bool
    var deck: Deck

    /** `new BlackjackRoom(decks)`: an idle room with no hands; `decks` is kept as given. */
    constructor (decks: int, d: Deck)
      ensures View() == Table(false, 0, map[], [], Hand([], 0, false, false), decks, {}, 0, map[], false, d)
      ensures Valid(View())
    {
      inProgress, bet, hands, order, dealer, this.decks := false, 0, map[], [], Hand([], 0, false, false), decks;
      finished, deltaTotal, settle, settlementApplied, deck := {}, 0, map[], false, d;
    }

    function View(): Table
      reads this
    {
      Table(inProgress, bet, hands, order, dealer, decks, finished, deltaTotal, settle, settlementApplied, deck)
    }

    /** The fields `start` clears before dealing. */
    method Reset(bet: int)
      modifies this
      ensures View() == old(View()).(inProgress := true, bet := bet, deltaTotal := 0, hands := map[], order := [],
        finished := {}, settle := map[], settlementApplied := false)
    {
      inProgress, this.bet, deltaTotal, hands, order := true, bet, 0, map[], [];
      finished, settle, settlementApplied := {}, map[], false;
    }

    /** `start`. */
    method Start(users: seq<string>, bet: int)
      modifies this
      ensures View() == Started(old(View()), users, bet)
    {
      Reset(bet);
      var h, o, d := DealHands(users, deck);
      var cs := [d.Top(), d.Rest().Top()];
      assert cs == d.Peek(2);
      var total := ComputeBestTotal(cs);
      hands, order, dealer, deck := h, o, Hand(cs, total, false, false), d.Skip(2);
    }

    /** The dealer's draws in `settleMaybe`: the dealer's cards and the deck once the total reaches 17. */
    method DealerPlay() returns (cs: seq<Card>, d: Deck, total: int)
      requires Totalled(dealer)
      ensures (cs, d) == DealerDraws(dealer.cards, deck) && total == BestTotal(cs)
    {
      cs, d := dealer.cards, deck;
      total := dealer.total;
      while total < 17
        invariant total == BestTotal(cs)
        invariant DealerDraws(cs, d) == DealerDraws(dealer.cards, deck)
        decreases 17 - HardSum(cs)
      {
        BestTotalSpec(cs);
        HardSumGrows(cs, d.Top());
        cs, d := cs + [d.Top()], d.Rest();
        total := ComputeBestTotal(cs);
      }
    }

    /** `settleMaybe`. */
    method SettleMaybe()
      modifies this
      requires Keyed(View())
      ensures View() == Settled(old(View()))
    {
      if |finished| < |hands| {
        return;
      }
      var cs, d, total := DealerPlay();
      var r, sum := SettleHands(order, hands, total, bet);
      dealer, deck, settle, deltaTotal, inProgress := dealer.(cards := cs, total := total), d, r, sum, false;
    }

    /** `hit`. */
    method Hit(user: string)
      modifies this
      requires Valid(View())
      ensures View() == AfterHit(old(View()), user)
    {
      if !inProgress || user !in hands || hands[user].done {
        return;
      }
      ghost var t := View();
      var h := hands[user];
      var cs := h.cards + [deck.Top()];
      var total := ComputeBestTotal(cs);
      h := h.(cards := cs, total := total);
      if total > 21 {
        h := h.(bust := true, done := true);
      }
      assert h == HitHand(t.hands[user], t.deck.Top());
      hands, deck := hands[user := h], deck.Rest();
      if total > 21 {
        finished := finished + {user};
      }
      assert View() == Put(t, user, h, t.deck.Rest());
      if total > 21 {
        PutKeyed(t, user, h, t.deck.Rest());
        SettleMaybe();
      }
    }

    /** `stand`. */
    method Stand(user: string)
      modifies this
      requires Valid(View())
      ensures View() == AfterStand(old(View()), user)
    {
      if !inProgress || user !in hands || hands[user].done {
        return;
      }
      ghost var t := View();
      hands := hands[user := hands[user].(done := true)];
      finished := finished + {user};
      PutKeyed(t, user, t.hands[user].(done := true), t.deck);
      SettleMaybe();
    }
  }
}
