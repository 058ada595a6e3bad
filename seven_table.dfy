/**
 * The state of the server's seven-card stud table (`SevenPokerGame.State` and `Side`), its
 * street table, and the value-level functions the game's methods are specified by: which
 * seats are still in the hand, the pot accounting, the cyclic seat order, and dealing.
 */
module SevenTable {
  import opened Wrappers
  import opened Collections
  import opened PokerScore
  import opened ServerCard

  const MaxRaisesPerStreet := 3

  /** `STREETS`: 3rd to 7th street, with the bet-unit multiplier of each. */
  const StreetCount := 5
  const Multipliers: seq<int> := [1, 1, 2, 2, 2]
  /** Whether `advanceStreetOrFinish` deals a card when it opens the street (3rd street is dealt by `start`). */
  const DealsCard: seq<bool> := [false, true, true, true, true]
  /** Whether the street's card is dealt face up. */
  const FaceUpCard: seq<bool> := [true, true, true, true, false]

  /** The actions a seat can request and the outcomes recorded for it. */
  datatype ActionType = NONE | BET | RAISE | CALL | CHECK | FOLD | WIN | LOSE

  /** What a handler did: the action taken and the chips paid. */
  datatype ActionResult = ActionResult(kind: ActionType, paid: int)

  /** What a bot seat wants to do. */
  datatype Decision = Decision(kind: ActionType, amount: int)

  /** One seat: its cards, chips paid into the pot this hand, and how the hand ended for it. */
  datatype Side = Side(
    cards: seq<Card>,
    contributed: int,
    ai: bool,
    folded: bool,
    winner: bool,
    payout: Option<int>,
    showdownScore: Option<HandScore>)

  /** A fresh seat (`new Side()` with its `ai` flag set). */
  function NewSide(ai: bool): Side
  {
    Side([], 0, ai, false, false, None, None)
  }

  /** Every field of `State`, as one value. */
  datatype Table = Table(
    inProgress: bool,
    stage: int,
    pot: int,
    ante: int,
    bets: map<string, int>,
    players: map<string, Side>,
    deck: Deck,
    order: seq<string>,
    turnIndex: int,
    turn: Option<string>,
    currentBet: int,
    raisesThisStreet: int,
    streetContribution: map<string, int>,
    pending: seq<string>,
    payouts: map<string, int>,
    showdownScores: map<string, HandScore>,
    winners: seq<string>,
    settledPot: int)

  /**
   * `SevenPokerGame.State`. The insertion-ordered `pending` set is a sequence without repeats;
   * the deck is the oracle of `ServerCard`.
   */
  class State {
    var inProgress: bool
    var stage: int
    var pot: int
    var ante: int
    var bets: map<string, int>
    var players: map<string, Side>
    var deck: Deck
    var order: seq<string>
    var turnIndex: int
    var turn: Option<string>
    var currentBet: int
    var raisesThisStreet: int
    var streetContribution: map<string, int>
    var pending: seq<string>
    var payouts: map<string, int>
    var showdownScores: map<string, HandScore>
    var winners: seq<string>
    var settledPot: int

    /** `createState`: an idle table with no seats. */
    constructor (d: Deck)
      ensures View() == Table(false, 0, 0, 0, map[], map[], d, [], -1, None, 0, 0, map[], [], map[], map[], [], 0)
    {
      inProgress, stage, pot, ante := false, 0, 0, 0;
      bets, players, deck, order := map[], map[], d, [];
      turnIndex, turn, currentBet, raisesThisStreet := -1, None, 0, 0;
      streetContribution, pending, payouts, showdownScores := map[], [], map[], map[];
      winners, settledPot := [], 0;
    }

    function View(): Table
      reads this
    {
      Table(inProgress, stage, pot, ante, bets, players, deck, order, turnIndex, turn, currentBet,
        raisesThisStreet, streetContribution, pending, payouts, showdownScores, winners, settledPot)
    }
  }

  // ---------------------------------------------------------------- seats

  /** A seat that is at the table and has not folded. */
  predicate Active(players: map<string, Side>, u: string)
  {
    u in players && !players[u].folded
  }

  /** The seats of `us`, in order, that are still in the hand. */
  function ActiveIn(us: seq<string>, players: map<string, Side>): seq<string>
  {
    if us == [] then [] else ActiveIn(us[..|us| - 1], players) + (if Active(players, us[|us| - 1]) then [us[|us| - 1]] else [])
  }

  lemma {:induction false} ActiveInSpec(us: seq<string>, players: map<string, Side>)
    ensures forall x :: x in ActiveIn(us, players) <==> x in us && Active(players, x)
    ensures |ActiveIn(us, players)| <= |us|
    ensures NoDup(us) ==> NoDup(ActiveIn(us, players))
  {
    if us != [] {
      var init := us[..|us| - 1];
      ActiveInSpec(init, players);
      assert us == init + [us[|us| - 1]];
      if NoDup(us) {
        assert NoDup(init);
        assert us[|us| - 1] !in init;
      }
    }
  }

  /** Appending one seat appends it to the active seats when it is active. */
  lemma ActiveInSnoc(us: seq<string>, u: string, players: map<string, Side>)
    ensures ActiveIn(us + [u], players) == ActiveIn(us, players) + (if Active(players, u) then [u] else [])
  {
    assert (us + [u])[..|us|] == us;
  }

  /** The first seat in `us` still in the hand (`settleByFold`'s winner). */
  function FirstActive(us: seq<string>, players: map<string, Side>): (w: Option<string>)
    ensures w.Some? ==> w.value in us && Active(players, w.value)
    ensures w.None? <==> forall i :: 0 <= i < |us| ==> !Active(players, us[i])
  {
    if us == [] then None else if Active(players, us[0]) then Some(us[0]) else FirstActive(us[1..], players)
  }

  /** The first active seat of `us` is the head of its active seats. */
  lemma {:induction false} FirstActiveIsHead(us: seq<string>, players: map<string, Side>)
    ensures FirstActive(us, players).Some? <==> ActiveIn(us, players) != []
    ensures FirstActive(us, players).Some? ==> FirstActive(us, players).value == ActiveIn(us, players)[0]
  {
    if us != [] {
      var u, rest := us[0], us[1..];
      FirstActiveIsHead(rest, players);
      ActiveInCons(u, rest, players);
      assert [u] + rest == us;
      var a := ActiveIn(us, players);
      if Active(players, u) {
        assert a == [u] + ActiveIn(rest, players);
      } else {
        assert a == ActiveIn(rest, players);
      }
    }
  }

  lemma {:induction false} ActiveInCons(u: string, us: seq<string>, players: map<string, Side>)
    ensures ActiveIn([u] + us, players) == (if Active(players, u) then [u] else []) + ActiveIn(us, players)
    decreases |us|
  {
    if us != [] {
      var init := us[..|us| - 1];
      ActiveInCons(u, init, players);
      assert ([u] + us)[..|us|] == [u] + init;
    } else {
      assert ActiveIn([], players) == [];
      assert ([u] + us)[..0] == [];
    }
  }

  /** `getOrDefault(user, 0)` on the street contributions. */
  function StreetPaid(sc: map<string, int>, u: string): int
  {
    if u in sc then sc[u] else 0
  }

  /** `pending.remove(u)`. */
  function Without(p: seq<string>, u: string): (r: seq<string>)
    ensures forall x :: x in r <==> x in p && x != u
    ensures |r| <= |p|
    ensures NoDup(p) ==> NoDup(r)
  {
    if p == [] then [] else
      var rest := Without(p[1..], u);
      assert forall x :: x in p[1..] ==> x in p;
      if p[0] == u then rest else
        assert NoDup(p) ==> p[0] !in p[1..] && NoDup(p[1..]);
        [p[0]] + rest
  }

  /** `order.indexOf(u)`. */
  function IndexOf(us: seq<string>, u: string): (i: int)
    ensures -1 <= i < |us|
    ensures i == -1 <==> u !in us
    ensures i >= 0 ==> us[i] == u && forall j :: 0 <= j < i ==> us[j] != u
  {
    if us == [] then -1 else if us[0] == u then 0 else
      var i := IndexOf(us[1..], u);
      if i == -1 then -1 else i + 1
  }

  /** In a list without repeats, the seat at an index has that index. */
  lemma IndexOfNoDup(us: seq<string>, i: int)
    requires NoDup(us) && 0 <= i < |us|
    ensures IndexOf(us, us[i]) == i
  {
  }

  // ---------------------------------------------------------------- chips

  /** The chips each seat has paid into the pot this hand. */
  function Contributions(players: map<string, Side>): map<string, int>
  {
    map u | u in players :: players[u].contributed
  }

  /** The sum of all `contributed`. */
  ghost function Paid(players: map<string, Side>): int
  {
    MapSum(Contributions(players))
  }

  /** Paying `amount` more for one seat raises the total by `amount`. */
  lemma PaidAdd(players: map<string, Side>, u: string, amount: int)
    requires u in players
    ensures Paid(players[u := players[u].(contributed := players[u].contributed + amount)]) == Paid(players) + amount
  {
    var p' := players[u := players[u].(contributed := players[u].contributed + amount)];
    assert Contributions(p') == Contributions(players)[u := players[u].contributed + amount];
    MapSumUpdate(Contributions(players), u, players[u].contributed + amount);
  }

  /** A change to a seat that keeps its `contributed` keeps the total. */
  lemma PaidSame(players: map<string, Side>, u: string, side: Side)
    requires u in players && side.contributed == players[u].contributed
    ensures Paid(players[u := side]) == Paid(players)
  {
    assert Contributions(players[u := side]) == Contributions(players);
  }

  /** A new seat with nothing paid keeps the total. */
  lemma PaidNewSeat(players: map<string, Side>, u: string, side: Side)
    requires u !in players && side.contributed == 0
    ensures Paid(players[u := side]) == Paid(players)
  {
    assert Contributions(players[u := side]) == Contributions(players)[u := 0];
    MapSumUpdate(Contributions(players), u, 0);
  }

  // ---------------------------------------------------------------- seat order

  /** The seats visited by offsets 0, 1, ..., |order| - 1 from index `j`. */
  function Rotate(order: seq<string>, j: int): (r: seq<string>)
    requires 0 <= j <= |order|
    ensures |r| == |order|
  {
    order[j..] + order[..j]
  }

  /** Offset `k` from `j` is index `(j + k) % |order|`. */
  lemma RotateIndex(order: seq<string>, j: int, k: int)
    requires 0 <= j < |order| && 0 <= k < |order|
    ensures Rotate(order, j)[k] == order[(j + k) % |order|]
  {
    var n, x := |order|, j + k;
    if x < n {
      ModSmall(x, n);
      assert Rotate(order, j)[k] == order[j..][k];
    } else {
      ModWrap(x, n);
      assert Rotate(order, j)[k] == order[..j][x - n];
    }
  }

  lemma ModSmall(x: int, n: int)
    requires 0 <= x < n
    ensures x % n == x
  {
  }

  lemma ModWrap(x: int, n: int)
    requires 0 < n <= x < 2 * n
    ensures x % n == x - n
  {
    assert x == n + (x - n);
  }

  /** A rotation has the same seats, and no repeats when the order has none. */
  lemma RotateSame(order: seq<string>, j: int)
    requires 0 <= j <= |order|
    ensures multiset(Rotate(order, j)) == multiset(order)
    ensures forall x :: x in Rotate(order, j) <==> x in order
    ensures NoDup(order) ==> NoDup(Rotate(order, j))
  {
    assert order == order[..j] + order[j..];
    assert multiset(Rotate(order, j)) == multiset(order);
    forall x
      ensures x in Rotate(order, j) <==> x in order
    {
      assert x in Rotate(order, j) <==> x in multiset(Rotate(order, j));
      assert x in order <==> x in multiset(order);
    }
    if NoDup(order) {
      NoDupPermutation(order, Rotate(order, j));
    }
  }

  /** The seat at index `idx` may take the turn: it is pending and still in the hand. */
  predicate Eligible(order: seq<string>, pending: seq<string>, players: map<string, Side>, idx: int)
    requires 0 <= idx < |order|
  {
    order[idx] in pending && Active(players, order[idx])
  }

  /** The seat at offset `j` after index `start`, cyclically, may take the turn. */
  predicate EligibleAfter(order: seq<string>, pending: seq<string>, players: map<string, Side>, start: int, j: int)
    requires 0 <= start < |order|
  {
    Eligible(order, pending, players, (start + j) % |order|)
  }

  /**
   * The search of `advanceTurnFrom`, by offset: the first offset among `k, k + 1, ..., |order|`
   * whose seat may take the turn, or `|order| + 1` when there is none.
   */
  function NextOffset(order: seq<string>, pending: seq<string>, players: map<string, Side>, start: int, k: int): (m: int)
    requires 0 <= start < |order| && 1 <= k <= |order| + 1
    ensures k <= m <= |order| + 1
    ensures m <= |order| ==> EligibleAfter(order, pending, players, start, m)
    ensures forall j :: k <= j < m ==> !EligibleAfter(order, pending, players, start, j)
    decreases |order| + 1 - k
  {
    if k > |order| then k
    else if EligibleAfter(order, pending, players, start, k) then k
    else NextOffset(order, pending, players, start, k + 1)
  }

  /** The index `advanceTurnFrom` moves the turn to, or -1. */
  function NextSeat(order: seq<string>, pending: seq<string>, players: map<string, Side>, start: int): (idx: int)
    requires 0 <= start < |order|
    ensures -1 <= idx < |order|
  {
    var m := NextOffset(order, pending, players, start, 1);
    if m > |order| then -1 else (start + m) % |order|
  }

  /** Offsets 1 ..= |order| from any index reach every index: the search misses no seat. */
  lemma OffsetsCover(n: int, start: int, idx: int)
    requires 0 <= start < n && 0 <= idx < n
    ensures var m := if idx > start then idx - start else idx - start + n;
      1 <= m <= n && (start + m) % n == idx
  {
    var m := if idx > start then idx - start else idx - start + n;
    assert start + m == idx || start + m == idx + n;
  }

  /**
   * The seat `advanceTurnFrom` picks may take the turn, and no seat between the actor and it
   * may; it picks none exactly when no seat at all is pending and in the hand.
   */
  lemma NextSeatSpec(order: seq<string>, pending: seq<string>, players: map<string, Side>, start: int)
    requires 0 <= start < |order|
    ensures var idx := NextSeat(order, pending, players, start);
      && (idx >= 0 ==> Eligible(order, pending, players, idx))
      && (idx == -1 <==> forall i :: 0 <= i < |order| ==> !Eligible(order, pending, players, i))
  {
    var m := NextOffset(order, pending, players, start, 1);
    if m > |order| {
      forall i | 0 <= i < |order|
        ensures !Eligible(order, pending, players, i)
      {
        OffsetsCover(|order|, start, i);
        var j := if i > start then i - start else i - start + |order|;
        assert !EligibleAfter(order, pending, players, start, j);
      }
    }
  }

  // ---------------------------------------------------------------- dealing

  /**
   * `n` cards to each seat of `us` in turn, skipping folded seats when `skipFolded`: the new
   * seats and the deck afterwards.
   */
  function DealTo(players: map<string, Side>, us: seq<string>, d: Deck, n: nat, skipFolded: bool): (map<string, Side>, Deck)
  {
    if us == [] then (players, d)
    else
      var (p, d') := DealTo(players, us[..|us| - 1], d, n, skipFolded);
      var u := us[|us| - 1];
      if u !in p || (skipFolded && p[u].folded) then (p, d')
      else (p[u := p[u].(cards := p[u].cards + d'.Peek(n))], d'.Skip(n))
  }

  /**
   * Dealing to seats without repeats gives each dealt seat `n` more cards on top of its old
   * ones, and changes nothing else: no seat is added, no other field of a seat changes, and
   * seats not dealt to keep their cards.
   */
  lemma DealToSpec(players: map<string, Side>, us: seq<string>, d: Deck, n: nat, skipFolded: bool)
    requires NoDup(us)
    ensures var p := DealTo(players, us, d, n, skipFolded).0;
      && p.Keys == players.Keys
      && (forall u :: u in p ==> p[u].(cards := players[u].cards) == players[u])
      && (forall u :: u in p ==> |p[u].cards| >= |players[u].cards| && p[u].cards[..|players[u].cards|] == players[u].cards)
      && (forall u :: u in p ==> |p[u].cards| == |players[u].cards| + (if u in us && !(skipFolded && players[u].folded) then n else 0))
  {
    DealToFields(players, us, d, n, skipFolded);
    DealToCards(players, us, d, n, skipFolded);
  }

  /** Dealing adds no seat and changes nothing of a seat but its cards. */
  lemma {:induction false} DealToFields(players: map<string, Side>, us: seq<string>, d: Deck, n: nat, skipFolded: bool)
    ensures var p := DealTo(players, us, d, n, skipFolded).0;
      && p.Keys == players.Keys
      && (forall u :: u in p ==> p[u].(cards := players[u].cards) == players[u])
  {
    if us != [] {
      DealToFields(players, us[..|us| - 1], d, n, skipFolded);
    }
  }

  /** Without repeats, each dealt seat's cards grow by `n` on top of its old ones, the others' not at all. */
  lemma {:induction false} DealToCards(players: map<string, Side>, us: seq<string>, d: Deck, n: nat, skipFolded: bool)
    requires NoDup(us)
    ensures var p := DealTo(players, us, d, n, skipFolded).0;
      forall u :: u in players ==> DealtCards(players[u], p, u, if u in us && !(skipFolded && players[u].folded) then n else 0)
  {
    if us != [] {
      var init := us[..|us| - 1];
      var u := us[|us| - 1];
      assert NoDup(init);
      assert u !in init;
      DealToCards(players, init, d, n, skipFolded);
      DealToFields(players, init, d, n, skipFolded);
      var (p, d') := DealTo(players, init, d, n, skipFolded);
      var p' := DealTo(players, us, d, n, skipFolded).0;
      forall x | x in players
        ensures DealtCards(players[x], p', x, if x in us && !(skipFolded && players[x].folded) then n else 0)
      {
        assert x in us <==> x in init || x == u;
        if x == u && !(skipFolded && p[u].folded) {
          assert p[u].cards == players[u].cards;
          assert p'[u].cards == players[u].cards + d'.Peek(n);
          assert p'[u].cards[..|players[u].cards|] == players[u].cards;
        } else {
          assert p'[x] == p[x];
        }
      }
    }
  }

  /** The seat `u` of `p` holds the old seat's cards followed by `k` more. */
  predicate DealtCards(before: Side, p: map<string, Side>, u: string, k: int)
  {
    u in p && |p[u].cards| == |before.cards| + k && |p[u].cards| >= |before.cards| && p[u].cards[..|before.cards|] == before.cards
  }
}
