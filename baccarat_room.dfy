/**
 * The server's shared baccarat table (`BaccaratRoom`): users place main and side bets into a
 * ledger, then one deal settles every user's bets at once. The room is a class whose fields the
 * operations update; each operation is proved equal to a function of the room before it.
 */
module BaccaratRoom {
  import opened Wrappers
  import opened Collections
  import opened Text
  import opened ServerCard
  import opened BaccaratRules

  /**
   * A key of a user's bets. The source keys them by string: `"MAIN_"` followed by the upper-cased
   * pick, `"PAIR_P"`, `"PAIR_B"` and `"SUPER6"`; `KeyName` gives that string, and `KeyNameSpec`
   * shows the settlement's string tests pick out exactly these cases.
   */
  datatype Key = Main(pick: string) | PairP | PairB | Super6

  function KeyName(k: Key): string
  {
    match k
    case Main(pick) => "MAIN_" + pick
    case PairP => "PAIR_P"
    case PairB => "PAIR_B"
    case Super6 => "SUPER6"
  }

  /**
   * Only main keys start with `"MAIN_"`, and what follows is their pick; the side-bet keys are the
   * three fixed strings; and distinct keys have distinct names.
   */
  lemma KeyNameSpec(k: Key, k': Key)
    ensures HasPrefix(KeyName(k), "MAIN_") <==> k.Main?
    ensures k.Main? ==> KeyName(k)[5..] == k.pick
    ensures KeyName(k) == KeyName(k') ==> k == k'
  {
    assert KeyName(k)[0] == (if k.Main? then 'M' else if k == Super6 then 'S' else 'P');
    assert KeyName(k')[0] == (if k'.Main? then 'M' else if k' == Super6 then 'S' else 'P');
    if k.Main? && k'.Main? && KeyName(k) == KeyName(k') {
      assert k.pick == KeyName(k)[5..] == KeyName(k')[5..] == k'.pick;
    }
    if !k.Main? && !k'.Main? {
      assert KeyName(k)[5] == (if k == PairP then 'P' else if k == PairB then 'B' else '6');
      assert KeyName(k')[5] == (if k' == PairP then 'P' else if k' == PairB then 'B' else '6');
    }
  }

  type Bets = map<Key, int>

  /** Every field of `BaccaratRoom.Round`, with the room's deck. */
  datatype Round = Round(
    inProgress: bool,
    player: Side,
    banker: Side,
    ledger: map<string, Bets>,
    settle: map<string, int>,
    settlementApplied: bool,
    deck: Deck)

  /** `getOrDefault(k, 0)`. */
  function Get(m: Bets, k: Key): (v: int)
    ensures k !in m ==> v == 0
  {
    if k in m then m[k] else 0
  }

  /** `amount` added to entry `k`, which is created when missing. */
  function Add(m: Bets, k: Key, amount: int): (r: Bets)
    ensures r.Keys == m.Keys + {k}
    ensures Get(r, k) == Get(m, k) + amount
    ensures forall j :: j in m && j != k ==> r[j] == m[j]
  {
    m[k := Get(m, k) + amount]
  }

  /** The flagged side bets added to the user's bets. */
  function SideBets(m: Bets, amount: int, pp: bool, bp: bool, s6: bool): Bets
  {
    var m1 := if pp then Add(m, PairP, amount) else m;
    var m2 := if bp then Add(m1, PairB, amount) else m1;
    if s6 then Add(m2, Super6, amount) else m2
  }

  /** The user's bets after `place`. */
  function PlacedBets(m: Bets, main: string, amount: int, pp: bool, bp: bool, s6: bool): Bets
  {
    SideBets(Add(m, Main(UpperAll(main)), amount), amount, pp, bp, s6)
  }

  /** The body of `place` on the user's bets: each `getOrDefault` plus `put`, on the main key, then on each flagged side bet. */
  method PlaceBets(m0: Bets, main: string, amount: int, pp: bool, bp: bool, s6: bool) returns (m: Bets)
    ensures m == PlacedBets(m0, main, amount, pp, bp, s6)
  {
    m := Add(m0, Main(UpperAll(main)), amount);
    if pp {
      m := Add(m, PairP, amount);
    }
    if bp {
      m := Add(m, PairB, amount);
    }
    if s6 {
      m := Add(m, Super6, amount);
    }
  }

  /** `place`: the user's main bet grows by `amount`, and so does each side bet flagged. */
  function Placed(ledger: map<string, Bets>, user: string, main: string, amount: int, pp: bool, bp: bool, s6: bool): map<string, Bets>
  {
    ledger[user := PlacedBets(if user in ledger then ledger[user] else map[], main, amount, pp, bp, s6)]
  }

  /** Each flagged side bet grows by `amount`; every other entry is kept. */
  lemma SideBetsSpec(m: Bets, amount: int, pp: bool, bp: bool, s6: bool)
    ensures var r := SideBets(m, amount, pp, bp, s6);
      && r.Keys == m.Keys + (if pp then {PairP} else {}) + (if bp then {PairB} else {}) + (if s6 then {Super6} else {})
      && Get(r, PairP) == Get(m, PairP) + (if pp then amount else 0)
      && Get(r, PairB) == Get(m, PairB) + (if bp then amount else 0)
      && Get(r, Super6) == Get(m, Super6) + (if s6 then amount else 0)
      && forall k :: k in m && k.Main? ==> r[k] == m[k]
  {
  }

  /**
   * Placing a bet adds `amount` to the user's main entry for the upper-cased pick, and to the
   * PAIR_P, PAIR_B and SUPER6 entries exactly when they are flagged; every other entry of the
   * user, and every other user, is left as it was.
   */
  lemma PlacedSpec(ledger: map<string, Bets>, user: string, main: string, amount: int, pp: bool, bp: bool, s6: bool)
    ensures var l' := Placed(ledger, user, main, amount, pp, bp, s6);
      var m := if user in ledger then ledger[user] else map[];
      var k := Main(UpperAll(main));
      && l'.Keys == ledger.Keys + {user}
      && (forall u :: u in ledger && u != user ==> l'[u] == ledger[u])
      && Get(l'[user], k) == Get(m, k) + amount
      && Get(l'[user], PairP) == Get(m, PairP) + (if pp then amount else 0)
      && Get(l'[user], PairB) == Get(m, PairB) + (if bp then amount else 0)
      && Get(l'[user], Super6) == Get(m, Super6) + (if s6 then amount else 0)
      && l'[user].Keys == m.Keys + {k} + (if pp then {PairP} else {})
           + (if bp then {PairB} else {}) + (if s6 then {Super6} else {})
      && (forall j :: j in m && j.Main? && j != k ==> l'[user][j] == m[j])
  {
    var m := if user in ledger then ledger[user] else map[];
    SideBetsSpec(Add(m, Main(UpperAll(main)), amount), amount, pp, bp, s6);
  }

  // ---------------------------------------------------------------- settling

  /** What the deal decides for the bets: the winner, both pair flags and the banker's point. */
  datatype Outcome = Outcome(winner: Winner, playerPair: bool, bankerPair: bool, bankerTotal: int)

  function OutcomeOf(p: Side, b: Side): Outcome
  {
    Outcome(WinnerOf(p.total, b.total), IsPair(p), IsPair(b), b.total)
  }

  /**
   * What one ledger entry returns: a main bet what `settleMain` gives for its pick, a pair bet
   * 12 times its stake when that side has a pair, SUPER6 13 times its stake on a banker win with
   * 6, and otherwise nothing.
   */
  function EntryReturn(k: Key, amount: int, o: Outcome, commission: bool): (r: int)
    ensures k.Main? ==> r == MainReturn(k.pick, o.winner, amount, commission)
    ensures k == PairP ==> r == (if o.playerPair then 12 * amount else 0)
    ensures k == PairB ==> r == (if o.bankerPair then 12 * amount else 0)
    ensures k == Super6 ==> r == (if o.winner == BANKER && o.bankerTotal == 6 then 13 * amount else 0)
  {
    match k
    case Main(pick) => MainReturn(pick, o.winner, amount, commission)
    case PairP => if o.playerPair then amount * 12 else 0
    case PairB => if o.bankerPair then amount * 12 else 0
    case Super6 => if o.winner == BANKER && o.bankerTotal == 6 then amount * 13 else 0
  }

  /** What each entry of a user's bets returns. */
  function EntryReturns(m: Bets, o: Outcome, commission: bool): (r: map<Key, int>)
    ensures r.Keys == m.Keys
    ensures forall k :: k in r ==> r[k] == EntryReturn(k, m[k], o, commission)
  {
    map k | k in m :: EntryReturn(k, m[k], o, commission)
  }

  /** A user's settle value: the sum of what each of the user's entries returns. */
  ghost function UserReturn(m: Bets, o: Outcome, commission: bool): int
  {
    MapSum(EntryReturns(m, o, commission))
  }

  /** Every user's settle value. */
  ghost function Settlement(ledger: map<string, Bets>, o: Outcome, commission: bool): (r: map<string, int>)
    ensures r.Keys == ledger.Keys
  {
    map u | u in ledger :: UserReturn(ledger[u], o, commission)
  }

  /**
   * `dealAndSettle`: new sides are dealt, every user in the ledger is settled, and the round
   * ends; the ledger is kept.
   */
  ghost function Dealt(t: Round, commission: bool): Round
  {
    var (p, b, d) := Coup(t.deck);
    t.(player := p, banker := b, deck := d, inProgress := false, settlementApplied := false,
       settle := Settlement(t.ledger, OutcomeOf(p, b), commission))
  }

  /**
   * After a deal the round is over, every ledger user and no one else has a settle value, which
   * is the sum of what that user's entries return against the deal, and the ledger is kept.
   */
  lemma DealtSpec(t: Round, commission: bool)
    ensures var t' := Dealt(t, commission);
      && !t'.inProgress && !t'.settlementApplied && t'.ledger == t.ledger
      && t'.settle.Keys == t.ledger.Keys
      && (forall u :: u in t'.settle ==> t'.settle[u] == MapSum(EntryReturns(t.ledger[u], OutcomeOf(t'.player, t'.banker), commission)))
      && t'.player.total == Point(t'.player.cards) && t'.banker.total == Point(t'.banker.cards)
  {
    CoupSpec(t.deck);
  }

  /** The return of bets that gained one more entry. */
  lemma ReturnAdd(m: Bets, k: Key, amount: int, o: Outcome, commission: bool)
    requires k !in m
    ensures UserReturn(Add(m, k, amount), o, commission) == UserReturn(m, o, commission) + EntryReturn(k, amount, o, commission)
  {
    var r := EntryReturns(m, o, commission);
    var x := EntryReturn(k, amount, o, commission);
    assert Add(m, k, amount) == m[k := amount];
    EntryReturnsUpdate(m, k, amount, o, commission);
    MapSumUpdate(r, k, x);
  }

  /** What each entry returns, after one entry is set. */
  lemma EntryReturnsUpdate(m: Bets, k: Key, v: int, o: Outcome, commission: bool)
    ensures EntryReturns(m[k := v], o, commission) == EntryReturns(m, o, commission)[k := EntryReturn(k, v, o, commission)]
  {
  }

  /** The side bets add their own returns to bets that held none of them. */
  lemma SideReturns(m: Bets, amount: int, pp: bool, bp: bool, s6: bool, o: Outcome, commission: bool)
    requires PairP !in m && PairB !in m && Super6 !in m
    ensures UserReturn(SideBets(m, amount, pp, bp, s6), o, commission)
        == UserReturn(m, o, commission)
         + (if pp then EntryReturn(PairP, amount, o, commission) else 0)
         + (if bp then EntryReturn(PairB, amount, o, commission) else 0)
         + (if s6 then EntryReturn(Super6, amount, o, commission) else 0)
  {
    var m1 := if pp then Add(m, PairP, amount) else m;
    if pp { ReturnAdd(m, PairP, amount, o, commission); }
    var m2 := if bp then Add(m1, PairB, amount) else m1;
    if bp { ReturnAdd(m1, PairB, amount, o, commission); }
    if s6 { ReturnAdd(m2, Super6, amount, o, commission); }
  }

  /**
   * A user who placed one bet into an empty ledger is settled by its pieces: the main bet's
   * return plus the flagged side bets' returns.
   */
  lemma SingleBetReturn(main: string, amount: int, pp: bool, bp: bool, s6: bool, o: Outcome, commission: bool)
    ensures UserReturn(PlacedBets(map[], main, amount, pp, bp, s6), o, commission)
        == MainReturn(UpperAll(main), o.winner, amount, commission)
         + (if pp then EntryReturn(PairP, amount, o, commission) else 0)
         + (if bp then EntryReturn(PairB, amount, o, commission) else 0)
         + (if s6 then EntryReturn(Super6, amount, o, commission) else 0)
  {
    var m0: Bets := map[];
    var m := Add(m0, Main(UpperAll(main)), amount);
    assert EntryReturns(m0, o, commission) == map[];
    MapSumEmpty(EntryReturns(m0, o, commission));
    ReturnAdd(m0, Main(UpperAll(main)), amount, o, commission);
    SideReturns(m, amount, pp, bp, s6, o, commission);
  }

  // ---------------------------------------------------------------- ready

  /** Whether the user's bets hold a main entry with a positive stake. */
  ghost predicate HasMain(m: Bets)
  {
    exists k :: k in m && k.Main? && m[k] > 0
  }

  /**
   * `ready`: there are users, and every user that is not null has a main bet with a positive
   * stake in the ledger. `None` stands for a null collection or a null user.
   */
  ghost predicate IsReady(ledger: map<string, Bets>, users: Option<seq<Option<string>>>)
  {
    && users.Some? && |users.value| > 0
    && forall i :: 0 <= i < |users.value| && users.value[i].Some? ==>
         users.value[i].value in ledger && HasMain(ledger[users.value[i].value])
  }

  /** A room is never ready for no collection or an empty one, and a list of only null users is ready. */
  lemma ReadyEdges(ledger: map<string, Bets>)
    ensures !IsReady(ledger, None) && !IsReady(ledger, Some([]))
    ensures IsReady(ledger, Some([None]))
  {
  }

  /** A user who placed a positive main bet makes the room ready for that user alone. */
  lemma PlacedReady(ledger: map<string, Bets>, user: string, main: string, amount: int, pp: bool, bp: bool, s6: bool)
    requires amount > 0 && (user in ledger ==> Get(ledger[user], Main(UpperAll(main))) >= 0)
    ensures IsReady(Placed(ledger, user, main, amount, pp, bp, s6), Some([Some(user)]))
  {
    PlacedSpec(ledger, user, main, amount, pp, bp, s6);
    var l' := Placed(ledger, user, main, amount, pp, bp, s6);
    var k := Main(UpperAll(main));
    assert k in l'[user] && l'[user][k] > 0;
  }

  /** The scan of one user's entries in `ready`: looks for a main entry with a positive stake. */
  method FindMain(m: Bets) returns (found: bool)
    ensures found == HasMain(m)
  {
    var rest := m.Keys;
    found := false;
    while rest != {}
      invariant rest <= m.Keys
      invariant forall k :: k in m && k !in rest ==> !(k.Main? && m[k] > 0)
      decreases |rest|
    {
      var k :| k in rest;
      if k.Main? && m[k] > 0 {
        found := true;
        return;
      }
      rest := rest - {k};
    }
  }

  // ---------------------------------------------------------------- the settlement loops

  /** What the entries outside `rest` return, summed. */
  ghost function DoneSum(m: Bets, rest: set<Key>, o: Outcome, commission: bool): int
  {
    MapSum(EntryReturns(m - rest, o, commission))
  }

  /** One step of the entry loop: the entry `k` moves from `rest` to the entries summed. */
  lemma DoneSumStep(m: Bets, rest: set<Key>, k: Key, o: Outcome, commission: bool)
    requires k in rest && rest <= m.Keys
    ensures DoneSum(m, rest - {k}, o, commission) == DoneSum(m, rest, o, commission) + EntryReturn(k, m[k], o, commission)
  {
    var r := EntryReturns(m - rest, o, commission);
    assert EntryReturns(m - (rest - {k}), o, commission) == r[k := EntryReturn(k, m[k], o, commission)];
    MapSumUpdate(r, k, EntryReturn(k, m[k], o, commission));
  }

  /** Nothing summed at the start, everything at the end. */
  lemma DoneSumEnds(m: Bets, o: Outcome, commission: bool)
    ensures DoneSum(m, m.Keys, o, commission) == 0
    ensures DoneSum(m, {}, o, commission) == UserReturn(m, o, commission)
  {
    assert m - m.Keys == map[];
    MapSumEmpty(EntryReturns(m - m.Keys, o, commission));
    assert m - {} == m;
  }

  /** The body of the entry loop: what one entry returns, as the source branches. */
  method EntryReturnOf(k: Key, amount: int, o: Outcome, commission: bool) returns (r: int)
    ensures r == EntryReturn(k, amount, o, commission)
  {
    r := 0;
    if k.Main? {
      r := MainReturn(k.pick, o.winner, amount, commission);
    } else if k == PairP && o.playerPair {
      r := amount * 12;
    } else if k == PairB && o.bankerPair {
      r := amount * 12;
    } else if k == Super6 && o.winner == BANKER && o.bankerTotal == 6 {
      r := amount * 13;
    }
  }

  /** The inner loop of `dealAndSettle`: one user's settle value. */
  method SettleUser(m: Bets, o: Outcome, commission: bool) returns (delta: int)
    ensures delta == UserReturn(m, o, commission)
  {
    var rest := m.Keys;
    delta := 0;
    DoneSumEnds(m, o, commission);
    while rest != {}
      invariant rest <= m.Keys
      invariant delta == DoneSum(m, rest, o, commission)
      decreases |rest|
    {
      var k :| k in rest;
      var x := EntryReturnOf(k, m[k], o, commission);
      assert delta + x == DoneSum(m, rest - {k}, o, commission) by {
        DoneSumStep(m, rest, k, o, commission);
      }
      delta, rest := delta + x, rest - {k};
    }
  }

  /** The outer loop of `dealAndSettle`: every ledger user's settle value. */
  method SettleAll(ledger: map<string, Bets>, o: Outcome, commission: bool) returns (settle: map<string, int>)
    ensures settle == Settlement(ledger, o, commission)
  {
    var rest := ledger.Keys;
    settle := map[];
    assert settle == Settlement(ledger - rest, o, commission);
    while rest != {}
      invariant rest <= ledger.Keys
      invariant settle == Settlement(ledger - rest, o, commission)
      decreases |rest|
    {
      var u :| u in rest;
      var delta := SettleUser(ledger[u], o, commission);
      SettlementStep(ledger, rest, u, o, commission);
      settle := settle[u := delta];
      rest := rest - {u};
    }
    assert ledger - {} == ledger;
  }

  /** One step of the user loop: the user `u` moves from `rest` to the users settled. */
  lemma SettlementStep(ledger: map<string, Bets>, rest: set<string>, u: string, o: Outcome, commission: bool)
    requires u in rest && rest <= ledger.Keys
    ensures Settlement(ledger - (rest - {u}), o, commission)
      == Settlement(ledger - rest, o, commission)[u := UserReturn(ledger[u], o, commission)]
  {
  }

  /** The deal of `dealAndSettle`, as the source draws it. */
  method DealSides(d0: Deck) returns (p: Side, b: Side, d: Deck)
    ensures (p, b, d) == Coup(d0)
  {
    var c0 := d0.Top();
    var c1 := d0.Skip(1).Top();
    var c2 := d0.Skip(2).Top();
    var c3 := d0.Skip(3).Top();
    d := d0.Skip(4);
    var pc, bc := [c0, c2], [c1, c3];
    var pt := ComputePoint(pc);
    var bt := ComputePoint(bc);
    if pt <= 5 {
      pc, d := pc + [d.Top()], d.Rest();
      pt := ComputePoint(pc);
    }
    if bt <= 5 {
      bc, d := bc + [d.Top()], d.Rest();
      bt := ComputePoint(bc);
    }
    p, b := Side(pc, pt), Side(bc, bt);
  }

  class Room {
    var inProgress: bool
    var player: Side
    var banker: Side
    var ledger: map<string, Bets>
    var settle: map<string, int>
    var settlementApplied: bool
    var deck: Deck

    /** `new BaccaratRoom(decks)`: an empty round. */
    constructor (d: Deck)
      ensures View() == Round(false, Side([], 0), Side([], 0), map[], map[], false, d)
    {
      inProgress, player, banker := false, Side([], 0), Side([], 0);
      ledger, settle, settlementApplied, deck := map[], map[], false, d;
    }

    function View(): Round
      reads this
    {
      Round(inProgress, player, banker, ledger, settle, settlementApplied, deck)
    }

    /** `resetRound`: new sides, and the ledger and the settlement cleared. */
    method ResetRound()
      modifies this
      ensures View() == old(View()).(inProgress := false, player := Side([], 0), banker := Side([], 0),
        settle := map[], ledger := map[], settlementApplied := false)
    {
      inProgress, player, banker := false, Side([], 0), Side([], 0);
      settle, ledger, settlementApplied := map[], map[], false;
    }

    /** `place`. */
    method Place(user: string, main: string, amount: int, pp: bool, bp: bool, s6: bool)
      modifies this
      ensures View() == old(View()).(ledger := Placed(old(ledger), user, main, amount, pp, bp, s6))
    {
      var m := if user in ledger then ledger[user] else map[];
      m := PlaceBets(m, main, amount, pp, bp, s6);
      ledger := ledger[user := m];
    }

    /** `dealAndSettle`. */
    method DealAndSettle(commission: bool)
      modifies this
      ensures View() == Dealt(old(View()), commission)
    {
      var p, b, d := DealSides(deck);
      var winner := if p.total == b.total then TIE else if p.total > b.total then PLAYER else BANKER;
      var pPair := |p.cards| >= 2 && p.cards[0].rank == p.cards[1].rank;
      var bPair := |b.cards| >= 2 && b.cards[0].rank == b.cards[1].rank;
      var s := SettleAll(ledger, Outcome(winner, pPair, bPair, b.total), commission);
      player, banker, deck := p, b, d;
      settle, inProgress, settlementApplied := s, false, false;
    }

    /** `ready`. */
    method Ready(users: Option<seq<Option<string>>>) returns (b: bool)
      ensures b == IsReady(ledger, users)
    {
      if users.None? || |users.value| == 0 {
        return false;
      }
      var us := users.value;
      var i := 0;
      while i < |us|
        invariant 0 <= i <= |us|
        invariant forall j :: 0 <= j < i && us[j].Some? ==> us[j].value in ledger && HasMain(ledger[us[j].value])
      {
        if us[i].Some? {
          var u := us[i].value;
          if u !in ledger || |ledger[u]| == 0 {
            return false;
          }
          var found := FindMain(ledger[u]);
          if !found {
            return false;
          }
        }
        i := i + 1;
      }
      return true;
    }
  }
}
