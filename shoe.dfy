/**
 * The console's `Shoe`: `decks` full decks in one list, shuffled, drawn from the end, and built
 * and shuffled again once it runs down to its cut.
 */
module ShoeModel {
  import opened Wrappers
  import opened Collections
  import opened ConsoleCard

  /** `Card.Suit.values()` and `Card.Rank.values()`, in declaration order. */
  const Suits: seq<Suit> := [C, D, H, S]
  const Ranks: seq<Rank> := [ACE, TWO, THREE, FOUR, FIVE, SIX, SEVEN, EIGHT, NINE, TEN, JACK, QUEEN, KING]

  function SuitIndex(s: Suit): (i: nat)
    ensures i < 4 && Suits[i] == s
  {
    match s case C => 0 case D => 1 case H => 2 case S => 3
  }

  /** One deck in the order the nested loops of `reshuffle` add it: suit by suit, ace to king. */
  function OneDeck(): (cs: seq<Card>)
    ensures |cs| == 52
  {
    seq(52, i requires 0 <= i < 52 => Card(Suits[i / 13], Ranks[i % 13]))
  }

  /** A card's position in one deck. */
  function CardIndex(c: Card): nat
  {
    SuitIndex(c.suit) * 13 + Ordinal(c.rank)
  }

  lemma RankAt(k: nat)
    requires k < 13
    ensures Ordinal(Ranks[k]) == k
  {
  }

  lemma SuitAt(k: nat)
    requires k < 4
    ensures SuitIndex(Suits[k]) == k
  {
  }

  /** Each position of one deck holds the card whose position it is. */
  lemma OneDeckIndex(i: nat)
    requires i < 52
    ensures CardIndex(OneDeck()[i]) == i
  {
    RankAt(i % 13);
    SuitAt(i / 13);
  }

  /** Every card is in one deck exactly once. */
  lemma OneDeckOnce(c: Card)
    ensures multiset(OneDeck())[c] == 1
  {
    var d := OneDeck();
    var k := CardIndex(c);
    assert d[k] == c;
    assert NoDup(d) by {
      forall i, j | 0 <= i < j < 52
        ensures d[i] != d[j]
      {
        OneDeckIndex(i);
        OneDeckIndex(j);
      }
    }
    NoDupCount(d, c);
  }

  /** The cards of `n` decks in the order `reshuffle` adds them. */
  function Decks(n: nat): (cs: seq<Card>)
    ensures |cs| == 52 * n
  {
    if n == 0 then [] else Decks(n - 1) + OneDeck()
  }

  /** A shoe of `n` decks holds every card exactly `n` times. */
  lemma {:induction false} DecksCount(n: nat, c: Card)
    ensures multiset(Decks(n))[c] == n
  {
    if n > 0 {
      DecksCount(n - 1, c);
      OneDeckOnce(c);
    }
  }

  /** `java.util.Random` as an oracle: an arbitrary stream of numbers and the position of the next. */
  datatype Rng = Rng(source: nat -> nat, pos: nat)
  {
    /** `nextInt(bound)`: some number below `bound`. */
    function NextInt(bound: nat): (r: (nat, Rng))
      requires bound > 0
      ensures r.0 < bound
    {
      (source(pos) % bound, Rng(source, pos + 1))
    }
  }

  /** `Collections.shuffle`: from the last position down to the second, swap with a random position at or below it. */
  function Shuffled(a: seq<Card>, i: nat, rnd: Rng): (r: (seq<Card>, Rng))
    requires i <= |a|
    decreases i
  {
    if i <= 1 then (a, rnd)
    else
      var (j, rnd') := rnd.NextInt(i);
      Shuffled(a[i - 1 := a[j]][j := a[i - 1]], i - 1, rnd')
  }

  /** Swapping two positions keeps the cards. */
  lemma SwapKeeps(a: seq<Card>, i: nat, j: nat)
    requires i < |a| && j < |a|
    ensures multiset(a[i := a[j]][j := a[i]]) == multiset(a)
    ensures |a[i := a[j]][j := a[i]]| == |a|
  {
  }

  /** Shuffling reorders the cards and keeps every one of them. */
  lemma {:induction false} ShuffledKeeps(a: seq<Card>, i: nat, rnd: Rng)
    requires i <= |a|
    ensures multiset(Shuffled(a, i, rnd).0) == multiset(a)
    ensures |Shuffled(a, i, rnd).0| == |a|
    decreases i
  {
    if i > 1 {
      var (j, rnd') := rnd.NextInt(i);
      SwapKeeps(a, i - 1, j);
      ShuffledKeeps(a[i - 1 := a[j]][j := a[i - 1]], i - 1, rnd');
    }
  }

  /** `Math.round(total * (1.0 - penetration))`, in exact arithmetic: the cards left at the cut. */
  function Cut(total: nat, penetration: real): (c: int)
    requires 0.0 < penetration <= 1.0
    ensures 0 <= c <= total
  {
    var x := total as real * (1.0 - penetration);
    assert 0.0 <= x <= total as real by {
      assert 0.0 <= 1.0 - penetration < 1.0;
      MulBounds(total as real, 1.0 - penetration);
    }
    (x + 0.5).Floor
  }

  lemma MulBounds(t: real, f: real)
    requires t >= 0.0 && 0.0 <= f <= 1.0
    ensures 0.0 <= t * f <= t
  {
  }

  class Shoe {
    var cards: seq<Card>
    const decks: nat
    const total: nat
    const penetration: real
    var rnd: Rng

    /** The shoe's invariant: the fixed size, and only cards of its decks, never more than it had. */
    ghost predicate Valid()
      reads this
    {
      && decks >= 1 && total == 52 * decks && 0.0 < penetration <= 1.0
      && multiset(cards) <= multiset(Decks(decks))
    }

    /** The part of `new Shoe(decks, penetration)` after the checks: a full, shuffled shoe. */
    constructor (decks: nat, penetration: real, rnd: Rng)
      requires decks >= 1 && 0.0 < penetration <= 1.0
      ensures Valid() && this.decks == decks && this.penetration == penetration
      ensures |cards| == 52 * decks
      ensures forall c :: multiset(cards)[c] == decks
      ensures cards == Shuffled(Decks(decks), 52 * decks, rnd).0
      ensures this.rnd == Shuffled(Decks(decks), 52 * decks, rnd).1
    {
      this.decks := decks;
      this.penetration := penetration;
      this.total := 52 * decks;
      this.rnd := rnd;
      new;
      Reshuffle();
      forall c ensures multiset(cards)[c] == decks {
        DecksCount(decks, c);
      }
    }

    /** `reshuffle`: the decks added in order by the nested loops, then shuffled. */
    method Reshuffle()
      modifies this
      ensures cards == Shuffled(Decks(decks), 52 * decks, old(rnd)).0
      ensures rnd == Shuffled(Decks(decks), 52 * decks, old(rnd)).1
      ensures multiset(cards) == multiset(Decks(decks)) && |cards| == 52 * decks
    {
      var cs := BuildDecks(decks);
      ShuffledKeeps(cs, |cs|, rnd);
      var a, rnd' := Shuffle(cs, rnd);
      cards, rnd := a, rnd';
    }

    /** `needReshuffle`: empty, or for a shoe with a cut, down to the cut. */
    predicate NeedReshuffle()
      reads this
      requires 0.0 < penetration <= 1.0
    {
      if penetration >= 1.0 then |cards| == 0 else |cards| <= Cut(total, penetration)
    }

    /** `draw`: a reshuffle when needed, then the last card is removed and returned. */
    method Draw() returns (c: Card)
      requires Valid()
      modifies this
      ensures Valid()
      ensures var before := if old(NeedReshuffle()) then Shuffled(Decks(decks), total, old(rnd)).0 else old(cards);
        |before| > 0 && c == before[|before| - 1] && cards == before[..|before| - 1]
      ensures old(NeedReshuffle()) ==> |cards| == total - 1
      ensures !old(NeedReshuffle()) ==> |cards| == |old(cards)| - 1
      ensures rnd == if old(NeedReshuffle()) then Shuffled(Decks(decks), total, old(rnd)).1 else old(rnd)
    {
      if NeedReshuffle() {
        Reshuffle();
      }
      assert |cards| > 0;
      c := cards[|cards| - 1];
      assert cards == cards[..|cards| - 1] + [c];
      cards := cards[..|cards| - 1];
    }

    /** `isEmpty`. */
    predicate IsEmpty()
      reads this
    {
      |cards| == 0
    }

    /** `remaining`. */
    function Remaining(): (n: nat)
      reads this
      ensures n == 0 <==> IsEmpty()
    {
      |cards|
    }
  }

  /** `Collections.shuffle` on a list, as the in-place swaps it makes. */
  method Shuffle(a0: seq<Card>, rnd0: Rng) returns (a: seq<Card>, rnd: Rng)
    ensures (a, rnd) == Shuffled(a0, |a0|, rnd0)
  {
    a, rnd := a0, rnd0;
    var i := |a|;
    while i > 1
      invariant 0 <= i <= |a| == |a0|
      invariant Shuffled(a, i, rnd) == Shuffled(a0, |a0|, rnd0)
      decreases i
    {
      var next := rnd.NextInt(i);
      var j := next.0;
      rnd := next.1;
      a := a[i - 1 := a[j]][j := a[i - 1]];
      i := i - 1;
    }
  }

  /** `new Shoe(decks, penetration)`: fewer than one deck or a penetration outside (0, 1] is rejected. */
  method NewShoe(decks: int, penetration: real, rnd: Rng) returns (r: Result<Shoe>)
    ensures r.Err? <==> decks < 1 || penetration <= 0.0 || penetration > 1.0
    ensures r.Ok? ==> fresh(r.value) && r.value.Valid() && |r.value.cards| == 52 * decks
  {
    if decks < 1 {
      return Err("decks must be >= 1");
    }
    if penetration <= 0.0 || penetration > 1.0 {
      return Err("penetration must be in (0,1]");
    }
    var s := new Shoe(decks, penetration, rnd);
    return Ok(s);
  }

  /** `new Shoe(decks)`: a shoe that is only shuffled again once it is empty. */
  method NewFullShoe(decks: int, rnd: Rng) returns (r: Result<Shoe>)
    ensures r.Err? <==> decks < 1
    ensures r.Ok? ==> fresh(r.value) && r.value.Valid() && r.value.penetration == 1.0
  {
    if decks < 1 {
      return Err("decks must be >= 1");
    }
    var s := new Shoe(decks, 1.0, rnd);
    return Ok(s);
  }

  /**
   * A shoe that is only shuffled again once empty draws exactly when it is empty: it never cuts
   * a shoe that still has cards.
   */
  lemma FullShoeCut(s: Shoe)
    requires s.Valid() && s.penetration == 1.0
    ensures s.NeedReshuffle() <==> s.IsEmpty()
  {
  }

  /** The nested loops of `reshuffle`: every deck, suit by suit, ace to king. */
  method BuildDecks(n: nat) returns (cs: seq<Card>)
    ensures cs == Decks(n)
  {
    cs := [];
    var d := 0;
    while d < n
      invariant 0 <= d <= n
      invariant cs == Decks(d)
    {
      var s := 0;
      while s < 4
        invariant 0 <= s <= 4
        invariant cs == Decks(d) + OneDeck()[..13 * s]
      {
        cs := AddSuit(cs, s);
        assert OneDeck()[..13 * s] + OneDeck()[13 * s..13 * s + 13] == OneDeck()[..13 * (s + 1)];
        s := s + 1;
      }
      assert OneDeck()[..52] == OneDeck();
      d := d + 1;
    }
  }

  /** The innermost loop: the thirteen cards of one suit. */
  method AddSuit(cs0: seq<Card>, s: nat) returns (cs: seq<Card>)
    requires s < 4
    ensures cs == cs0 + OneDeck()[13 * s..13 * s + 13]
  {
    cs := cs0;
    var r := 0;
    while r < 13
      invariant 0 <= r <= 13
      invariant cs == cs0 + OneDeck()[13 * s..13 * s + r]
    {
      DeckAt(s, r);
      SliceSnoc(OneDeck(), 13 * s, 13 * s + r);
      cs := cs + [Card(Suits[s], Ranks[r])];
      r := r + 1;
    }
  }

  /** The card of suit `s` and rank `r` sits at position 13 * s + r of one deck. */
  lemma DeckAt(s: nat, r: nat)
    requires s < 4 && r < 13
    ensures OneDeck()[13 * s + r] == Card(Suits[s], Ranks[r])
  {
    var i := 13 * s + r;
    assert i / 13 == s && i % 13 == r;
  }

  lemma SliceSnoc(a: seq<Card>, i: nat, j: nat)
    requires i <= j < |a|
    ensures a[i..j + 1] == a[i..j] + [a[j]]
  {
  }
}
