/**
 * The five-card evaluator shared by the server and the console `PokerEval.evaluate`. Both copies
 * have the same code up to how a card is read: the rank value (2..14, ace high), the suit value
 * used in tie-breakers and card keys, and the suit's enum ordinal used to count suits. Each
 * variant translates its cards into `Keyed` values and calls `Evaluate` with its own `wheelAce`
 * flag: the server copy lets the ace take part in the suit tie-break of a wheel (A-2-3-4-5), the
 * console copy does not.
 */
module PokerSpec {
  import opened Wrappers
  import opened PokerScore

  /** A card as the evaluator reads it. */
  datatype Keyed = Keyed(value: int, suit: int, suitIndex: int)

  predicate ValidCard(c: Keyed)
  {
    2 <= c.value <= 14 && 0 <= c.suit <= 3 && 0 <= c.suitIndex <= 3
  }

  predicate ValidHand(h: seq<Keyed>)
  {
    forall i :: 0 <= i < |h| ==> ValidCard(h[i])
  }

  /** `cardKey`: rank value times ten plus suit value. */
  function Key(c: Keyed): int
  {
    c.value * 10 + c.suit
  }

  // ---------------------------------------------------------------- counts

  /** How many cards of `h` have rank value `v` (the `rankCounts` array, entry `v`). */
  function RankCount(h: seq<Keyed>, v: int): nat
  {
    if h == [] then 0 else RankCount(h[..|h| - 1], v) + (if h[|h| - 1].value == v then 1 else 0)
  }

  /** How many cards of `h` have suit ordinal `s` (the `suitCounts` array, entry `s`). */
  function SuitCount(h: seq<Keyed>, s: int): nat
  {
    if h == [] then 0 else SuitCount(h[..|h| - 1], s) + (if h[|h| - 1].suitIndex == s then 1 else 0)
  }

  function RankCounts(h: seq<Keyed>): (rc: seq<int>)
    ensures |rc| == 15
  {
    seq(15, v => RankCount(h, v))
  }

  /** Some suit holds all five cards. */
  predicate IsFlush(h: seq<Keyed>)
  {
    exists s :: 0 <= s < 4 && SuitCount(h, s) == 5
  }

  // ---------------------------------------------------------------- straights

  /** The five ranks `high - 4 .. high` are all present. */
  predicate RunAt(rc: seq<int>, high: int)
    requires |rc| == 15 && 4 <= high <= 14
  {
    forall v :: high - 4 <= v <= high ==> rc[v] != 0
  }

  /** A-2-3-4-5. */
  predicate Wheel(rc: seq<int>)
    requires |rc| == 15
  {
    rc[14] > 0 && rc[5] > 0 && rc[4] > 0 && rc[3] > 0 && rc[2] > 0
  }

  /** The search `straightHigh` performs, from `high` down to 6, then the wheel. */
  function StraightHighFrom(rc: seq<int>, high: int): int
    requires |rc| == 15 && high <= 14
    decreases high
  {
    if high < 6 then (if Wheel(rc) then 5 else -1)
    else if RunAt(rc, high) then high
    else StraightHighFrom(rc, high - 1)
  }

  function StraightHighOf(rc: seq<int>): int
    requires |rc| == 15
  {
    StraightHighFrom(rc, 14)
  }

  /** The hand holds five consecutive ranks, ace high or ace low. */
  predicate HasStraight(rc: seq<int>)
    requires |rc| == 15
  {
    (exists high :: 6 <= high <= 14 && RunAt(rc, high)) || Wheel(rc)
  }

  lemma {:induction false} StraightHighFromSpec(rc: seq<int>, high: int)
    requires |rc| == 15 && 5 <= high <= 14
    ensures var r := StraightHighFrom(rc, high);
      && (r == -1 || 5 <= r <= high)
      && (r >= 6 ==> RunAt(rc, r) && forall h :: r < h <= high ==> !RunAt(rc, h))
      && (r <= 5 ==> forall h :: 6 <= h <= high ==> !RunAt(rc, h))
      && (r == 5 <==> r <= 5 && Wheel(rc))
    decreases high
  {
    if high >= 6 && !RunAt(rc, high) {
      StraightHighFromSpec(rc, high - 1);
    }
  }

  /**
   * `straightHigh` returns the highest `h` in 14..6 whose run `h-4..h` is present; failing that,
   * 5 for the wheel; failing that, -1.
   */
  lemma StraightHighSpec(rc: seq<int>)
    requires |rc| == 15
    ensures var r := StraightHighOf(rc);
      && (r == -1 || 5 <= r <= 14)
      && (r >= 6 ==> RunAt(rc, r) && forall h :: r < h <= 14 ==> !RunAt(rc, h))
      && (r == 5 <==> Wheel(rc) && forall h :: 6 <= h <= 14 ==> !RunAt(rc, h))
      && (r == -1 <==> !HasStraight(rc))
  {
    StraightHighFromSpec(rc, 14);
  }

  // ---------------------------------------------------------------- groups

  /**
   * The ranks in `lo..14` held exactly `cnt` times, highest first: the list the `groups` map
   * holds under key `cnt` once the loop `rv = 14 .. lo` has run.
   */
  function RanksWithCount(rc: seq<int>, cnt: int, lo: int): seq<int>
    requires |rc| == 15 && 2 <= lo <= 15
    decreases 15 - lo
  {
    if lo == 15 then [] else RanksWithCount(rc, cnt, lo + 1) + (if rc[lo] == cnt then [lo] else [])
  }

  /** `groups.getOrDefault(cnt, List.of())` after the grouping loop. */
  function Group(rc: seq<int>, cnt: int): seq<int>
    requires |rc| == 15
  {
    RanksWithCount(rc, cnt, 2)
  }

  lemma {:induction false} RanksWithCountSpec(rc: seq<int>, cnt: int, lo: int)
    requires |rc| == 15 && 2 <= lo <= 15
    ensures var g := RanksWithCount(rc, cnt, lo);
      && (forall x :: x in g <==> lo <= x <= 14 && rc[x] == cnt)
      && (forall i, j :: 0 <= i < j < |g| ==> g[i] > g[j])
    decreases 15 - lo
  {
    if lo < 15 {
      var g' := RanksWithCount(rc, cnt, lo + 1);
      RanksWithCountSpec(rc, cnt, lo + 1);
      forall i | 0 <= i < |g'|
        ensures g'[i] > lo
      {
        assert g'[i] in g';
      }
    }
  }

  function GetOrDefault(groups: map<int, seq<int>>, k: int): seq<int>
  {
    if k in groups then groups[k] else []
  }

  // ---------------------------------------------------------------- suit tie-breaks

  predicate Matches(c: Keyed, v: int, alsoAce: bool)
  {
    c.value == v || (alsoAce && c.value == 14)
  }

  /** The largest suit value among the matching cards, -1 when there is none. */
  function MaxSuitOf(h: seq<Keyed>, v: int, alsoAce: bool): int
  {
    if h == [] then -1
    else
      var m := MaxSuitOf(h[..|h| - 1], v, alsoAce);
      var c := h[|h| - 1];
      if Matches(c, v, alsoAce) && c.suit > m then c.suit else m
  }

  /** `Math.max(best, 0)`: the tie-break the evaluator reports. */
  function SuitTie(h: seq<Keyed>, v: int, alsoAce: bool): int
  {
    var m := MaxSuitOf(h, v, alsoAce);
    if m > 0 then m else 0
  }

  lemma {:induction false} MaxSuitOfSpec(h: seq<Keyed>, v: int, alsoAce: bool)
    requires ValidHand(h)
    ensures var m := MaxSuitOf(h, v, alsoAce);
      && (m == -1 <==> forall i :: 0 <= i < |h| ==> !Matches(h[i], v, alsoAce))
      && (m != -1 ==> exists i :: 0 <= i < |h| && Matches(h[i], v, alsoAce) && h[i].suit == m)
      && (forall i :: 0 <= i < |h| && Matches(h[i], v, alsoAce) ==> h[i].suit <= m)
  {
    if h != [] {
      var init := h[..|h| - 1];
      MaxSuitOfSpec(init, v, alsoAce);
      assert forall i :: 0 <= i < |init| ==> init[i] == h[i];
    }
  }

  /**
   * The suit tie-break is the highest suit value among the cards of rank `v` (and, with
   * `alsoAce`, the aces), and 0 when no card qualifies.
   */
  lemma SuitTieSpec(h: seq<Keyed>, v: int, alsoAce: bool)
    requires ValidHand(h)
    ensures var t := SuitTie(h, v, alsoAce);
      && 0 <= t <= 3
      && ((forall i :: 0 <= i < |h| ==> !Matches(h[i], v, alsoAce)) ==> t == 0)
      && (forall i :: 0 <= i < |h| && Matches(h[i], v, alsoAce) ==> h[i].suit <= t)
      && ((exists i :: 0 <= i < |h| && Matches(h[i], v, alsoAce)) ==>
            exists i :: 0 <= i < |h| && Matches(h[i], v, alsoAce) && h[i].suit == t)
  {
    MaxSuitOfSpec(h, v, alsoAce);
  }

  // ---------------------------------------------------------------- keys

  /** The card keys of the cards whose rank value is not in `ex`, in hand order. */
  function KeysExcept(h: seq<Keyed>, ex: set<int>): seq<int>
  {
    if h == [] then []
    else KeysExcept(h[..|h| - 1], ex) + (if h[|h| - 1].value in ex then [] else [Key(h[|h| - 1])])
  }

  predicate Descending(s: seq<int>)
  {
    forall i, j :: 0 <= i < j < |s| ==> s[i] >= s[j]
  }

  predicate StrictlyDescending(s: seq<int>)
  {
    forall i, j :: 0 <= i < j < |s| ==> s[i] > s[j]
  }

  function Insert(x: int, s: seq<int>): (r: seq<int>)
  {
    if s == [] || x >= s[0] then [x] + s else [s[0]] + Insert(x, s[1..])
  }

  /** The keys sorted highest first (the stream's `sorted(...reversed())`). */
  function SortDesc(s: seq<int>): (r: seq<int>)
  {
    if s == [] then [] else Insert(s[0], SortDesc(s[1..]))
  }

  lemma InsertSpec(x: int, s: seq<int>)
    requires Descending(s)
    ensures Descending(Insert(x, s))
    ensures multiset(Insert(x, s)) == multiset{x} + multiset(s)
    ensures |Insert(x, s)| == |s| + 1
    ensures Insert(x, s) != [] && (Insert(x, s)[0] == x || (s != [] && Insert(x, s)[0] == s[0]))
  {
    InsertKeeps(x, s);
    InsertDescending(x, s);
  }

  /** Inserting adds `x` to the keys, and the head is `x` or the old head. */
  lemma {:induction false} InsertKeeps(x: int, s: seq<int>)
    ensures multiset(Insert(x, s)) == multiset{x} + multiset(s)
    ensures |Insert(x, s)| == |s| + 1
    ensures Insert(x, s) != [] && (Insert(x, s)[0] == x || (s != [] && Insert(x, s)[0] == s[0]))
  {
    if s != [] && x < s[0] {
      InsertKeeps(x, s[1..]);
      assert s == [s[0]] + s[1..];
    }
  }

  /** Inserting into a descending sequence keeps it descending. */
  lemma {:induction false} InsertDescending(x: int, s: seq<int>)
    requires Descending(s)
    ensures Descending(Insert(x, s))
  {
    if s != [] && x < s[0] {
      var t := s[1..];
      InsertDescending(x, t);
      InsertKeeps(x, t);
      var r := Insert(x, t);
      assert Insert(x, s) == [s[0]] + r;
      forall i, j | 0 <= i < j < |r| + 1
        ensures ([s[0]] + r)[i] >= ([s[0]] + r)[j]
      {
        if i == 0 {
          assert r[j - 1] in multiset(r);
          assert r[j - 1] == x || r[j - 1] in multiset(t);
        }
      }
    }
  }

  /** Sorting keeps the keys (as a multiset) and puts them highest first. */
  lemma {:induction false} SortDescSpec(s: seq<int>)
    ensures Descending(SortDesc(s))
    ensures multiset(SortDesc(s)) == multiset(s)
    ensures |SortDesc(s)| == |s|
  {
    if s != [] {
      SortDescSpec(s[1..]);
      InsertSpec(s[0], SortDesc(s[1..]));
      assert s == [s[0]] + s[1..];
    }
  }

  lemma DescendingDistinct(s: seq<int>)
    requires Descending(s)
    requires forall i, j :: 0 <= i < j < |s| ==> s[i] != s[j]
    ensures StrictlyDescending(s)
  {
  }

  /** `limit(need)`. */
  function Take(s: seq<int>, need: nat): (r: seq<int>)
  {
    if |s| <= need then s else s[..need]
  }

  /** `kickerKeys`: the `need` highest keys among the cards outside the excluded ranks. */
  function KickerKeys(h: seq<Keyed>, ex: set<int>, need: nat): seq<int>
  {
    Take(SortDesc(KeysExcept(h, ex)), need)
  }

  /** The five card keys highest first, the flush and high-card tie-breakers. */
  function SortedKeys(h: seq<Keyed>): seq<int>
  {
    SortDesc(KeysExcept(h, {}))
  }

  /** `List.remove(Integer.valueOf(x))`: drop the first occurrence of `x`. */
  function RemoveFirst(s: seq<int>, x: int): (r: seq<int>)
  {
    if s == [] then [] else if s[0] == x then s[1..] else [s[0]] + RemoveFirst(s[1..], x)
  }

  function RemoveEach(s: seq<int>, ex: seq<int>): seq<int>
    decreases |ex|
  {
    if ex == [] then s else RemoveEach(RemoveFirst(s, ex[0]), ex[1..])
  }

  /** `highestOfCount`: the first rank of the group once the excluded ranks are removed, or 0. */
  function HighestOfCount(group: seq<int>, ex: seq<int>): int
  {
    var l := RemoveEach(group, ex);
    if l == [] then 0 else l[0]
  }

  // ---------------------------------------------------------------- evaluation

  /** The category ladder of `evaluate`, on the facts it tests, highest rung first. */
  function CategoryFrom(flush: bool, straight: bool, four: bool, three: bool, pairs: nat): Category
  {
    if flush && straight then StraightFlush
    else if four then FourOfAKind
    else if three && pairs > 0 then FullHouse
    else if flush then Flush
    else if straight then Straight
    else if three then ThreeOfAKind
    else if pairs >= 2 then TwoPair
    else if pairs == 1 then OnePair
    else HighCard
  }

  /** The category `evaluate` assigns to a hand. */
  function Ladder(h: seq<Keyed>): Category
  {
    var rc := RankCounts(h);
    CategoryFrom(IsFlush(h), StraightHighOf(rc) != -1, Group(rc, 4) != [], Group(rc, 3) != [], |Group(rc, 2)|)
  }

  /** What `evaluate` returns for a five-card hand: its category and that category's tie-breakers. */
  function Score(h: seq<Keyed>, wheelAce: bool): (s: HandScore)
    requires |h| == 5 && ValidHand(h)
  {
    var rc := RankCounts(h);
    var sh := StraightHighOf(rc);
    var fours, trips, pairs := Group(rc, 4), Group(rc, 3), Group(rc, 2);
    match Ladder(h)
    case StraightFlush =>
      HandScore(StraightFlush, [sh, SuitTie(h, sh, wheelAce && sh == 5)])
    case FourOfAKind =>
      var kicker := HighestOfCount(Group(rc, 1), [fours[0]]);
      HandScore(FourOfAKind, [fours[0], SuitTie(h, fours[0], false), kicker, SuitTie(h, kicker, false)])
    case FullHouse =>
      HandScore(FullHouse, [trips[0], SuitTie(h, trips[0], false), pairs[0], SuitTie(h, pairs[0], false)])
    case Flush =>
      HandScore(Flush, SortedKeys(h))
    case Straight =>
      HandScore(Straight, [sh, SuitTie(h, sh, wheelAce && sh == 5)])
    case ThreeOfAKind =>
      HandScore(ThreeOfAKind, [trips[0], SuitTie(h, trips[0], false)] + KickerKeys(h, {trips[0]}, 2))
    case TwoPair =>
      HandScore(TwoPair, [pairs[0], SuitTie(h, pairs[0], false), pairs[1], SuitTie(h, pairs[1], false)]
        + KickerKeys(h, {pairs[0], pairs[1]}, 1))
    case OnePair =>
      HandScore(OnePair, [pairs[0], SuitTie(h, pairs[0], false)] + KickerKeys(h, {pairs[0]}, 3))
    case HighCard =>
      HandScore(HighCard, SortedKeys(h))
  }

  // ---------------------------------------------------------------- facts the evaluator relies on

  /** The ranks listed under `cnt` are exactly the ranks held `cnt` times, highest first. */
  lemma GroupSpec(h: seq<Keyed>, cnt: int)
    ensures var g := Group(RankCounts(h), cnt);
      && (forall x :: x in g <==> 2 <= x <= 14 && RankCount(h, x) == cnt)
      && (forall i, j :: 0 <= i < j < |g| ==> g[i] > g[j])
  {
    RanksWithCountSpec(RankCounts(h), cnt, 2);
  }

  lemma {:induction false} KeysExceptLength(h: seq<Keyed>, a: int, b: int)
    ensures |KeysExcept(h, {})| == |h|
    ensures |KeysExcept(h, {a})| == |h| - RankCount(h, a)
    ensures a != b ==> |KeysExcept(h, {a, b})| == |h| - RankCount(h, a) - RankCount(h, b)
  {
    if h != [] {
      KeysExceptLength(h[..|h| - 1], a, b);
    }
  }

  lemma KickerKeysLength(h: seq<Keyed>, ex: set<int>, need: nat)
    ensures |KickerKeys(h, ex, need)| == if |KeysExcept(h, ex)| < need then |KeysExcept(h, ex)| else need
  {
    SortDescSpec(KeysExcept(h, ex));
  }

  /** The first two ranks of a group are held `cnt` times, the first being the higher. */
  lemma GroupHead(h: seq<Keyed>, cnt: int)
    ensures var g := Group(RankCounts(h), cnt);
      && (|g| >= 1 ==> RankCount(h, g[0]) == cnt)
      && (|g| >= 2 ==> RankCount(h, g[1]) == cnt && g[0] > g[1])
  {
    GroupSpec(h, cnt);
    var g := Group(RankCounts(h), cnt);
    if |g| >= 1 {
      assert g[0] in g;
    }
    if |g| >= 2 {
      assert g[1] in g;
    }
  }

  /**
   * Outside one or two groups, a five-card hand has enough cards left for the kickers
   * `evaluate` reads: `need` of them (3 beside a pair, 2 beside trips, 1 beside two pairs).
   */
  lemma KickersAvailable(h: seq<Keyed>, a: int, b: int, need: nat)
    requires |h| == 5
    requires a == b ==> RankCount(h, a) + need <= 5
    requires a != b ==> RankCount(h, a) + RankCount(h, b) + need <= 5
    ensures |KickerKeys(h, if a == b then {a} else {a, b}, need)| == need
  {
    KeysExceptLength(h, a, b);
    KickerKeysLength(h, if a == b then {a} else {a, b}, need);
  }
}
