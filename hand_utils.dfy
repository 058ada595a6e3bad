/**
 * `Application1.HandUtils`: a blackjack hand kept as a list of card values in which an ace is
 * stored as 11 until it is rewritten in place to 1, so the hand's value is simply its sum.
 */
module HandUtils {

  /** The sum of the values. */
  function Sum(s: seq<int>): int
  {
    if s == [] then 0 else Sum(s[..|s| - 1]) + s[|s| - 1]
  }

  /** The position of the first 11, or -1 when there is none. */
  function IndexOf11(s: seq<int>): (i: int)
    ensures -1 <= i < |s|
    ensures i == -1 <==> 11 !in s
    ensures i >= 0 ==> s[i] == 11 && 11 !in s[..i]
  {
    if s == [] then -1
    else if s[0] == 11 then 0
    else
      var j := IndexOf11(s[1..]);
      assert j >= 0 ==> s[..j + 1] == [s[0]] + s[1..][..j];
      if j < 0 then -1 else j + 1
  }

  /** The number of 11s. */
  function Elevens(s: seq<int>): nat
  {
    multiset(s)[11]
  }

  /** `adjustAcesIfBust`: while the sum is over 21, the first 11 becomes 1. */
  function Adjusted(s: seq<int>): (r: seq<int>)
    ensures |r| == |s|
    decreases Elevens(s)
  {
    if Sum(s) > 21 && IndexOf11(s) >= 0 then
      var i := IndexOf11(s);
      RewriteOne(s, i);
      Adjusted(s[i := 1])
    else s
  }

  /** Setting one value changes the sum by the difference. */
  lemma {:induction false} SumUpdate(s: seq<int>, i: int, v: int)
    requires 0 <= i < |s|
    ensures Sum(s[i := v]) == Sum(s) - s[i] + v
    decreases |s|
  {
    var n := |s| - 1;
    if i < n {
      assert s[i := v][..n] == s[..n][i := v];
      SumUpdate(s[..n], i, v);
    } else {
      assert s[i := v][..n] == s[..n];
    }
  }

  /** Rewriting one 11 to 1 lowers the sum by 10 and removes one 11. */
  lemma RewriteOne(s: seq<int>, i: int)
    requires 0 <= i < |s| && s[i] == 11
    ensures Sum(s[i := 1]) == Sum(s) - 10
    ensures Elevens(s[i := 1]) == Elevens(s) - 1
  {
    SumUpdate(s, i, 1);
  }

  /**
   * After the adjustment the hand is not bust or holds no 11; it keeps its length; every value
   * either stays or is an 11 turned into 1, and every such rewrite lowers the sum by 10.
   */
  lemma {:induction false} AdjustedSpec(s: seq<int>)
    ensures var r := Adjusted(s);
      && (Sum(r) <= 21 || 11 !in r)
      && |r| == |s|
      && (forall i :: 0 <= i < |s| ==> r[i] == s[i] || (s[i] == 11 && r[i] == 1))
      && Sum(s) - Sum(r) == 10 * (Elevens(s) - Elevens(r))
    decreases Elevens(s)
  {
    if Sum(s) > 21 && IndexOf11(s) >= 0 {
      var i := IndexOf11(s);
      RewriteOne(s, i);
      AdjustedSpec(s[i := 1]);
    }
  }

  /**
   * The aces are lowered leftmost first: when an 11 was rewritten, every 11 before it was
   * rewritten too.
   */
  lemma {:induction false} AdjustedLeftmostFirst(s: seq<int>, i: int, j: int)
    requires 0 <= i < j < |s| && s[i] == 11 && s[j] == 11
    requires Adjusted(s)[j] == 1
    ensures Adjusted(s)[i] == 1
    decreases Elevens(s)
  {
    AdjustedSpec(s);
    if Sum(s) > 21 && IndexOf11(s) >= 0 {
      var k := IndexOf11(s);
      RewriteOne(s, k);
      var t := s[k := 1];
      AdjustedSpec(t);
      if k != i {
        assert k < i by {
          assert s[..k + 1] == s[..k] + [s[k]];
        }
        AdjustedLeftmostFirst(t, i, j);
      }
    }
  }

  /** Adjusting an adjusted hand changes nothing. */
  lemma AdjustedIdempotent(s: seq<int>)
    ensures Adjusted(Adjusted(s)) == Adjusted(s)
  {
    AdjustedSpec(s);
  }

  /** `rawSum`. */
  method RawSum(hand: array<int>) returns (s: int)
    ensures s == Sum(hand[..])
  {
    s := 0;
    var i := 0;
    while i < hand.Length
      invariant 0 <= i <= hand.Length
      invariant s == Sum(hand[..i])
    {
      assert hand[..i + 1][..i] == hand[..i];
      s := s + hand[i];
      i := i + 1;
    }
    assert hand[..hand.Length] == hand[..];
  }

  /** `indexOfAce11`. */
  method IndexOfAce11(hand: array<int>) returns (r: int)
    ensures r == IndexOf11(hand[..])
  {
    var i := 0;
    while i < hand.Length
      invariant 0 <= i <= hand.Length
      invariant 11 !in hand[..i]
    {
      assert hand[..i + 1] == hand[..i] + [hand[i]];
      if hand[i] == 11 {
        return i;
      }
      i := i + 1;
    }
    assert hand[..hand.Length] == hand[..];
    return -1;
  }

  /** `adjustAcesIfBust`, rewriting the hand in place. */
  method AdjustAcesIfBust(hand: array<int>)
    modifies hand
    ensures hand[..] == Adjusted(old(hand[..]))
  {
    var sum := RawSum(hand);
    while sum > 21
      invariant Adjusted(hand[..]) == Adjusted(old(hand[..]))
      invariant sum == Sum(hand[..])
      decreases Elevens(hand[..])
    {
      var i := IndexOfAce11(hand);
      if i < 0 {
        break;
      }
      RewriteOne(hand[..], i);
      hand[i] := 1;
      sum := RawSum(hand);
    }
  }

  /** `value`: the hand's sum, its aces already counted as stored. */
  method Value(hand: array<int>) returns (v: int)
    ensures v == Sum(hand[..])
  {
    v := RawSum(hand);
  }

  /** `isBusted`. */
  method IsBusted(hand: array<int>) returns (b: bool)
    ensures b <==> Sum(hand[..]) > 21
  {
    var s := RawSum(hand);
    b := s > 21;
  }

  /** `isSoft`: an ace still counts 11. */
  method IsSoft(hand: array<int>) returns (b: bool)
    ensures b <==> 11 in hand[..]
  {
    for i := 0 to hand.Length
      invariant 11 !in hand[..i]
    {
      assert hand[..i + 1] == hand[..i] + [hand[i]];
      if hand[i] == 11 {
        return true;
      }
    }
    assert hand[..hand.Length] == hand[..];
    return false;
  }

  /** A hand that is still soft after the adjustment is not bust. */
  lemma SoftAfterAdjustNotBust(s: seq<int>)
    requires 11 in Adjusted(s)
    ensures Sum(Adjusted(s)) <= 21
  {
    AdjustedSpec(s);
  }
}
