/**
 * The showdown of `SevenPokerGame` as methods on `State`: contenders, winners, the pot split
 * and `resolveShowdown`.
 */
module SevenPlay {
  import opened Wrappers
  import opened Collections
  import opened Arith
  import opened PokerScore
  import opened ServerCard
  import opened ServerPoker
  import opened SevenTable
  import opened SevenLead
  import opened SevenRules
  import opened SevenActions
  import opened SevenGame
  import opened SevenScore

  // ---------------------------------------------------------------- showdown

  /** The contenders of `resolveShowdown`: the seats still in the hand, in seat order. */
  method Contenders(s: State) returns (cs: seq<string>)
    ensures cs == ActiveIn(s.order, s.players)
  {
    cs := [];
    for k := 0 to |s.order|
      invariant cs == ActiveIn(s.order[..k], s.players)
    {
      var uid := s.order[k];
      assert s.order[..k + 1] == s.order[..k] + [uid];
      ActiveInSnoc(s.order[..k], uid, s.players);
      if uid in s.players && !s.players[uid].folded {
        cs := cs + [uid];
      }
    }
    assert s.order[..|s.order|] == s.order;
  }

  /** A contender no one beats is one whose score equals the highest. */
  lemma TopIsBest(cs: seq<string>, scores: map<string, HandScore>, best: HandScore, at: int, u: string)
    requires 0 <= at < |cs| && cs[at] in scores && scores[cs[at]] == best
    requires forall v :: v in scores ==> Compare(scores[v], best) <= 0
    requires u in scores
    ensures Top(cs, scores, u) <==> Compare(scores[u], best) == 0
  {
    CompareZeroIffEqual(scores[u], best);
    if Top(cs, scores, u) {
      CompareAntisymmetric(scores[u], best);
    }
  }

  /** The winners loop of `resolveShowdown`: the contenders whose score equals the highest, in seat order. */
  method TopContenders(cs: seq<string>, scores: map<string, HandScore>, best: HandScore, ghost at: int) returns (ws: seq<string>)
    requires 0 <= at < |cs| && cs[at] in scores && scores[cs[at]] == best
    requires forall u :: u in scores ==> Compare(scores[u], best) <= 0
    ensures ws == Winners(cs, scores)
    ensures ws != []
  {
    ws := [];
    for k := 0 to |cs|
      invariant ws == Tied(cs[..k], cs, scores)
    {
      var uid := cs[k];
      assert cs[..k + 1][..k] == cs[..k];
      if uid in scores {
        TopIsBest(cs, scores, best, at, uid);
        var cmp := CompareTo(scores[uid], best);
        if cmp == 0 {
          ws := ws + [uid];
        }
      }
    }
    assert cs[..|cs|] == cs;
    TiedSpec(cs, cs, scores);
    TopIsBest(cs, scores, best, at, cs[at]);
    CompareReflexive(best);
    assert cs[at] in ws;
  }

  /** The payout loop of `resolveShowdown`: `pot / w` each, and one more chip to each of the first `pot % w` winners. */
  method SplitPot(ws: seq<string>, pot: int) returns (payouts: map<string, int>)
    requires ws != []
    ensures payouts == Payouts(ws, pot, |ws|)
  {
    var w := |ws|;
    var share := Div(pot, w);
    var remainder := Rem(pot, w);
    payouts := map[];
    for i := 0 to w
      invariant payouts == Payouts(ws[..i], pot, w)
      invariant remainder > 0 <==> i < Rem(pot, w)
      invariant remainder > 0 ==> remainder == Rem(pot, w) - i
    {
      var payout := share;
      if remainder > 0 {
        payout := payout + 1;
        remainder := remainder - 1;
      }
      assert payout == Share(pot, w, i);
      assert ws[..i + 1][..i] == ws[..i];
      payouts := payouts[ws[i] := payout];
    }
    assert ws[..w] == ws;
  }

  /** Records the showdown scores. */
  method RecordScores(s: State, scores: map<string, HandScore>)
    modifies s
    ensures s.View() == old(s.View()).(showdownScores := scores)
  {
    s.showdownScores := scores;
  }

  /** The table after the showdown is the one `ShowdownOutcome` describes, once its parts are the contenders' scores, the tied winners and their split. */
  lemma ShowdownIs(t: Table, cs: seq<string>, scores: map<string, HandScore>, ws: seq<string>, payouts: map<string, int>)
    requires cs == ActiveIn(t.order, t.players)
    requires forall u :: u in scores <==> u in cs
    requires Scored(t.players, cs, scores)
    requires ws == Winners(cs, scores) && ws != []
    requires payouts == Payouts(ws, t.pot, |ws|)
    ensures ShowdownOutcome(t, t.(players := ShowdownSeats(t.players, cs, ws, scores, payouts), winners := ws,
      payouts := payouts, settledPot := t.pot, pot := 0, inProgress := false, turn := None, turnIndex := -1,
      pending := [], stage := StreetCount, showdownScores := scores))
  {
  }

  /** `resolveShowdown`: settlement by fold when no seat is left in the hand, otherwise the showdown. */
  method ResolveShowdown(s: State)
    modifies s
    requires NoDup(s.order) && forall u :: u in s.players <==> u in s.order
    requires forall u :: Active(s.players, u) ==> |s.players[u].cards| >= 5
    ensures ActiveIn(old(s.order), old(s.players)) == [] ==> s.View() == FoldSettlement(old(s.View()))
    ensures ActiveIn(old(s.order), old(s.players)) != [] ==> ShowdownOutcome(old(s.View()), s.View())
  {
    ghost var t := s.View();
    var cs := Contenders(s);
    if cs == [] {
      SettleByFold(s);
      return;
    }
    ActiveInSpec(s.order, s.players);
    var scores, best, at := ScoreContenders(s.players, cs);
    var ws := TopContenders(cs, scores, best, at);
    var payouts := SplitPot(ws, s.pot);
    var players := ShowdownSeats(s.players, cs, ws, scores, payouts);
    Award(s, players, ws, payouts);
    CloseHand(s);
    RecordScores(s, scores);
    ShowdownIs(t, cs, scores, ws, payouts);
  }
}
