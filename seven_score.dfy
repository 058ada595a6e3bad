/**
 * The scoring loop of `SevenPokerGame.resolveShowdown`: each contender's best five-card score
 * and the highest of them.
 */
module SevenScore {
  import opened Wrappers
  import opened Collections
  import opened PokerScore
  import opened ServerCard
  import opened ServerPoker
  import opened SevenTable
  import opened SevenRules

  /** The scores so far belong to exactly the first `k` contenders. */
  ghost predicate KeysUpTo(cs: seq<string>, k: int, scores: map<string, HandScore>)
  {
    && 0 <= k <= |cs|
    && (forall u :: u in scores <==> u in cs[..k])
  }

  /**
   * Every score so far is judged right for its seat's cards by `isBest`. The scoring loop
   * instantiates `isBest` with `IsBestScore`; the step lemmas hold for any judgement.
   */
  ghost predicate AllJudged(isBest: (seq<Card>, HandScore) -> bool, players: map<string, Side>, scores: map<string, HandScore>)
  {
    forall u :: u in scores ==> u in players && isBest(players[u].cards, scores[u])
  }

  /** `best` is the highest of the first `k` contenders' scores, held by `cs[at]`; none before that. */
  ghost predicate HighestUpTo(cs: seq<string>, k: int, scores: map<string, HandScore>, best: Option<HandScore>, at: int)
  {
    && 0 <= k <= |cs|
    && (best.None? <==> k == 0)
    && (best.Some? ==>
         && 0 <= at < k && cs[at] in scores && scores[cs[at]] == best.value
         && forall u :: u in scores ==> Compare(scores[u], best.value) <= 0)
  }

  /** A score above the highest so far is above every score so far. */
  lemma {:induction false} NewBest(scores: map<string, HandScore>, old_best: HandScore, score: HandScore)
    requires forall u :: u in scores ==> Compare(scores[u], old_best) <= 0
    requires Compare(score, old_best) > 0
    ensures forall u :: u in scores ==> Compare(scores[u], score) <= 0
  {
    forall u | u in scores
      ensures Compare(scores[u], score) <= 0
    {
      CompareAntisymmetric(scores[u], old_best);
      CompareTransitive(score, old_best, scores[u]);
      CompareAntisymmetric(score, scores[u]);
    }
  }

  /** Scoring one more contender extends the keys by that contender. */
  lemma {:induction false} KeysStep(cs: seq<string>, k: int, scores: map<string, HandScore>, score: HandScore)
    requires KeysUpTo(cs, k, scores) && k < |cs|
    ensures KeysUpTo(cs, k + 1, scores[cs[k] := score])
  {
    assert cs[..k + 1] == cs[..k] + [cs[k]];
  }

  /** Recording a seat's score that `isBest` accepts keeps every score accepted. */
  lemma {:induction false} JudgedStep(isBest: (seq<Card>, HandScore) -> bool, players: map<string, Side>, scores: map<string, HandScore>, u: string, score: HandScore)
    requires AllJudged(isBest, players, scores)
    requires u in players && isBest(players[u].cards, score)
    ensures AllJudged(isBest, players, scores[u := score])
  {
    forall v | v in scores[u := score]
      ensures v in players && isBest(players[v].cards, scores[u := score][v])
    {
      if v != u {
        assert scores[u := score][v] == scores[v];
      }
    }
  }

  /** One more contender becomes the highest exactly when it beats the highest so far. */
  lemma {:induction false} HighestStep(cs: seq<string>, k: int, scores: map<string, HandScore>, top: Option<HandScore>, at: int, score: HandScore)
    requires KeysUpTo(cs, k, scores) && HighestUpTo(cs, k, scores, top, at) && k < |cs| && NoDup(cs)
    ensures var beats := top.None? || Compare(score, top.value) > 0;
      HighestUpTo(cs, k + 1, scores[cs[k] := score], if beats then Some(score) else top, if beats then k else at)
  {
    var scores' := scores[cs[k] := score];
    CompareReflexive(score);
    if top.Some? {
      assert cs[at] != cs[k];
      assert scores'[cs[at]] == top.value;
      if Compare(score, top.value) > 0 {
        NewBest(scores, top.value, score);
        forall u | u in scores'
          ensures Compare(scores'[u], score) <= 0
        {
          if u != cs[k] {
            assert scores'[u] == scores[u];
          }
        }
      } else {
        CompareAntisymmetric(score, top.value);
        forall u | u in scores'
          ensures Compare(scores'[u], top.value) <= 0
        {
          if u != cs[k] {
            assert scores'[u] == scores[u];
          }
        }
      }
    } else {
      forall u | u in scores'
        ensures Compare(scores'[u], score) <= 0
      {
        assert u == cs[k];
      }
    }
  }

  /** Once every contender is scored, the loop's invariant gives the showdown's scores and highest. */
  lemma {:induction false} ScoredAll(players: map<string, Side>, cs: seq<string>, scores: map<string, HandScore>, top: Option<HandScore>, at: int)
    requires cs != []
    requires KeysUpTo(cs, |cs|, scores) && AllJudged((c, s) => IsBestScore(c, s), players, scores)
    requires HighestUpTo(cs, |cs|, scores, top, at)
    ensures forall u :: u in scores <==> u in cs
    ensures Scored(players, cs, scores)
    ensures top.Some? && 0 <= at < |cs| && cs[at] in scores && scores[cs[at]] == top.value
    ensures forall u :: u in scores ==> Compare(scores[u], top.value) <= 0
  {
    assert cs[..|cs|] == cs;
  }

  /** A contender's score in `resolveShowdown`: the best five-card score of its seat's cards. */
  method SeatScore(players: map<string, Side>, uid: string) returns (score: HandScore)
    requires uid in players && |players[uid].cards| >= 5
    ensures IsBestScore(players[uid].cards, score)
  {
    var r := BestFiveScore(players[uid].cards);
    score := r.value;
  }

  /** Whether `score` takes over as the highest: `best == null || score.compareTo(best) > 0`. */
  method Beats(score: HandScore, top: Option<HandScore>) returns (b: bool)
    ensures b <==> top.None? || Compare(score, top.value) > 0
  {
    b := true;
    if top.Some? {
      var cmp := CompareTo(score, top.value);
      b := cmp > 0;
    }
  }

  /**
   * The scoring loop of `resolveShowdown`: every contender's best five-card score, and the
   * highest score, held by contender `at`.
   */
  method ScoreContenders(players: map<string, Side>, cs: seq<string>) returns (scores: map<string, HandScore>, best: HandScore, ghost at: int)
    requires cs != [] && NoDup(cs)
    requires forall u :: u in cs ==> u in players && |players[u].cards| >= 5
    ensures forall u :: u in scores <==> u in cs
    ensures Scored(players, cs, scores)
    ensures 0 <= at < |cs| && cs[at] in scores && scores[cs[at]] == best
    ensures forall u :: u in scores ==> Compare(scores[u], best) <= 0
  {
    scores := map[];
    var top: Option<HandScore> := None;
    at := 0;
    var k := 0;
    while k < |cs|
      invariant KeysUpTo(cs, k, scores)
      invariant AllJudged((c, s) => IsBestScore(c, s), players, scores)
      invariant HighestUpTo(cs, k, scores, top, at)
    {
      var uid := cs[k];
      var score := SeatScore(players, uid);
      KeysStep(cs, k, scores, score);
      JudgedStep((c, s) => IsBestScore(c, s), players, scores, uid, score);
      HighestStep(cs, k, scores, top, at, score);
      var beats := Beats(score, top);
      if beats {
        top := Some(score);
        at := k;
      }
      scores := scores[uid := score];
      k := k + 1;
    }
    ScoredAll(players, cs, scores, top, at);
    best := top.value;
  }
}
