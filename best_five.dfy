/**
 * The best-of-n search that sits on top of the evaluator: `SevenPokerGame.bestFiveScore` (any
 * n >= 5), the console `SevenPoker.best5Score` and `SevenStudFixedLimit.best5` (n == 7). All
 * three run the same five nested loops over the index tuples a < b < c < d < e in
 * lexicographic order and replace the running best only on a strictly greater score, so the
 * first maximal five-card choice is the one kept.
 */
module BestFive {
  import opened Wrappers
  import opened PokerScore
  import opened PokerSpec
  import opened PokerEval

  /** Five card positions. */
  datatype Pick = Pick(a: int, b: int, c: int, d: int, e: int)

  /** Strictly increasing positions into a hand of `n` cards. */
  predicate IsPick(p: Pick, n: int)
  {
    0 <= p.a < p.b < p.c < p.d < p.e < n
  }

  /** The five cards at the positions of `p`, in position order. */
  function Choose<T>(h: seq<T>, p: Pick): (five: seq<T>)
    requires IsPick(p, |h|)
    ensures |five| == 5
    ensures five[0] == h[p.a] && five[1] == h[p.b] && five[2] == h[p.c] && five[3] == h[p.d] && five[4] == h[p.e]
  {
    [h[p.a], h[p.b], h[p.c], h[p.d], h[p.e]]
  }

  /** The score `evaluate` gives the five cards at `p`. */
  function PickScore(h: seq<Keyed>, w: bool, p: Pick): HandScore
    requires ValidHand(h) && IsPick(p, |h|)
  {
    ChooseValid(h, p);
    Score(Choose(h, p), w)
  }

  lemma ChooseValid(h: seq<Keyed>, p: Pick)
    requires ValidHand(h) && IsPick(p, |h|)
    ensures ValidHand(Choose(h, p))
  {
    var five := Choose(h, p);
    forall i | 0 <= i < 5
      ensures ValidCard(five[i])
    {
      assert five[i] in h;
    }
  }

  // The loop order, one predicate per nesting depth: `q` comes before the loop position.
  predicate Before1(q: Pick, a: int)
  {
    q.a < a
  }

  predicate Before2(q: Pick, a: int, b: int)
  {
    q.a < a || (q.a == a && q.b < b)
  }

  predicate Before3(q: Pick, a: int, b: int, c: int)
  {
    Before2(q, a, b) || (q.a == a && q.b == b && q.c < c)
  }

  predicate Before4(q: Pick, a: int, b: int, c: int, d: int)
  {
    Before3(q, a, b, c) || (q.a == a && q.b == b && q.c == c && q.d < d)
  }

  /** `q` is visited before `p` by the nested loops. */
  predicate Before(q: Pick, p: Pick)
  {
    Before4(q, p.a, p.b, p.c, p.d) || (q.a == p.a && q.b == p.b && q.c == p.c && q.d == p.d && q.e < p.e)
  }

  /** Two different picks are visited one before the other. */
  lemma BeforeTotal(p: Pick, q: Pick)
    requires p != q
    ensures Before(p, q) || Before(q, p)
  {
  }

  /** The running best of the loops: nothing yet, or a score and the pick it came from. */
  datatype Best = Best(found: bool, score: HandScore, pick: Pick)

  /** `S` scores every pick into a hand of `n` cards. */
  ghost predicate Total(n: int, S: Pick --> HandScore)
  {
    forall q :: IsPick(q, n) ==> S.requires(q)
  }

  /**
   * Every pick the loops visit before position `f` has been compared: `s` holds the score of one
   * of them, no visited score is greater, and the ones visited before `s.pick` are all smaller.
   */
  ghost predicate Upto(n: int, S: Pick --> HandScore, s: Best, f: Pick)
    requires Total(n, S)
  {
    && (s.found ==> IsPick(s.pick, n) && s.score == S(s.pick) && Before(s.pick, f))
    && forall q :: IsPick(q, n) && Before(q, f) ==>
         && s.found
         && Compare(S(q), s.score) <= 0
         && (Before(q, s.pick) ==> Compare(S(q), s.score) < 0)
  }

  /** Two loop positions with the same picks before them. */
  ghost predicate SameBefore(f: Pick, g: Pick, n: int)
  {
    forall q :: IsPick(q, n) ==> (Before(q, f) <==> Before(q, g))
  }

  // The end of one loop is the start of the next iteration of the loop around it.
  lemma CarryD(a: int, b: int, c: int, d: int, n: int)
    ensures SameBefore(Pick(a, b, c, d, n), Pick(a, b, c, d + 1, d + 2), n)
  {
  }

  lemma CarryC(a: int, b: int, c: int, n: int)
    ensures SameBefore(Pick(a, b, c, n - 1, n), Pick(a, b, c + 1, c + 2, c + 3), n)
  {
  }

  lemma CarryB(a: int, b: int, n: int)
    ensures SameBefore(Pick(a, b, n - 2, n - 1, n), Pick(a, b + 1, b + 2, b + 3, b + 4), n)
  {
  }

  lemma CarryA(a: int, n: int)
    ensures SameBefore(Pick(a, n - 3, n - 2, n - 1, n), Pick(a + 1, a + 2, a + 3, a + 4, a + 5), n)
  {
  }

  lemma UptoSame(n: int, S: Pick --> HandScore, s: Best, f: Pick, g: Pick)
    requires Total(n, S) && Upto(n, S, s, f) && SameBefore(f, g, n)
    requires s.found ==> Before(s.pick, g)
    ensures Upto(n, S, s, g)
  {
  }

  /** A strictly better score stays above everything the old best was above. */
  lemma Raise(x: HandScore, prev: HandScore, next: HandScore)
    requires Compare(x, prev) <= 0 && Compare(next, prev) > 0
    ensures Compare(x, next) < 0
  {
    CompareAntisymmetric(x, prev);
    CompareAntisymmetric(x, next);
    CompareTransitive(next, prev, x);
  }

  /** The body of the innermost loop: score the pick and keep it if it beats the running best. */
  method Consider(n: int, S: Pick --> HandScore, s: Best, p: Pick) returns (s': Best)
    requires Total(n, S) && IsPick(p, n) && Upto(n, S, s, p)
    ensures Upto(n, S, s', Pick(p.a, p.b, p.c, p.d, p.e + 1))
  {
    var sc := S(p);
    var cmp := 1;
    if s.found {
      cmp := CompareTo(sc, s.score);
    }
    var next := Pick(p.a, p.b, p.c, p.d, p.e + 1);
    if cmp > 0 {
      forall q | IsPick(q, n) && Before(q, p)
        ensures Compare(S(q), sc) < 0
      {
        Raise(S(q), s.score, sc);
      }
      CompareReflexive(sc);
      s' := Best(true, sc, p);
    } else {
      CompareAntisymmetric(sc, s.score);
      s' := s;
    }
    assert forall q :: IsPick(q, n) && Before(q, next) ==> Before(q, p) || q == p;
  }

  /**
   * The five nested loops over a hand of `n` cards, with `S` giving the score of each choice of
   * five. The running best starts empty and is replaced when it is empty or the new score
   * compares greater. Each loop is a method of its own, from the outermost down.
   */
  method Search(n: int, S: Pick --> HandScore) returns (best: HandScore, pick: Pick)
    requires n >= 5 && Total(n, S)
    ensures IsPick(pick, n) && best == S(pick)
    ensures forall q :: IsPick(q, n) ==> Compare(S(q), best) <= 0
    ensures forall q :: IsPick(q, n) && Before(q, pick) ==> Compare(S(q), best) < 0
  {
    var s := Best(false, HandScore(HighCard, []), Pick(0, 1, 2, 3, 4));
    for a := 0 to n - 4
      invariant Upto(n, S, s, Pick(a, a + 1, a + 2, a + 3, a + 4))
    {
      s := LoopB(n, S, s, a);
    }
    assert IsPick(Pick(0, 1, 2, 3, 4), n) && Before(Pick(0, 1, 2, 3, 4), Pick(n - 4, n - 3, n - 2, n - 1, n));
    best, pick := s.score, s.pick;
  }

  /** The search over the five-card choices of a keyed hand, scored by the evaluator. */
  method BestOf(h: seq<Keyed>, w: bool) returns (best: HandScore, pick: Pick)
    requires |h| >= 5 && ValidHand(h)
    ensures IsPick(pick, |h|) && best == PickScore(h, w, pick)
    ensures forall q :: IsPick(q, |h|) ==> Compare(PickScore(h, w, q), best) <= 0
    ensures forall q :: IsPick(q, |h|) && Before(q, pick) ==> Compare(PickScore(h, w, q), best) < 0
  {
    best, pick := Search(|h|, q requires IsPick(q, |h|) => PickScore(h, w, q));
  }

  method LoopB(n: int, S: Pick --> HandScore, s: Best, a: int) returns (s': Best)
    requires Total(n, S) && 0 <= a < n - 4 && Upto(n, S, s, Pick(a, a + 1, a + 2, a + 3, a + 4))
    ensures Upto(n, S, s', Pick(a + 1, a + 2, a + 3, a + 4, a + 5))
  {
    s' := s;
    for b := a + 1 to n - 3
      invariant Upto(n, S, s', Pick(a, b, b + 1, b + 2, b + 3))
    {
      s' := LoopC(n, S, s', a, b);
    }
    CarryA(a, n);
    UptoSame(n, S, s', Pick(a, n - 3, n - 2, n - 1, n), Pick(a + 1, a + 2, a + 3, a + 4, a + 5));
  }

  method LoopC(n: int, S: Pick --> HandScore, s: Best, a: int, b: int) returns (s': Best)
    requires Total(n, S) && 0 <= a < b < n - 3 && Upto(n, S, s, Pick(a, b, b + 1, b + 2, b + 3))
    ensures Upto(n, S, s', Pick(a, b + 1, b + 2, b + 3, b + 4))
  {
    s' := s;
    for c := b + 1 to n - 2
      invariant Upto(n, S, s', Pick(a, b, c, c + 1, c + 2))
    {
      s' := LoopD(n, S, s', a, b, c);
    }
    CarryB(a, b, n);
    UptoSame(n, S, s', Pick(a, b, n - 2, n - 1, n), Pick(a, b + 1, b + 2, b + 3, b + 4));
  }

  method LoopD(n: int, S: Pick --> HandScore, s: Best, a: int, b: int, c: int) returns (s': Best)
    requires Total(n, S) && 0 <= a < b < c < n - 2 && Upto(n, S, s, Pick(a, b, c, c + 1, c + 2))
    ensures Upto(n, S, s', Pick(a, b, c + 1, c + 2, c + 3))
  {
    s' := s;
    for d := c + 1 to n - 1
      invariant Upto(n, S, s', Pick(a, b, c, d, d + 1))
    {
      s' := LoopE(n, S, s', a, b, c, d);
    }
    CarryC(a, b, c, n);
    UptoSame(n, S, s', Pick(a, b, c, n - 1, n), Pick(a, b, c + 1, c + 2, c + 3));
  }

  method LoopE(n: int, S: Pick --> HandScore, s: Best, a: int, b: int, c: int, d: int) returns (s': Best)
    requires Total(n, S) && 0 <= a < b < c < d < n - 1 && Upto(n, S, s, Pick(a, b, c, d, d + 1))
    ensures Upto(n, S, s', Pick(a, b, c, d + 1, d + 2))
  {
    s' := s;
    for e := d + 1 to n
      invariant Upto(n, S, s', Pick(a, b, c, d, e))
    {
      s' := Consider(n, S, s', Pick(a, b, c, d, e));
    }
    CarryD(a, b, c, d, n);
    UptoSame(n, S, s', Pick(a, b, c, d, n), Pick(a, b, c, d + 1, d + 2));
  }
}
