/** Scoring: an obstacle scores once, the first tick its right part is behind the bird. */
module Scoring {
  import opened Physics
  import opened Obstacles

  /** The source compares the obstacle's `x + 40` (not its 52-pixel width) with the bird's left edge. */
  const PassOffset: real := 40.0

  /** The obstacle scores on this tick: not yet passed and fully behind the bird's left edge. */
  predicate Crosses(p: Pipe, b: Bird)
  {
    !p.passed && p.x + PassOffset < b.x - b.r
  }

  /** One obstacle after the scoring test: only `passed` can change, and only from false to true. */
  function ScorePipe(p: Pipe, b: Bird): (q: Pipe)
    ensures q == p.(passed := q.passed)
    ensures q.passed <==> p.passed || p.x + PassOffset < b.x - b.r
    ensures p.passed ==> q == p
  {
    if Crosses(p, b) then p.(passed := true) else p
  }

  /** Every obstacle after the scoring loop, in place and in order. */
  function ScoreAll(ps: seq<Pipe>, b: Bird): (qs: seq<Pipe>)
    ensures |qs| == |ps|
  {
    seq(|ps|, k requires 0 <= k < |ps| => ScorePipe(ps[k], b))
  }

  /**
   * The scoring loop changes nothing but `passed` flags, sets a flag only on an
   * obstacle fully behind the bird, and never clears one.
   */
  lemma ScoreAllFlags(ps: seq<Pipe>, b: Bird)
    ensures var qs := ScoreAll(ps, b);
            forall k :: 0 <= k < |qs| ==>
              && qs[k] == ps[k].(passed := qs[k].passed)
              && (qs[k].passed <==> ps[k].passed || ps[k].x + PassOffset < b.x - b.r)
              && (ps[k].passed ==> qs[k].passed)
  {
  }

  /** How many obstacles score on this tick: the amount the scoring loop adds to `score`; at most one per obstacle. */
  function NewlyPassed(ps: seq<Pipe>, b: Bird): (n: nat)
    ensures n <= |ps|
  {
    if |ps| == 0 then 0
    else NewlyPassed(ps[..|ps| - 1], b) + (if Crosses(ps[|ps| - 1], b) then 1 else 0)
  }

  /** How many obstacles have not been passed yet. */
  function Unpassed(ps: seq<Pipe>): nat
  {
    if |ps| == 0 then 0
    else Unpassed(ps[..|ps| - 1]) + (if ps[|ps| - 1].passed then 0 else 1)
  }

  /** The number of positions whose `passed` flag went from false to true between two lists. */
  function Flips(before: seq<Pipe>, after: seq<Pipe>): nat
    requires |before| == |after|
  {
    if |before| == 0 then 0
    else Flips(before[..|before| - 1], after[..|after| - 1])
         + (if !before[|before| - 1].passed && after[|after| - 1].passed then 1 else 0)
  }

  /** Scoring a prefix is the prefix of scoring the whole list. */
  lemma ScoreAllPrefix(ps: seq<Pipe>, b: Bird, n: nat)
    requires n <= |ps|
    ensures ScoreAll(ps[..n], b) == ScoreAll(ps, b)[..n]
  {
  }

  /** The score grows by exactly the number of obstacles whose `passed` flag the loop flipped. */
  lemma {:induction false} ScoreCountsFlips(ps: seq<Pipe>, b: Bird)
    ensures NewlyPassed(ps, b) == Flips(ps, ScoreAll(ps, b))
  {
    if |ps| > 0 {
      var n := |ps| - 1;
      ScoreAllPrefix(ps, b, n);
      ScoreCountsFlips(ps[..n], b);
    }
  }

  /**
   * Each point scored uses up one obstacle that had not been passed, so the
   * points a list of obstacles can ever yield are bounded by its unpassed ones.
   */
  lemma {:induction false} ScoreConsumesUnpassed(ps: seq<Pipe>, b: Bird)
    ensures NewlyPassed(ps, b) <= Unpassed(ps)
    ensures Unpassed(ScoreAll(ps, b)) == Unpassed(ps) - NewlyPassed(ps, b)
  {
    if |ps| > 0 {
      var n := |ps| - 1;
      ScoreAllPrefix(ps, b, n);
      ScoreConsumesUnpassed(ps[..n], b);
    }
  }

  /** An obstacle already marked passed never scores again: rescoring adds nothing and changes nothing. */
  lemma {:induction false} ScoreOnce(ps: seq<Pipe>, b: Bird)
    requires forall k :: 0 <= k < |ps| ==> ps[k].passed
    ensures NewlyPassed(ps, b) == 0
    ensures ScoreAll(ps, b) == ps
  {
    if |ps| > 0 {
      ScoreOnce(ps[..|ps| - 1], b);
    }
  }

  /** After a tick's scoring, scoring the same obstacles again for the same bird adds nothing. */
  lemma {:induction false} ScoreIdempotent(ps: seq<Pipe>, b: Bird)
    ensures NewlyPassed(ScoreAll(ps, b), b) == 0
    ensures ScoreAll(ScoreAll(ps, b), b) == ScoreAll(ps, b)
  {
    if |ps| > 0 {
      var n := |ps| - 1;
      ScoreAllPrefix(ps, b, n);
      ScoreIdempotent(ps[..n], b);
      assert ScoreAll(ps, b)[..n] == ScoreAll(ps[..n], b);
    }
  }

  /** Scoring moves nothing: obstacles on screen and within the clamp stay so. */
  lemma ScoreKeepsPlacement(ps: seq<Pipe>, b: Bird, ch: int)
    requires forall k :: 0 <= k < |ps| ==> OnScreen(ps[k]) && Clamped(ps[k], ch)
    ensures forall k :: 0 <= k < |ScoreAll(ps, b)| ==> OnScreen(ScoreAll(ps, b)[k]) && Clamped(ScoreAll(ps, b)[k], ch)
  {
  }
}
