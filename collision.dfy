/** Collision detection at the end of `update`: screen bounds, then the spikes of each obstacle. */
module Collision {
  import opened Physics
  import opened Obstacles
  import opened Scoring

  /** Width of an obstacle's spikes for the collision test. */
  const PipeWidth: real := 52.0

  /** The bird's top edge is above the screen or its bottom edge below the viewport height `ch`. */
  predicate OutOfBounds(b: Bird, ch: int)
  {
    b.y - b.r < 0.0 || b.y + b.r > ch as real
  }

  /** The bird's horizontal extent strictly overlaps the obstacle's 52-pixel column. */
  predicate Overlaps(b: Bird, p: Pipe)
  {
    b.x + b.r > p.x && b.x - b.r < p.x + PipeWidth
  }

  /** The bird reaches into the top spikes, whose apex is the oscillated `top`. */
  predicate HitsTop(b: Bird, p: Pipe)
  {
    b.y - b.r < p.top
  }

  /** The bird reaches into the bottom spikes, whose apex is `top + gap`. */
  predicate HitsBottom(b: Bird, p: Pipe)
  {
    b.y + b.r > p.top + p.gap as real
  }

  /** The collision verdict: a function of the bird, the viewport height and each obstacle's position, top and gap. */
  predicate Collides(b: Bird, ch: int, ps: seq<Pipe>): (c: bool)
    ensures OutOfBounds(b, ch) ==> c
    ensures |ps| == 0 ==> (c <==> OutOfBounds(b, ch))
    ensures !c ==> forall k :: 0 <= k < |ps| && Overlaps(b, ps[k]) ==>
                     ps[k].top <= b.y - b.r && b.y + b.r <= ps[k].top + ps[k].gap as real
  {
    OutOfBounds(b, ch)
    || exists k :: 0 <= k < |ps| && Overlaps(b, ps[k]) && (HitsTop(b, ps[k]) || HitsBottom(b, ps[k]))
  }

  /** How many times the loop body calls `endGame` for one obstacle: once per spike row the bird touches. */
  function HitsOf(b: Bird, p: Pipe): nat
  {
    if Overlaps(b, p) then (if HitsTop(b, p) then 1 else 0) + (if HitsBottom(b, p) then 1 else 0)
    else 0
  }

  /** How many times the obstacle loop calls `endGame`: at most twice per obstacle. */
  function PipeHits(b: Bird, ps: seq<Pipe>): (hits: nat)
    ensures hits <= 2 * |ps|
  {
    if |ps| == 0 then 0 else PipeHits(b, ps[..|ps| - 1]) + HitsOf(b, ps[|ps| - 1])
  }

  /**
   * How many times one tick calls `endGame`: the source does not stop at the
   * first hit, so the bounds test and every touched spike row each call it.
   */
  function EndGameCalls(b: Bird, ch: int, ps: seq<Pipe>): (calls: nat)
    ensures calls <= 1 + 2 * |ps|
  {
    (if OutOfBounds(b, ch) then 1 else 0) + PipeHits(b, ps)
  }

  /** The obstacle loop calls `endGame` at least once exactly when some obstacle is hit. */
  lemma {:induction false} PipeHitsPositive(b: Bird, ps: seq<Pipe>)
    ensures PipeHits(b, ps) > 0 <==>
            exists k :: 0 <= k < |ps| && Overlaps(b, ps[k]) && (HitsTop(b, ps[k]) || HitsBottom(b, ps[k]))
  {
    if |ps| > 0 {
      var n := |ps| - 1;
      PipeHitsPositive(b, ps[..n]);
      if PipeHits(b, ps[..n]) > 0 {
        var k :| 0 <= k < n && Overlaps(b, ps[..n][k]) && (HitsTop(b, ps[..n][k]) || HitsBottom(b, ps[..n][k]));
        assert ps[k] == ps[..n][k];
      }
      if exists k :: 0 <= k < |ps| && Overlaps(b, ps[k]) && (HitsTop(b, ps[k]) || HitsBottom(b, ps[k])) {
        var k :| 0 <= k < |ps| && Overlaps(b, ps[k]) && (HitsTop(b, ps[k]) || HitsBottom(b, ps[k]));
        if k < n {
          assert ps[..n][k] == ps[k];
        }
      }
    }
  }

  /** A tick ends the run (calls `endGame` at least once) exactly when the collision verdict is true. */
  lemma EndGameIffCollides(b: Bird, ch: int, ps: seq<Pipe>)
    ensures EndGameCalls(b, ch, ps) > 0 <==> Collides(b, ch, ps)
  {
    PipeHitsPositive(b, ps);
  }

  /** Scoring (which only sets `passed`) never changes how often the collision test fires. */
  lemma {:induction false} ScoringKeepsHits(b: Bird, ch: int, ps: seq<Pipe>, scorer: Bird)
    ensures EndGameCalls(b, ch, ScoreAll(ps, scorer)) == EndGameCalls(b, ch, ps)
  {
    PipeHitsScored(b, ps, scorer);
  }

  lemma {:induction false} PipeHitsScored(b: Bird, ps: seq<Pipe>, scorer: Bird)
    ensures PipeHits(b, ScoreAll(ps, scorer)) == PipeHits(b, ps)
  {
    if |ps| > 0 {
      var n := |ps| - 1;
      ScoreAllPrefix(ps, scorer, n);
      PipeHitsScored(b, ps[..n], scorer);
    }
  }

  /** A bird at the top of the screen is out of bounds; one reaching above an overlapped obstacle's top hits it. */
  lemma CollisionExamples(p: Pipe)
    requires p.top == 100.0 && p.gap == 140 && p.x == 60.0
    ensures Collides(Bird(80.0, 0.0, 14.0, 0.0), 640, [])
    ensures Collides(Bird(80.0, 95.0, 14.0, 0.0), 640, [p])
    ensures !Collides(Bird(80.0, 170.0, 14.0, 0.0), 640, [p])
  {
    assert Overlaps(Bird(80.0, 95.0, 14.0, 0.0), [p][0]);
  }
}
