/**
 * Obstacles ("pipes" in the source): the spawn formulas of `spawnPipe`, the
 * per-tick animation of `update` (scroll, drift, oscillation, clamp) and the
 * off-screen cull.
 */
module Obstacles {
  import opened Arith

  /** `Math.PI`, as the decimal JavaScript prints for it. */
  const Pi: real := 3.141592653589793
  /** Smallest gap a spawned obstacle gets. */
  const MinGap: int := 90
  /** `topMin` of `spawnPipe`: margin kept above and below the gap at spawn time. */
  const SpawnMargin: int := 30
  /** Margin of the `baseTop` clamp applied while the obstacle is animated. */
  const ClampMargin: real := 8.0
  /** Obstacles at or left of this horizontal position are removed. */
  const CullX: real := -60.0
  /** How far right of the visible area an obstacle spawns. */
  const SpawnOffset: int := 20

  /**
   * One obstacle: a top and a bottom row of spikes with a gap between them.
   * `top` is the oscillated upper edge of the gap, `baseTop` its slowly drifting anchor.
   */
  datatype Pipe = Pipe(
    x: real,
    baseTop: real,
    top: real,
    gap: int,
    amp: int,
    freq: real,
    phase: real,
    vDrift: real,
    passed: bool)

  /** The five `Math.random()` values `spawnPipe` draws, in the order it draws them. */
  datatype Draws = Draws(amp: real, base: real, freq: real, phase: real, drift: real)

  predicate InUnit(u: real) { 0.0 <= u < 1.0 }

  /** What `Math.random` promises: every draw lies in [0, 1). */
  predicate ValidDraws(d: Draws)
  {
    InUnit(d.amp) && InUnit(d.base) && InUnit(d.freq) && InUnit(d.phase) && InUnit(d.drift)
  }

  /** `Math.sin`, kept abstract: any function whose values lie in [-1, 1]. */
  type Sine = f: real -> real | forall x :: -1.0 <= f(x) <= 1.0 witness (x: real) => 0.0

  /** `canvas.clientWidth || 480`: the width used when the canvas reports none. */
  function ViewWidth(clientWidth: nat): (w: nat)
    ensures w > 0
    ensures clientWidth > 0 ==> w == clientWidth
  {
    if clientWidth == 0 then 480 else clientWidth
  }

  /** `canvas.clientHeight || 640`, as `update` and `spawnPipe` read it. */
  function ViewHeight(clientHeight: nat): (h: nat)
    ensures h > 0
    ensures clientHeight > 0 ==> h == clientHeight
  {
    if clientHeight == 0 then 640 else clientHeight
  }

  /** The gap height: the viewport's share of the profile, rounded down, never below 90. */
  function SpawnGap(h: int, gapFactor: real): (gap: int)
    ensures gap >= MinGap
    ensures gap as real <= Max(MinGap as real, h as real * gapFactor) < gap as real + 1.0
  {
    MaxInt(MinGap, (h as real * gapFactor).Floor)
  }

  /** The oscillation amplitude: a whole number from 8 to 55. */
  function SpawnAmp(u: real): (amp: int)
    requires InUnit(u)
    ensures 8 <= amp <= 55
  {
    (8.0 + u * 48.0).Floor
  }

  /** The room left for the anchor once both spawn margins and twice the amplitude are taken. */
  function SpawnRoom(h: int, gap: int, amp: int): int
  {
    h - gap - 2 * SpawnMargin - 2 * amp
  }

  /**
   * The anchor at spawn: drawn from the anchor range narrowed by `amp` on both
   * sides, so that the oscillated edge stays inside [30, h - gap - 30); when no
   * room is left the range is one unit wide and the anchor is its lower end.
   */
  function SpawnBaseTop(h: int, gap: int, amp: int, u: real): (baseTop: int)
    requires InUnit(u)
    ensures baseTop >= SpawnMargin + amp
    ensures SpawnRoom(h, gap, amp) >= 1 ==> baseTop + amp <= h - gap - SpawnMargin - 1
    ensures SpawnRoom(h, gap, amp) < 1 ==> baseTop == SpawnMargin + amp
  {
    var topMin := SpawnMargin;
    var topMax := h - gap - SpawnMargin;
    var width := MaxInt(1, topMax - topMin - amp * 2);
    ScaledDrawBelow(u, width);
    (topMin as real + amp as real + u * width as real).Floor
  }

  /** A draw in [0, 1) scaled by a positive whole width stays in [0, width). */
  lemma ScaledDrawBelow(u: real, width: int)
    requires InUnit(u) && width >= 1
    ensures 0.0 <= u * width as real < width as real
  {
    assert width as real - u * width as real == (1.0 - u) * width as real;
  }

  /** The obstacle `spawnPipe` pushes, for the given viewport, gap factor and random draws. */
  function NewPipe(clientWidth: nat, clientHeight: nat, gapFactor: real, d: Draws): (p: Pipe)
    requires ValidDraws(d)
    ensures p.gap == SpawnGap(ViewHeight(clientHeight), gapFactor) && p.gap >= MinGap
    ensures 8 <= p.amp <= 55
    ensures p.baseTop >= (SpawnMargin + p.amp) as real
    ensures SpawnRoom(ViewHeight(clientHeight), p.gap, p.amp) >= 1 ==>
              p.baseTop + p.amp as real <= (ViewHeight(clientHeight) - p.gap - SpawnMargin - 1) as real
    ensures p.top == p.baseTop && !p.passed
    ensures p.x == (ViewWidth(clientWidth) + SpawnOffset) as real
    ensures 0.4 <= p.freq < 1.4
    ensures 0.0 <= p.phase < 2.0 * Pi
    ensures -6.0 <= p.vDrift < 6.0
  {
    var h := ViewHeight(clientHeight);
    var gap := SpawnGap(h, gapFactor);
    var amp := SpawnAmp(d.amp);
    var baseTop := SpawnBaseTop(h, gap, amp, d.base);
    var freq := 0.4 + d.freq * 1.0;
    var phase := d.phase * Pi * 2.0;
    var vDrift := (d.drift - 0.5) * 12.0;
    Pipe(x := (ViewWidth(clientWidth) + SpawnOffset) as real, baseTop := baseTop as real,
         top := baseTop as real, gap := gap, amp := amp, freq := freq, phase := phase,
         vDrift := vDrift, passed := false)
  }

  /** Lower end of the animation clamp on `baseTop`. */
  function MinBase(p: Pipe): real
  {
    ClampMargin + p.amp as real
  }

  /** Upper end of the animation clamp on `baseTop`, for viewport height `ch`. */
  function MaxBase(p: Pipe, ch: int): real
  {
    ch as real - p.gap as real - ClampMargin - p.amp as real
  }

  /**
   * What the clamp guarantees: `baseTop` never exceeds the upper end, and it is
   * within both ends whenever the clamp interval is non-empty.
   */
  predicate Clamped(p: Pipe, ch: int)
  {
    p.baseTop <= MaxBase(p, ch) && (MinBase(p) <= MaxBase(p, ch) ==> MinBase(p) <= p.baseTop)
  }

  /** `baseTop` after one tick of drift, before the clamp. */
  function Drifted(p: Pipe, dt: real): real
  {
    p.baseTop + p.vDrift * (dt / 1000.0)
  }

  /** The oscillation of the edge about the anchor at time `t`: `sin(t * freq + phase) * amp`, within `amp` either way. */
  function Oscillation(p: Pipe, t: real, sin: Sine): (o: real)
    ensures p.amp >= 0 ==> -(p.amp as real) <= o <= p.amp as real
  {
    var s := sin(t * p.freq + p.phase);
    assert p.amp >= 0 ==> -(p.amp as real) <= s * p.amp as real <= p.amp as real by {
      if p.amp >= 0 { ScaledSine(s, p.amp as real); }
    }
    s * p.amp as real
  }

  /** A sine value in [-1, 1] scaled by a non-negative amplitude stays within that amplitude. */
  lemma ScaledSine(s: real, a: real)
    requires -1.0 <= s <= 1.0 && a >= 0.0
    ensures -a <= s * a <= a
  {
    assert a - s * a == (1.0 - s) * a;
    assert s * a + a == (s + 1.0) * a;
  }

  /**
   * One tick of an obstacle's animation: scroll left by `speed`, drift the
   * anchor, recompute the oscillated edge from the drifted (not yet clamped)
   * anchor, then clamp the anchor; the lower clamp comes first, so when the
   * clamp interval is empty the anchor ends at its upper end.
   */
  function Animate(p: Pipe, speed: real, dt: real, t: real, ch: int, sin: Sine): (q: Pipe)
    ensures q == p.(x := p.x - speed, baseTop := q.baseTop, top := q.top)
    ensures Clamped(q, ch)
  {
    var drifted := Drifted(p, dt);
    var top := drifted + Oscillation(p, t, sin);
    var minBase := MinBase(p);
    var maxBase := MaxBase(p, ch);
    var lower := if drifted < minBase then minBase else drifted;
    var base := if lower > maxBase then maxBase else lower;
    p.(x := p.x - speed, baseTop := base, top := top)
  }

  /**
   * What one tick of animation does to an obstacle: it scrolls by `speed`, keeps
   * its shape and its flag, ends within the clamp, and its anchor is the drifted
   * anchor clamped (the upper end winning when the interval is empty); the edge
   * oscillates about the unclamped drifted anchor by at most `amp`.
   */
  lemma AnimateSpec(p: Pipe, speed: real, dt: real, t: real, ch: int, sin: Sine)
    ensures var q := Animate(p, speed, dt, t, ch, sin);
            && q.x == p.x - speed
            && q.gap == p.gap && q.amp == p.amp && q.freq == p.freq && q.phase == p.phase
            && q.vDrift == p.vDrift && q.passed == p.passed
            && Clamped(q, ch)
    ensures var q := Animate(p, speed, dt, t, ch, sin);
            && (MinBase(p) <= Drifted(p, dt) <= MaxBase(p, ch) ==> q.baseTop == Drifted(p, dt))
            && (Drifted(p, dt) < MinBase(p) <= MaxBase(p, ch) ==> q.baseTop == MinBase(p))
            && (MaxBase(p, ch) < Drifted(p, dt) ==> q.baseTop == MaxBase(p, ch))
            && (MaxBase(p, ch) < MinBase(p) ==> q.baseTop == MaxBase(p, ch))
    ensures var q := Animate(p, speed, dt, t, ch, sin);
            && q.top == Drifted(p, dt) + Oscillation(p, t, sin)
            && (p.amp >= 0 ==> Drifted(p, dt) - p.amp as real <= q.top <= Drifted(p, dt) + p.amp as real)
  {
  }

  /** Every obstacle animated by one tick, in place and in order. */
  function AnimateAll(ps: seq<Pipe>, speed: real, dt: real, t: real, ch: int, sin: Sine): (qs: seq<Pipe>)
    ensures |qs| == |ps|
  {
    seq(|ps|, k requires 0 <= k < |ps| => Animate(ps[k], speed, dt, t, ch, sin))
  }

  /**
   * The animation loop moves every obstacle left by exactly `speed`, keeps each
   * one's shape and flag, and leaves each within its clamp.
   */
  lemma AnimateAllMoves(ps: seq<Pipe>, speed: real, dt: real, t: real, ch: int, sin: Sine)
    ensures var qs := AnimateAll(ps, speed, dt, t, ch, sin);
            forall k :: 0 <= k < |qs| ==>
              && qs[k].x == ps[k].x - speed
              && qs[k].gap == ps[k].gap && qs[k].amp == ps[k].amp
              && qs[k].freq == ps[k].freq && qs[k].phase == ps[k].phase && qs[k].vDrift == ps[k].vDrift
              && qs[k].passed == ps[k].passed
              && Clamped(qs[k], ch)
  {
    forall k | 0 <= k < |ps|
      ensures var q := Animate(ps[k], speed, dt, t, ch, sin);
              q.x == ps[k].x - speed && q.gap == ps[k].gap && q.amp == ps[k].amp && Clamped(q, ch)
    {
      AnimateSpec(ps[k], speed, dt, t, ch, sin);
    }
  }

  /** An obstacle stays in play while it is right of the cull line. */
  predicate OnScreen(p: Pipe) { p.x > CullX }

  /** `pipes.filter(p => p.x > -60)`. */
  function Cull(ps: seq<Pipe>): (kept: seq<Pipe>)
    ensures |kept| <= |ps|
    ensures forall k :: 0 <= k < |kept| ==> OnScreen(kept[k])
  {
    if |ps| == 0 then []
    else (if OnScreen(ps[0]) then [ps[0]] else []) + Cull(ps[1..])
  }

  /** An obstacle survives the cull exactly when it was there and is on screen. */
  lemma {:induction false} CullMembership(ps: seq<Pipe>, p: Pipe)
    ensures p in Cull(ps) <==> p in ps && OnScreen(p)
  {
    if |ps| > 0 {
      CullMembership(ps[1..], p);
      assert ps == [ps[0]] + ps[1..];
    }
  }

  /**
   * Culling a concatenation culls each part and keeps them in order; with the
   * one-element case this pins down that the survivors keep their relative order.
   */
  lemma {:induction false} CullAppend(a: seq<Pipe>, b: seq<Pipe>)
    ensures Cull(a + b) == Cull(a) + Cull(b)
  {
    if |a| == 0 {
      assert a + b == b;
    } else {
      var head := if OnScreen(a[0]) then [a[0]] else [];
      assert (a + b)[0] == a[0];
      assert (a + b)[1..] == a[1..] + b;
      CullAppend(a[1..], b);
      calc {
        Cull(a + b);
        head + Cull(a[1..] + b);
        head + (Cull(a[1..]) + Cull(b));
        (head + Cull(a[1..])) + Cull(b);
        Cull(a) + Cull(b);
      }
    }
  }

  /** A single obstacle is kept exactly when it is on screen. */
  lemma CullSingle(p: Pipe)
    ensures Cull([p]) == if OnScreen(p) then [p] else []
  {
    assert [p][1..] == [];
  }

  /** Culling changes nothing when every obstacle is on screen, and culling twice is culling once. */
  lemma {:induction false} CullIdempotent(ps: seq<Pipe>)
    ensures (forall k :: 0 <= k < |ps| ==> OnScreen(ps[k])) ==> Cull(ps) == ps
    ensures Cull(Cull(ps)) == Cull(ps)
  {
    if |ps| > 0 {
      CullIdempotent(ps[1..]);
      var rest := Cull(ps[1..]);
      if OnScreen(ps[0]) {
        assert Cull(ps) == [ps[0]] + rest;
        assert ([ps[0]] + rest)[1..] == rest;
      } else {
        assert Cull(ps) == [] + rest == rest;
      }
    }
  }

  /** A freshly spawned obstacle already satisfies the animation clamp when the spawn range had room. */
  lemma SpawnedWithinClamp(clientWidth: nat, clientHeight: nat, gapFactor: real, d: Draws)
    requires ValidDraws(d)
    requires var p := NewPipe(clientWidth, clientHeight, gapFactor, d);
             SpawnRoom(ViewHeight(clientHeight), p.gap, p.amp) >= 1
    ensures var p := NewPipe(clientWidth, clientHeight, gapFactor, d);
            MinBase(p) <= p.baseTop <= MaxBase(p, ViewHeight(clientHeight))
  {
  }

  /** The gap for a 640-pixel viewport at the medium profile's 0.22 is 140; for 300 pixels the 90 floor applies. */
  lemma GapExamples()
    ensures SpawnGap(640, 0.22) == 140
    ensures SpawnGap(300, 0.22) == 90
  {
  }

  /** After the animation and the cull, every obstacle left is on screen and within the clamp. */
  lemma CulledStaysPlaced(ps: seq<Pipe>, speed: real, dt: real, t: real, ch: int, sin: Sine)
    ensures var kept := Cull(AnimateAll(ps, speed, dt, t, ch, sin));
            forall k :: 0 <= k < |kept| ==> OnScreen(kept[k]) && Clamped(kept[k], ch)
  {
    var qs := AnimateAll(ps, speed, dt, t, ch, sin);
    var kept := Cull(qs);
    forall k | 0 <= k < |kept|
      ensures OnScreen(kept[k]) && Clamped(kept[k], ch)
    {
      CullMembership(qs, kept[k]);
      var j :| 0 <= j < |qs| && qs[j] == kept[k];
      AnimateSpec(ps[j], speed, dt, t, ch, sin);
    }
  }
}
