/**
 * The game's mutable state and the operations that change it: the run
 * lifecycle (`startGame`, `endGame`), the per-tick `update` phase by phase,
 * the animation-frame guard of `loop`, the mode switch, the shop handlers and
 * the 'normal'-is-owned step of `loadState`.
 */
module Game {
  import opened Arith
  import opened Physics
  import opened Obstacles
  import opened Scoring
  import opened Collision
  import opened Economy

  /** Bird position and radius at the start of a run. */
  const BirdX: real := 80.0
  const BirdRadius: real := 14.0

  /**
   * The body of the animation loop of `update` for one obstacle `p`: scroll,
   * drift, recompute the oscillated edge, then clamp the anchor.
   */
  method AnimatePipe(p: Pipe, speed: real, dt: real, t: real, ch: int, sin: Sine) returns (q: Pipe)
    ensures q == Animate(p, speed, dt, t, ch, sin)
  {
    var x := p.x - speed;
    var baseTop := p.baseTop + p.vDrift * (dt / 1000.0);
    var top := baseTop + Oscillation(p, t, sin);
    var minBase := ClampMargin + p.amp as real;
    var maxBase := ch as real - p.gap as real - ClampMargin - p.amp as real;
    if baseTop < minBase {
      baseTop := minBase;
    }
    if baseTop > maxBase {
      baseTop := maxBase;
    }
    q := p.(x := x, baseTop := baseTop, top := top);
  }

  /** The module-level variables of the game script. */
  class Game {
    var running: bool
    var score: int
    var bird: Bird
    var pipes: seq<Pipe>
    var spawnTimer: real
    var t: real
    var pipeSpeed: real
    var pipeInterval: real
    var gapFactor: real
    var selectedMode: string
    var selectedPowerIdx: nat
    var diamonds: int
    var owned: set<string>
    var bestScore: int

    /** The selected power exists, 'normal' is always owned, and the score is never negative. */
    ghost predicate Valid()
      reads this
    {
      selectedPowerIdx < |Powers| && "normal" in owned && score >= 0
    }

    /**
     * The state when the script loads: the initial literals, `loadState` with
     * the values it read from storage, and `applyMode('medium')`.
     */
    constructor (storedDiamonds: int, storedOwned: set<string>, storedBest: int)
      ensures Valid() && !running && score == 0
      ensures bird == Bird(BirdX, 200.0, BirdRadius, 0.0) && pipes == [] && spawnTimer == 0.0 && t == 0.0
      ensures selectedPowerIdx == NormalIdx
      ensures diamonds == storedDiamonds && owned == storedOwned + {"normal"} && bestScore == storedBest
      ensures selectedMode == "medium" && pipeSpeed == 2.6 && pipeInterval == 1500.0 && gapFactor == 0.22
    {
      running := false;
      score := 0;
      bird := Bird(BirdX, 200.0, BirdRadius, 0.0);
      pipes := [];
      spawnTimer := 0.0;
      t := 0.0;
      pipeSpeed := 2.6;
      pipeInterval := 1500.0;
      gapFactor := 0.22;
      selectedPowerIdx := NormalIdx;
      diamonds := storedDiamonds;
      owned := storedOwned;
      bestScore := storedBest;
      selectedMode := "medium";
      new;
      EnsureNormalOwned();
      ApplyMode(selectedMode);
      assert Modes[1].id == "medium";
    }

    /** The last step of `loadState`: 'normal' is added to the owned powers if it is missing. */
    method EnsureNormalOwned()
      modifies this`owned
      ensures owned == old(owned) + {"normal"}
    {
      if "normal" !in owned {
        owned := owned + {"normal"};
      }
    }

    /** `applyMode`: install the speed, spawn interval and gap share of the mode with that id, or of 'medium'. */
    method ApplyMode(id: string)
      modifies this`selectedMode, this`pipeSpeed, this`pipeInterval, this`gapFactor
      ensures var m := FindMode(id);
              selectedMode == m.id && pipeSpeed == m.speed && pipeInterval == m.interval && gapFactor == m.gap
    {
      var m := FindMode(id);
      selectedMode := m.id;
      pipeSpeed := m.speed;
      pipeInterval := m.interval;
      gapFactor := m.gap;
    }

    /**
     * `startGame`: reset the bird, obstacles, timers and score, and fall back to
     * the 'normal' power when the selected one is neither owned nor free.
     */
    method StartGame(clientHeight: nat)
      requires Valid()
      modifies this
      ensures Valid() && running
      ensures bird == Bird(BirdX, (if clientHeight == 0 then 480.0 else clientHeight as real) / 2.0, old(bird.r), 0.0)
      ensures pipes == [] && spawnTimer == 0.0 && t == 0.0 && score == 0
      ensures var p := Powers[old(selectedPowerIdx)];
              selectedPowerIdx == if p.id !in owned && p.price > 0 then NormalIdx else old(selectedPowerIdx)
      ensures Powers[selectedPowerIdx].price <= 0 || Powers[selectedPowerIdx].id in owned
      ensures diamonds == old(diamonds) && owned == old(owned) && bestScore == old(bestScore)
      ensures selectedMode == old(selectedMode) && pipeSpeed == old(pipeSpeed)
      ensures pipeInterval == old(pipeInterval) && gapFactor == old(gapFactor)
    {
      var h := if clientHeight == 0 then 480.0 else clientHeight as real;
      bird := bird.(x := BirdX, y := h / 2.0, vy := 0.0);
      pipes := [];
      spawnTimer := 0.0;
      t := 0.0;
      score := 0;
      if Powers[selectedPowerIdx].id !in owned && Powers[selectedPowerIdx].price > 0 {
        NormalIndex();
        selectedPowerIdx := FindPowerIndex("normal");
      }
      running := true;
    }

    /**
     * `endGame`: stop the run, credit the diamonds earned by the score with the
     * selected power, and raise the best score if it was beaten.
     */
    method EndGame()
      requires Valid()
      modifies this`running, this`diamonds, this`bestScore
      ensures Valid()
      ensures !running
      ensures diamonds == old(diamonds) + DiamondsEarned(score, Powers[selectedPowerIdx])
      ensures bestScore == MaxInt(old(bestScore), score)
    {
      running := false;
      var p := Powers[selectedPowerIdx];
      var earned := MinInt(Round(score as real * p.mult), p.cap);
      diamonds := diamonds + earned;
      if score > bestScore {
        bestScore := score;
      }
    }

    /** The buy button: pay the price and own the power when affordable; otherwise nothing changes. */
    method Buy(i: nat) returns (bought: bool)
      requires Valid() && i < |Powers|
      modifies this`diamonds, this`owned
      ensures Valid()
      ensures bought <==> old(diamonds) >= Powers[i].price
      ensures bought ==> diamonds == old(diamonds) - Powers[i].price && diamonds >= 0
                         && owned == old(owned) + {Powers[i].id}
      ensures !bought ==> diamonds == old(diamonds) && owned == old(owned)
    {
      var pw := Powers[i];
      PowersTable();
      if diamonds >= pw.price {
        diamonds := diamonds - pw.price;
        owned := owned + {pw.id};
        bought := true;
      } else {
        bought := false;
      }
    }

    /** The select button, offered for powers that are owned or free: make power `i` the selected one. */
    method Select(i: nat)
      requires Valid() && i < |Powers|
      requires Powers[i].price <= 0 || Powers[i].id in owned
      modifies this`selectedPowerIdx
      ensures Valid() && selectedPowerIdx == i
    {
      selectedPowerIdx := i;
    }

    /** The equip button of the storage panel, offered for owned powers: select the power with that id. */
    method Equip(id: string)
      requires Valid() && id in owned
      requires exists j :: 0 <= j < |Powers| && Powers[j].id == id
      modifies this`selectedPowerIdx
      ensures Valid() && Powers[selectedPowerIdx].id == id
    {
      var i := FindPowerIndex(id);
      selectedPowerIdx := i;
    }

    /** The physics step of `update`: accelerate, limit the vertical speed, move. */
    method Integrate(holding: bool)
      modifies this`bird
      ensures bird == Step(old(bird), holding)
    {
      var vy := bird.vy;
      if holding {
        vy := vy - Lift;
      } else {
        vy := vy + Gravity;
        vy := vy * FallDamp;
      }
      vy := Max(Min(vy, MaxSpeed), -MaxSpeed);
      bird := bird.(vy := vy, y := bird.y + vy);
    }

    /** `spawnPipe`: push a new obstacle at the right of the viewport. */
    method SpawnPipe(clientWidth: nat, clientHeight: nat, d: Draws)
      requires ValidDraws(d)
      modifies this`pipes
      ensures pipes == old(pipes) + [NewPipe(clientWidth, clientHeight, gapFactor, d)]
    {
      pipes := pipes + [NewPipe(clientWidth, clientHeight, gapFactor, d)];
    }

    /**
     * The spawn timer of `update`: once the accumulated time passes the
     * interval, exactly one obstacle is spawned and the timer restarts at 0.
     */
    method AdvanceSpawnTimer(dt: real, clientWidth: nat, clientHeight: nat, d: Draws)
      requires ValidDraws(d)
      modifies this`spawnTimer, this`pipes
      ensures old(spawnTimer) + dt > pipeInterval ==>
                spawnTimer == 0.0 && pipes == old(pipes) + [NewPipe(clientWidth, clientHeight, gapFactor, d)]
      ensures old(spawnTimer) + dt <= pipeInterval ==>
                spawnTimer == old(spawnTimer) + dt && pipes == old(pipes)
    {
      spawnTimer := spawnTimer + dt;
      if spawnTimer > pipeInterval {
        spawnTimer := 0.0;
        SpawnPipe(clientWidth, clientHeight, d);
      }
    }

    /** The animation loop of `update`: every obstacle scrolls, drifts, oscillates and is clamped, in place. */
    method AnimatePipes(dt: real, ch: int, sin: Sine)
      modifies this`pipes
      ensures pipes == AnimateAll(old(pipes), pipeSpeed, dt, t, ch, sin)
    {
      var i := 0;
      while i < |pipes|
        invariant 0 <= i <= |pipes| == |old(pipes)|
        invariant forall k :: 0 <= k < i ==> pipes[k] == Animate(old(pipes)[k], pipeSpeed, dt, t, ch, sin)
        invariant forall k :: i <= k < |pipes| ==> pipes[k] == old(pipes)[k]
      {
        var p := AnimatePipe(pipes[i], pipeSpeed, dt, t, ch, sin);
        pipes := pipes[i := p];
        i := i + 1;
      }
    }

    /** The scoring loop of `update`: mark newly passed obstacles and count them into the score. */
    method ScorePipes()
      requires Valid()
      modifies this`pipes, this`score
      ensures Valid()
      ensures pipes == ScoreAll(old(pipes), bird)
      ensures score == old(score) + NewlyPassed(old(pipes), bird)
    {
      var i := 0;
      while i < |pipes|
        invariant 0 <= i <= |pipes| == |old(pipes)|
        invariant forall k :: 0 <= k < i ==> pipes[k] == ScorePipe(old(pipes)[k], bird)
        invariant forall k :: i <= k < |pipes| ==> pipes[k] == old(pipes)[k]
        invariant score == old(score) + NewlyPassed(old(pipes)[..i], bird)
      {
        assert old(pipes)[..i + 1][..i] == old(pipes)[..i];
        var p := pipes[i];
        if !p.passed && p.x + PassOffset < bird.x - bird.r {
          p := p.(passed := true);
          score := score + 1;
        }
        pipes := pipes[i := p];
        i := i + 1;
      }
      assert old(pipes)[..i] == old(pipes);
    }

    /**
     * The spike tests of `update` for one obstacle: when the bird overlaps its
     * column, each spike row the bird reaches calls `endGame`.
     */
    method HitPipe(p: Pipe)
      requires Valid()
      modifies this`running, this`diamonds, this`bestScore
      ensures Valid()
      ensures var h := HitsOf(bird, p);
              && running == (old(running) && h == 0)
              && diamonds == old(diamonds) + Credits(h, DiamondsEarned(score, Powers[selectedPowerIdx]))
              && bestScore == (if h > 0 then MaxInt(old(bestScore), score) else old(bestScore))
    {
      if bird.x + bird.r > p.x && bird.x - bird.r < p.x + PipeWidth {
        var topDepth := p.top;
        var bottomApexY := p.top + p.gap as real;
        if bird.y - bird.r < topDepth {
          EndGame();
        }
        if bird.y + bird.r > bottomApexY {
          EndGame();
        }
      }
    }

    /**
     * The collision tests of `update`: the screen bounds, then each obstacle's
     * spike rows; every test that fires calls `endGame` again.
     */
    method CheckCollisions(ch: int)
      requires Valid()
      modifies this`running, this`diamonds, this`bestScore
      ensures Valid()
      ensures var n := EndGameCalls(bird, ch, pipes);
              && running == (old(running) && n == 0)
              && diamonds == old(diamonds) + Credits(n, DiamondsEarned(score, Powers[selectedPowerIdx]))
              && bestScore == (if n > 0 then MaxInt(old(bestScore), score) else old(bestScore))
    {
      ghost var earned := DiamondsEarned(score, Powers[selectedPowerIdx]);
      if bird.y - bird.r < 0.0 || bird.y + bird.r > ch as real {
        EndGame();
      }
      ghost var calls: nat := if OutOfBounds(bird, ch) then 1 else 0;
      var i := 0;
      while i < |pipes|
        invariant 0 <= i <= |pipes|
        invariant calls == (if OutOfBounds(bird, ch) then 1 else 0) + PipeHits(bird, pipes[..i])
        invariant running == (old(running) && calls == 0)
        invariant diamonds == old(diamonds) + Credits(calls, earned)
        invariant bestScore == (if calls > 0 then MaxInt(old(bestScore), score) else old(bestScore))
      {
        assert pipes[..i + 1][..i] == pipes[..i];
        HitPipe(pipes[i]);
        CreditsAdd(calls, HitsOf(bird, pipes[i]), earned);
        calls := calls + HitsOf(bird, pipes[i]);
        i := i + 1;
      }
      assert pipes[..i] == pipes;
    }

    /**
     * The first half of `update`: time, physics, spawn timer, animation and
     * cull; what survives is on screen and within the clamp.
     */
    method Move(dt: real, holding: bool, clientWidth: nat, clientHeight: nat, d: Draws, sin: Sine)
      requires Valid() && ValidDraws(d)
      modifies this`t, this`bird, this`spawnTimer, this`pipes
      ensures Valid()
      ensures t == old(t) + dt / 1000.0
      ensures bird == Step(old(bird), holding)
      ensures var due := old(spawnTimer) + dt > pipeInterval;
              var spawned := if due then old(pipes) + [NewPipe(clientWidth, clientHeight, gapFactor, d)] else old(pipes);
              && spawnTimer == (if due then 0.0 else old(spawnTimer) + dt)
              && pipes == Cull(AnimateAll(spawned, pipeSpeed, dt, t, ViewHeight(clientHeight), sin))
      ensures forall k :: 0 <= k < |pipes| ==> OnScreen(pipes[k]) && Clamped(pipes[k], ViewHeight(clientHeight))
    {
      var ch := ViewHeight(clientHeight);
      t := t + dt / 1000.0;
      Integrate(holding);
      AdvanceSpawnTimer(dt, clientWidth, clientHeight, d);
      CulledStaysPlaced(pipes, pipeSpeed, dt, t, ch, sin);
      AnimatePipes(dt, ch, sin);
      pipes := Cull(pipes);
    }

    /**
     * The second half of `update`: scoring, then the collision tests against
     * the marked obstacles.
     */
    method Judge(ch: int)
      requires Valid()
      requires forall k :: 0 <= k < |pipes| ==> OnScreen(pipes[k]) && Clamped(pipes[k], ch)
      modifies this`pipes, this`score, this`running, this`diamonds, this`bestScore
      ensures Valid()
      ensures pipes == ScoreAll(old(pipes), bird)
      ensures score == old(score) + NewlyPassed(old(pipes), bird)
      ensures forall k :: 0 <= k < |pipes| ==> OnScreen(pipes[k]) && Clamped(pipes[k], ch)
      ensures var n := EndGameCalls(bird, ch, pipes);
              && running == (old(running) && n == 0)
              && diamonds == old(diamonds) + Credits(n, DiamondsEarned(score, Powers[selectedPowerIdx]))
              && bestScore == (if n > 0 then MaxInt(old(bestScore), score) else old(bestScore))
    {
      ScoreKeepsPlacement(pipes, bird, ch);
      ScorePipes();
      CheckCollisions(ch);
    }

    /**
     * `update`: one simulation tick, phase by phase: time, physics, spawn timer,
     * animation, cull, scoring, collisions.
     */
    method Update(dt: real, holding: bool, clientWidth: nat, clientHeight: nat, d: Draws, sin: Sine)
      requires Valid() && ValidDraws(d)
      modifies this`t, this`bird, this`spawnTimer, this`pipes, this`score, this`running, this`diamonds, this`bestScore
      ensures Valid()
      ensures t == old(t) + dt / 1000.0
      ensures bird == Step(old(bird), holding)
      ensures var due := old(spawnTimer) + dt > pipeInterval;
              var spawned := if due then old(pipes) + [NewPipe(clientWidth, clientHeight, gapFactor, d)] else old(pipes);
              var moved := Cull(AnimateAll(spawned, pipeSpeed, dt, t, ViewHeight(clientHeight), sin));
              && spawnTimer == (if due then 0.0 else old(spawnTimer) + dt)
              && pipes == ScoreAll(moved, bird)
              && score == old(score) + NewlyPassed(moved, bird)
      ensures forall k :: 0 <= k < |pipes| ==> OnScreen(pipes[k]) && Clamped(pipes[k], ViewHeight(clientHeight))
      ensures var n := EndGameCalls(bird, ViewHeight(clientHeight), pipes);
              && running == (old(running) && n == 0)
              && diamonds == old(diamonds) + Credits(n, DiamondsEarned(score, Powers[selectedPowerIdx]))
              && bestScore == (if n > 0 then MaxInt(old(bestScore), score) else old(bestScore))
    {
      Move(dt, holding, clientWidth, clientHeight, d, sin);
      Judge(ViewHeight(clientHeight));
    }

    /** One animation frame of `loop`: a finished run is never advanced again. */
    method Tick(dt: real, holding: bool, clientWidth: nat, clientHeight: nat, d: Draws, sin: Sine)
      requires Valid() && ValidDraws(d)
      modifies this`t, this`bird, this`spawnTimer, this`pipes, this`score, this`running, this`diamonds, this`bestScore
      ensures Valid()
      ensures !old(running) ==> unchanged(this)
      ensures old(running) ==> t == old(t) + dt / 1000.0 && bird == Step(old(bird), holding)
      ensures old(running) ==>
                var due := old(spawnTimer) + dt > pipeInterval;
                var spawned := if due then old(pipes) + [NewPipe(clientWidth, clientHeight, gapFactor, d)] else old(pipes);
                var moved := Cull(AnimateAll(spawned, pipeSpeed, dt, t, ViewHeight(clientHeight), sin));
                && spawnTimer == (if due then 0.0 else old(spawnTimer) + dt)
                && pipes == ScoreAll(moved, bird)
                && score == old(score) + NewlyPassed(moved, bird)
      ensures old(running) ==> forall k :: 0 <= k < |pipes| ==> OnScreen(pipes[k]) && Clamped(pipes[k], ViewHeight(clientHeight))
      ensures old(running) ==>
                var n := EndGameCalls(bird, ViewHeight(clientHeight), pipes);
                && running == (n == 0)
                && diamonds == old(diamonds) + Credits(n, DiamondsEarned(score, Powers[selectedPowerIdx]))
                && bestScore == (if n > 0 then MaxInt(old(bestScore), score) else old(bestScore))
      ensures score >= old(score)
    {
      if running {
        Update(dt, holding, clientWidth, clientHeight, d, sin);
      }
    }
  }
}
