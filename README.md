# Mr Flappy Bird: simulation and economy model

This project is a Dafny model of the game logic in `app.js`. In the game, a bird moves through a scrolling field of obstacles ("pipes"). Each obstacle has a top and a bottom row of spikes. The gap between the rows oscillates and drifts. Holding the input lifts the bird; releasing it lets the bird fall. A run scores one point for every obstacle the bird gets past. It ends when the bird touches a spike row or leaves the screen. The final score then earns diamonds, scaled and capped by the selected superpower. Diamonds buy further superpowers.

The model covers:

- The per-tick `update`, phase by phase:
  - physics;
  - the spawn timer and the obstacle generator `spawnPipe`;
  - obstacle animation (scroll, drift, sine oscillation, anchor clamp);
  - the off-screen cull;
  - scoring;
  - the screen-bound and spike collision tests.
- The `loop` guard, which stops ticking once a run has ended.
- The run lifecycle: `startGame` and `endGame`.
- The difficulty switch `applyMode`.
- The power table and the diamonds a run earns.
- The buy, select and equip handlers.
- The step of `loadState` that makes sure `'normal'` is always owned.

The code is laid out as follows:

- Modules `Arith`, `Physics`, `Obstacles`, `Scoring`, `Collision` and `Economy` hold the values and the pure rules.
- Module `Game` holds class `Game`. Its fields are the script's module-level variables. Its methods update them in place, as the handlers and `update` do, and each is proved against the pure functions.

Environment inputs are parameters:

- Numbers are Dafny reals.
- `canvas.clientWidth` and `canvas.clientHeight` are natural numbers, where 0 stands for "not reported". The `|| 480` and `|| 640` fallbacks are written out.
- The five `Math.random()` draws of `spawnPipe` are a `Draws` value in [0, 1).
- `Math.sin` is any function of type `Sine`, whose values lie in [-1, 1].
- The frame time `dt` and the hold flag are parameters of `Update`.
- The stored diamonds, owned set and best score that `loadState` reads are parameters of the constructor.

## Source quirks

The model reproduces these behaviours of `app.js` as they are written.

- **Amplitude.** `Math.floor(8 + Math.random() * 48)` gives an amplitude of 8 to 55 (app.js:225).
- **Drift.** `(Math.random() - 0.5) * 12` gives a drift in [-6, 6) (app.js:230).
- **Scoring threshold.** An obstacle scores when `x + 40` is left of the bird's left edge (app.js:369). Of the update logic, only the collision test uses the 52-pixel width (app.js:376); scoring uses `x + 40`.
- **Cull.** The cull keeps `x > -60`, so an obstacle at exactly -60 is removed (app.js:365).
- **Clamp.** The two clamps run lower first, then upper (app.js:361-362):
  - When the clamp interval is empty, the second clamp wins and `baseTop` ends at `maxBase`, below `minBase`.
  - The spawn range and the clamp use different margins (30 and 8). A freshly spawned obstacle lies inside the clamp whenever the spawn range had room (`SpawnedWithinClamp`).
- **Termination.** A collision does not end the tick. `endGame` is called once for the screen bounds and once for every spike row touched (app.js:373, 382, 383). Each call credits the run's diamonds again and re-applies the best score. `Game.Game.CheckCollisions` and `Game.Game.Update` state this with `EndGameCalls` and `Credits`.
- **Oscillated edge.** `top` is computed from the drifted anchor before the clamp (app.js:357 against 361-362).

## Model

| member | source | states |
|---|---|---|
| Arith.Round | app.js:202 | `Math.round`: the result is within one half of the argument, and a half rounds up |
| Arith.RoundInteger | app.js:202 | rounding a whole number gives it back |
| Arith.RoundMonotone | app.js:202 | rounding preserves order |
| Physics.RawVelocity | app.js:337-343 | the speed before the limit: holding lowers it by 0.08, falling computes `(vy + 0.08) * 0.99`; holding always pushes upward, and falling pushes downward exactly while the speed is below 7.92 |
| Physics.Step | app.js:337-346 | after a physics step the vertical speed lies in [-6, 6], whatever the input; `y` moves by exactly that speed; `x` and `r` are unchanged; the speed is the accelerated one (`vy - 0.08` when holding, `(vy + 0.08) * 0.99` otherwise), cut to 6 or -6 when outside |
| Physics.HoldVelocity | app.js:337-345 | holding for `n` ticks from a speed within the limit lowers the speed by 0.08 per tick, down to -6 and no lower |
| Physics.FallAccelerates | app.js:339-345 | not holding never makes a bird within the limit rise faster, and below the limit it always gains downward speed |
| Obstacles.ViewWidth | app.js:231 | the width is positive, and it is the canvas width whenever the canvas reports one |
| Obstacles.ViewHeight | app.js:331 | the height is positive, and it is the canvas height whenever the canvas reports one |
| Obstacles.SpawnGap | app.js:221 | the gap is at least 90 and is `max(90, h * factor)` rounded down |
| Obstacles.GapExamples | app.js:221 | a 640-pixel viewport at factor 0.22 gives gap 140; 300 pixels gives the floor of 90 |
| Obstacles.SpawnAmp | app.js:225 | the amplitude is a whole number from 8 to 55 |
| Obstacles.SpawnBaseTop | app.js:222-227 | the anchor is at least `30 + amp`; with room it keeps `anchor + amp` below `h - gap - 30`; without room it is exactly `30 + amp` |
| Obstacles.NewPipe | app.js:219-231 | a spawned obstacle has gap `max(90, floor(h * factor))` of at least 90, amplitude in [8, 55], anchor at least `30 + amp` and bounded above when there is room, `top == baseTop`, not passed, `x == width + 20`, frequency in [0.4, 1.4), phase in [0, 2π), drift in [-6, 6) |
| Obstacles.SpawnedWithinClamp | app.js:222-227 | when the spawn range had room, a new obstacle's anchor already lies within the animation clamp |
| Obstacles.Oscillation | app.js:357 | the sine offset is at most `amp` either way |
| Obstacles.Animate | app.js:354-362 | one tick of animation for one obstacle: only `x`, `baseTop` and `top` change, `x` drops by the speed, and the anchor ends within the clamp |
| Obstacles.AnimateAll | app.js:353-363 | the animation loop as a value: the same number of obstacles, element `k` being `Animate` of element `k` |
| Obstacles.AnimateSpec | app.js:353-363 | one tick of animation: `x` drops by the speed; gap, amp, frequency, phase, drift and flag are unchanged; the anchor ends within the clamp: it is the drifted anchor when that lies inside, `8 + amp` when below, and the upper end when above or when the interval is empty; `top` is the drifted, unclamped anchor plus the sine offset, within `amp` of it |
| Obstacles.AnimateAllMoves | app.js:353-363 | the animation loop moves every obstacle left by exactly the speed, keeps each one's shape and flag, and leaves each within its clamp |
| Obstacles.Cull | app.js:365 | the cull never grows the list, and every obstacle it keeps is right of -60 |
| Obstacles.CullMembership | app.js:365 | an obstacle survives the cull exactly when it was in the list and is right of -60 |
| Obstacles.CullAppend | app.js:365 | culling a concatenation is the concatenation of the culled parts, so survivors keep their relative order |
| Obstacles.CullSingle | app.js:365 | a single obstacle is kept exactly when it is right of -60 |
| Obstacles.CullIdempotent | app.js:365 | the cull changes nothing when all obstacles are on screen, and culling twice is culling once |
| Obstacles.CulledStaysPlaced | app.js:353-365 | after animation and cull, every remaining obstacle is on screen and within its clamp |
| Scoring.ScorePipe | app.js:369 | scoring changes only `passed`; the flag is set exactly when it was set already or `x + 40` is left of the bird's left edge; an obstacle already passed is unchanged |
| Scoring.ScoreAll | app.js:368-370 | the scoring loop as a value: the same number of obstacles, element `k` being `ScorePipe` of element `k` |
| Scoring.NewlyPassed | app.js:368-370 | how many times the loop runs `score++`: the obstacles that cross on this tick, at most one per obstacle |
| Scoring.ScoreAllFlags | app.js:368-370 | the scoring loop changes nothing but flags, sets a flag only on an obstacle behind the bird, and never clears one |
| Scoring.ScoreAllPrefix | app.js:368-370 | scoring a prefix gives the prefix of scoring the whole list |
| Scoring.ScoreCountsFlips | app.js:368-370 | the points added equal the number of flags flipped from false to true |
| Scoring.ScoreConsumesUnpassed | app.js:368-370 | the points added are at most the number of unpassed obstacles, and each point uses up one of them |
| Scoring.ScoreOnce | app.js:369 | obstacles already passed never score again and are left unchanged |
| Scoring.ScoreIdempotent | app.js:368-370 | scoring the scored list again for the same bird adds no point and changes nothing |
| Scoring.ScoreKeepsPlacement | app.js:367-370 | scoring keeps obstacles on screen and within their clamp |
| Collision.PipeHitsPositive | app.js:375-385 | the obstacle loop calls `endGame` at least once exactly when some obstacle's column overlaps the bird and the bird reaches into its top or bottom spikes |
| Collision.EndGameIffCollides | app.js:372-385 | a tick calls `endGame` at least once exactly when the collision verdict holds: out of the screen, or overlapping a column and reaching above `top` or below `top + gap` |
| Collision.Collides | app.js:372-385 | the collision verdict: out of the screen, or overlapping some obstacle's column and reaching above its `top` or below `top + gap`; being out of bounds always collides; with no obstacles only the bounds decide; without a collision the bird lies inside the gap of every obstacle whose column it overlaps |
| Collision.PipeHits | app.js:375-385 | how many times the obstacle loop calls `endGame`: once per touched spike row of an overlapped obstacle, at most twice per obstacle |
| Collision.EndGameCalls | app.js:372-385 | how many times one tick calls `endGame`: the bounds test plus the obstacle loop, at most once for the bounds and twice per obstacle |
| Collision.ScoringKeepsHits | app.js:367-385 | scoring before the collision test never changes its outcome |
| Collision.PipeHitsScored | app.js:375-385 | the obstacle loop's count is the same before and after scoring |
| Collision.CollisionExamples | app.js:372-385 | a bird at the top edge is out of bounds; one reaching above an overlapped obstacle's top collides; one inside the gap does not |
| Economy.PowersTable | app.js:54-60 | 'normal' is free and third; multipliers, caps and prices are non-negative; power ids are distinct |
| Economy.FindPowerIndex | app.js:184 | `findIndex`: the result is a power with that id, or -1 exactly when there is none |
| Economy.NormalIndex | app.js:184 | looking up 'normal' gives index 2 |
| Economy.FindMode | app.js:119 | `modes.find(...) \|\| modes[1]`: the mode with that id when one exists, otherwise 'medium' |
| Economy.ModesDistinct | app.js:107-112 | mode ids are distinct |
| Economy.DiamondsEarned | app.js:202 | earned diamonds are at most the cap and at most the rounded `score * mult`, and equal one of the two |
| Economy.EarnedBounds | app.js:201-202 | for a non-negative score and any power, the earned diamonds lie between 0 and the cap |
| Economy.EarnedMonotone | app.js:202 | a higher score never earns fewer diamonds |
| Economy.NormalEarned | app.js:202 | with 'normal' a run earns `min(score, 100)` |
| Economy.Credits | app.js:204 | the diamonds `calls` successive `endGame` calls add when each adds `earned`: nothing for no call, and never of the opposite sign to `earned` |
| Economy.CreditsAdd | app.js:204 | crediting `a` times and then `b` times is crediting `a + b` times |
| Economy.CreditsIsProduct | app.js:204 | crediting `earned` diamonds `calls` times adds `calls * earned` |
| Game.AnimatePipe | app.js:354-362 | the loop body for one obstacle computes exactly `Animate` |
| Game.Game.constructor | app.js:33-126 | the initial state: not running, score 0, bird at (80, 200) with radius 14, no obstacles, 'normal' selected, the stored diamonds and best score, the stored owned set plus 'normal', and the 'medium' profile applied |
| Game.Game.EnsureNormalOwned | app.js:91 | afterwards 'normal' is owned, and nothing else was added |
| Game.Game.ApplyMode | app.js:118-125 | the mode found for the id (or 'medium') is installed: its id, speed, interval and gap share |
| Game.Game.StartGame | app.js:172-196 | the run restarts: bird at x 80 and half the height (480 when unreported) with speed 0, no obstacles, timers and score 0, running; the selected power falls back to 'normal' exactly when it is unowned and has a price, so afterwards it is owned or free; economy and mode unchanged |
| Game.Game.EndGame | app.js:198-217 | the run stops; the earned diamonds of the score and the selected power are added; the best score becomes the larger of the old best and the score |
| Game.Game.Buy | app.js:247-260 | the purchase happens exactly when the diamonds cover the price; it deducts the price, leaves the diamonds non-negative and adds the id to the owned set; otherwise nothing changes |
| Game.Game.Select | app.js:264-266 | the chosen owned or free power becomes the selected one |
| Game.Game.Equip | app.js:319-320 | the owned power with that id becomes the selected one |
| Game.Game.Integrate | app.js:337-346 | the bird becomes `Step` of the old bird |
| Game.Game.SpawnPipe | app.js:219-232 | exactly one new obstacle is appended, and the existing ones are unchanged |
| Game.Game.AdvanceSpawnTimer | app.js:348-350 | when the timer passes the interval, it resets to 0 and exactly one obstacle is appended; otherwise the timer grows by `dt` and the obstacles are unchanged |
| Game.Game.AnimatePipes | app.js:352-363 | the obstacle list becomes the one-tick animation of every obstacle, in place and in order |
| Game.Game.ScorePipes | app.js:367-370 | the list becomes the scored list, and the score grows by exactly the number of newly passed obstacles |
| Game.Game.HitPipe | app.js:376-384 | for one obstacle the run stops exactly when the bird touches a spike row of an overlapped column; the diamonds grow by the earnings once per touched row; the best score is raised when any row is touched |
| Game.Game.CheckCollisions | app.js:372-385 | with `n` the number of `endGame` calls the tests make: the run stops exactly when `n > 0`; the diamonds grow by `n` times the run's earnings; the best score is raised when `n > 0` |
| Game.Game.Move | app.js:329-365 | time advances by `dt / 1000`; the bird takes one physics step; the spawn timer and list follow the spawn rule; the list becomes the animated and culled list; every remaining obstacle is on screen and within its clamp |
| Game.Game.Judge | app.js:367-385 | scoring, then collisions: the scored list, the score grown by the newly passed count, placement kept, and the `endGame` effects of the collision count |
| Game.Game.Update | app.js:329-386 | one tick in source order: time, physics, spawn, animation, cull, scoring, collisions; the resulting obstacles are the spawned, animated, culled and scored list; all of them are on screen and within their clamp; score, running, diamonds and best score follow from the newly passed count and the `endGame` call count |
| Game.Game.Tick | app.js:469-476 | a frame of a finished run changes nothing; a running frame makes the whole tick of `update`: time and the bird advance, the spawn timer and obstacles follow the spawn, animation, cull and scoring rules, every obstacle is on screen and within its clamp, the score grows by the newly passed count, and the run stops, credits diamonds and raises the best score according to the `endGame` call count; the score never decreases; the mode settings, the selected power and the owned set are never changed by a frame |

## Left out

- Canvas drawing (`draw`, `drawPipe`, `drawBird`): it only renders.
- Resizing, device-pixel-ratio handling and fullscreen handling: these touch only the canvas and the DOM.
- Panel rendering (`renderModePanel`, `renderPowersPanel`, `renderStoragePanel`) and every text or label update: these are display only. The buy, select and equip click handlers are modelled. Which of the three buttons a panel offers is stated as the `requires` of `Select` and `Equip`.
- Input listeners: the hold state is the `holding` parameter of `Update`.
- `requestAnimationFrame` and `performance.now`: `dt` is a parameter. `Tick` models one frame of `loop`, including the early return once a run has ended.
- `localStorage` and JSON in `loadState` and `saveState`. Storage is browser I/O. The constructor receives the values `loadState` read and applies its 'normal' step. `saveState` calls are not modelled. The `catch` path, which resets diamonds and the owned set, is the constructor called with 0 and the empty set.
- `setTimeout` delays of the UI: these are display only.
- IEEE double arithmetic: the model computes with exact reals. `Pi` is the decimal JavaScript prints for `Math.PI`.
- `run_server.py` is not part of this model. It is a development server.
- The class invariant `Valid` does not say that the selected power is owned or free. The source restores that only in `startGame`, and `StartGame` ensures it.
