# Flappy bird game core in Dafny

A model of the game logic of a flappy-bird clone: a bird that falls under
gravity and jumps on each click, three pipe pairs scrolling to the left, a
point scored whenever a pipe leaves the screen and a reset of the run
whenever the bird touches a pipe. Everything lives in `src/App.tsx` as
module-level variables that an animation-frame loop updates in place.

The project has two modules.

- `FlappyModel` (model.dfy) is the game as values. The record `Model`
  holds all the game variables. Each transition is a function over it:
  `Setup`, `Score`, `Lose`, `Click`, `Fly` (bird physics) and `Frame` (one
  animation frame). The collision test is `Collides` and the bird's sprite
  row is `SpriteRow`. The lemmas state what each transition promises.
  `Run` folds a sequence of click and frame events, and `RunPreserves`
  proves the invariant `WellFormed` along every run.
- `FlappyGame` (game.dfy) is the game as the program holds it. A `Pipe`
  object has mutable fields `x` and `gapTop`, like the source's
  `[x, gapTop]` arrays. A `Game` object holds the variables. The
  transition methods (`Setup`, `HandleScore`, `HandleLose`, `OnClick`,
  `FlyStep`, `MovePipes`, `Render`) are proved to move the abstract value
  `Abs()` exactly as the matching `FlappyModel` function does and to keep
  `Valid()`. The helper methods under them state the single steps:
  `NewPipe`, `SpawnPipes` and `ShiftPipes` build the pipe objects, and
  `MovePipe`, `ScoreIfPassed` and `LoseIfHit` follow the steps `Place`,
  `ScoreIf` and `LoseIf` of one visit of the pipe loop.

The frame loop is modelled with the source's aliasing. `pipes.map` walks
the array as it was when the walk began. It mutates the pipe arrays that
array shares with the live list. `handleScore` replaces the live list with
its two survivors plus a fresh pipe, and `handleLose` replaces it with
three fresh pipes. So, within one frame:

- a survivor of a score is still moved;
- a pipe recycled in the frame is not moved in that frame;
- the recycled pipe is placed behind the last pipe's position before that
  pipe moved;
- after a loss, the remaining snapshot pipes are still moved and checked
  for a collision, but they are no longer in the live list.

The structure of the loop would allow more than one score or loss in one
frame, and the model handles that case. The game itself never reaches it:
its pipes are at least 348 apart, which is wider than the stretch in which
a pipe can score or hit the bird within one frame. The model does not
prove this spacing bound.

In `FlappyModel`, the `Walk` record tracks which live element each snapshot
pipe is. In `FlappyGame`, the predicate `Tracks` follows the object
identities.

Two consequences of the code are worth stating:

- **No clamp at the top.** The bird's position is clamped only at the
  floor (`Height - BirdHeight`). Nothing clamps it at 0, so a jump near
  the top takes the bird above the canvas (`NoCeiling`).
- **Spacing after a recycle.** The three pipes a reset places are 348
  apart, and stay so through every frame until the first recycle. A pipe
  recycled in the middle of a frame ends 348 + 6.2 behind its predecessor
  (`RecycleInFrame`), because the survivors still move in that frame and
  the new pipe does not.
- **Hitbox offset.** The collision test takes the bird to span
  [CTenth, CTenth + 51] horizontally, but the sprite is drawn from
  CTenth - 25.5 (App.tsx:125). The hitbox sits half a bird width right of
  the drawn bird, so a pipe can overlap the left half of the sprite
  without a collision.

Numbers are exact `real`s. The canvas is fixed at 431x768, as the source's
markup declares it. The random source is the parameter `rand: nat -> real`
with values in [0, 1). The counter `draws` says which value the next pipe
takes.

## Model

| member | source | states |
|---|---|---|
| FlappyModel.PipeLoc | src/App.tsx:34-37 | a gap top from a random value in [0, 1) leaves a pipe-width margin above it and room for the gap and a pipe-width margin below it |
| FlappyModel.PipeLocRange | src/App.tsx:34-37 | on the 768-pixel canvas a gap top lies in [78, 420) and both pipe segments have non-negative height |
| FlappyModel.Spawn | src/App.tsx:43-46 | a pipe spawned at x sits at x with a gap top in range |
| FlappyModel.Setup | src/App.tsx:39-47 | a reset always yields exactly three pipes |
| FlappyModel.SetupEffect | src/App.tsx:39-47 | after a reset: score 0, velocity the jump value, bird at mid-height minus half its height, three pipes whose gap tops are in range, three random draws; play flag, frame counter, best and persisted best unchanged; the result is well formed when the persisted best does not exceed the best |
| FlappyModel.SetupSpacing | src/App.tsx:43-46 | pipe i of a reset sits at the canvas width plus i times (gap + pipe width) |
| FlappyModel.SetupScenario | src/App.tsx:39-47 | on the 431x768 canvas a reset puts the bird at 366 and the pipes at 431, 779 and 1127 |
| FlappyModel.Score | src/App.tsx:48-57 | scoring keeps the number of pipes |
| FlappyModel.ScoreEffect | src/App.tsx:48-57 | scoring adds one point; the best becomes the maximum of the old best and the new score; the first pipe is dropped, the others keep their order and a new pipe is appended one interval behind the old last pipe with its gap top in range; nothing else changes but one random draw; the invariant is kept |
| FlappyModel.Lose | src/App.tsx:58-62 | a loss leaves exactly three pipes |
| FlappyModel.LoseEffect | src/App.tsx:58-62 | a loss goes idle, persists the best score without changing it, and leaves a reset run (score 0, jump velocity, bird at mid-height, three pipes); the result is always well formed |
| FlappyModel.Click | src/App.tsx:67-68 | after a click the game is playing with the jump velocity |
| FlappyModel.ClickEffect | src/App.tsx:67-68 | a click sets the play flag and the jump velocity and changes nothing else; it keeps the invariant |
| FlappyModel.Fly | src/App.tsx:129-133 | physics adds gravity to the velocity and never puts the bird below the floor limit |
| FlappyModel.FlyEffect | src/App.tsx:129-133 | physics adds gravity to the velocity, then moves the bird by the new velocity or to the floor limit, whichever is higher up; nothing else changes; the invariant is kept |
| FlappyModel.NoCeiling | src/App.tsx:129-133 | there is no clamp at the top: from height 5 with the jump velocity the bird goes above 0 |
| FlappyModel.SpriteRow | src/App.tsx:123 | the sprite row is 0, 1 or 2 and is the third of the frame counter modulo 9 it falls in |
| FlappyModel.Collides | src/App.tsx:207-214 | a hit needs the pipe's left edge within a pipe width left of the bird's hitbox and at most a bird width right of its left edge CTenth; a bird strictly inside the gap is never hit |
| FlappyModel.CollidesIffTouching | src/App.tsx:207-214 | the three-condition collision test holds exactly when the pipe's closed column meets the bird's closed column and some point of the bird's closed vertical span lies outside the pipe's open gap |
| FlappyModel.CollisionScenarios | src/App.tsx:207-214 | edges that just touch collide, horizontally and at the gap's lower edge; a pipe 0.1 right of the bird does not; a gap that strictly contains the bird does not; a gap wholly above the bird does |
| FlappyModel.Place | src/App.tsx:201 | the moved pipe replaces its live element while the snapshot pipe is still in the live list; every other live pipe is kept, a detached walk's list is unchanged, and nothing but the pipe list changes |
| FlappyModel.ScoreIf | src/App.tsx:204-206 | a moved pipe at or left of -78 makes the game state exactly the result of scoring (one point, best updated, first pipe recycled), and advances drop by one while attached; the walk stays attached or detached as it was; a pipe right of -78 leaves the walk unchanged |
| FlappyModel.LoseIf | src/App.tsx:207-217 | the walk detaches exactly on a hit; a hit makes the game state exactly the result of losing (idle, score 0, best stored without change, new pipes, jump velocity, bird back at mid-height); a miss leaves the walk unchanged |
| FlappyModel.HitResets | src/App.tsx:207-217 | after a hit in the pipe loop the bird is at 366 with the jump velocity and the new first pipe is at the canvas width, so the later pipes of the frame are tested against that reset state |
| FlappyModel.Visit | src/App.tsx:200-218 | the visit of one snapshot pipe (move, score if off screen, lose if hit) keeps three live pipes |
| FlappyModel.VisitPreserves | src/App.tsx:200-218 | a visit keeps the invariant, never lowers the best score and leaves the frame counter alone |
| FlappyModel.WalkTo | src/App.tsx:200-218 | visiting the first n snapshot pipes keeps three live pipes and the invariant, never lowers the best score and leaves the frame counter alone |
| FlappyModel.PipeWalk | src/App.tsx:199-219 | walking the whole snapshot keeps the invariant, never lowers the best score and leaves the frame counter alone |
| FlappyModel.CountFrame | src/App.tsx:190 | counting a frame adds one to the frame counter and changes nothing else |
| FlappyModel.Frame | src/App.tsx:189-219 | a frame keeps the invariant, never lowers the best score and advances the frame counter by exactly one |
| FlappyModel.IdleFrame | src/App.tsx:189-199 | an idle frame changes nothing but the frame counter |
| FlappyModel.QuietFrame | src/App.tsx:189-219 | a playing frame in which no pipe leaves the screen and none hits the bird moves each of the three pipes 6.2 to the left and changes only the bird and the frame counter besides |
| FlappyModel.RecycleInFrame | src/App.tsx:199-219 | when only the first pipe leaves the screen and nothing collides: one point, the best is updated, both survivors move, the recycled pipe lands an interval behind the last pipe's start-of-frame position and does not move, so the last distance is 348 + 6.2 |
| FlappyModel.LossInFrame | src/App.tsx:199-219 | when the first pipe hits the bird and none leaves the screen the frame ends idle with a reset run, jump velocity, mid-height bird and the best score persisted unchanged |
| FlappyModel.Initial | src/App.tsx:24-29 | the state before the first frame is well formed and idle, with frame counter 0, score 0 and both best scores equal to the stored value |
| FlappyModel.Step | src/App.tsx:67-219 | a click (the listeners at lines 67-68) or a frame (the render at lines 189-219) keeps three pipes |
| FlappyModel.Run | src/App.tsx:220 | any sequence of clicks and frames keeps three pipes |
| FlappyModel.RunPreserves | src/App.tsx:189-221 | along every run the invariant holds, the best never decreases, the current and the persisted best never exceed it, and the frame counter equals its start plus the number of frames |
| FlappyGame.Pipe.constructor | src/App.tsx:27 | a pipe object holds the given position and gap top |
| FlappyGame.Game.constructor | src/App.tsx:24-29 | a new game is valid and equals the initial model for the stored best |
| FlappyGame.Game.NewPipe | src/App.tsx:34-37 | a new pipe object is fresh, its gap top comes from the next random value, and the draw counter advances by one |
| FlappyGame.Game.SpawnPipes | src/App.tsx:43-46 | a reset's three pipes are fresh, distinct objects holding the three spawned values |
| FlappyGame.Game.Setup | src/App.tsx:39-47 | the reset moves the state exactly as the model's Setup, and all three pipe objects are new |
| FlappyGame.Game.HandleScore | src/App.tsx:48-57 | scoring moves the state exactly as the model's Score; the two surviving pipe objects are the old ones and the third is new |
| FlappyGame.Game.ShiftPipes | src/App.tsx:52-56 | the first pipe object is dropped, the others are kept and a new one is appended an interval behind the old last pipe |
| FlappyGame.Game.HandleLose | src/App.tsx:58-62 | a loss moves the state exactly as the model's Lose, and all three pipe objects are new |
| FlappyGame.Game.OnClick | src/App.tsx:67-68 | a click moves the state exactly as the model's Click |
| FlappyGame.Game.FlyStep | src/App.tsx:129-133 | physics moves the state exactly as the model's Fly |
| FlappyGame.Game.MovePipe | src/App.tsx:201 | moving a snapshot pipe writes its new position into the shared object, and into the live list only while that pipe is still in it |
| FlappyGame.Game.ScoreIfPassed | src/App.tsx:204-206 | scoring on an off-screen pipe follows the model's ScoreIf and keeps track of which live element each unvisited snapshot pipe is |
| FlappyGame.Game.LoseIfHit | src/App.tsx:207-217 | losing on a hit follows the model's LoseIf and records that the unvisited snapshot pipes left the live list |
| FlappyGame.Game.VisitPipe | src/App.tsx:200-218 | one visit of a snapshot pipe advances the state exactly as the model's walk over one more pipe, and that pipe object ends 6.2 left of its frame-start position with its gap top unchanged |
| FlappyGame.Game.CountFrameStep | src/App.tsx:190 | counting a frame changes only the frame counter, by one |
| FlappyGame.Game.MovePipes | src/App.tsx:199-219 | the loop over the snapshot of the pipe list moves the state exactly as the model's PipeWalk, and every pipe object of that snapshot ends 6.2 left of its frame-start position, whatever scores or losses happen |
| FlappyGame.Game.Render | src/App.tsx:189-219 | one frame moves the state exactly as the model's Frame |

## Left out

- Drawing is left out because it changes no game variable. This covers the two background copies, the bird and pipe sprites and the score texts on the canvas.
- The `innerHTML` mirror of the score and the header markup are left out for the same reason.
- React's hooks and refs are left out. The model has one game and one canvas of fixed size 431x768.
- The adding and removing of the click listeners is left out. Their removal passes new closures, so it removes nothing. Each click is the event `ClickEvent`; both listeners' effects happen on it.
- `requestAnimationFrame` scheduling and `img.onload` are left out. Each frame is the event `Tick`.
- The second `flyHeight` assignment when the render effect mounts (App.tsx:187) is left out. It writes the value the reset has already set.
- `localStorage` and `JSON.parse`/`parseInt` of the stored best are left out. The stored best is a `nat` parameter, and a missing or malformed entry is not modelled. Writing the best back is the `stored` field.
- `Math.random` is left out. It is the parameter `rand` with values in [0, 1), consumed in draw order.
- Floating-point rounding is left out: positions and velocities are exact reals.
- FlappyModel.Setup, FlappyModel.Score, FlappyModel.Lose, FlappyModel.Visit, FlappyModel.Step and FlappyModel.Run: their own contracts state only the pipe count. What they compute is stated by the lemmas SetupEffect, ScoreEffect, LoseEffect, VisitPreserves and RunPreserves.
