/** Value-level model of the flappy-bird game state machine: the game
    variables as one record, each transition (setup, score, lose, click,
    physics, one frame) as a function over that record, and the lemmas that
    state what those transitions promise. The transition methods of the
    Game class in FlappyGame are proved to implement these functions. */
module FlappyModel {

  // Physics and geometry constants, in pixels and pixels per frame.
  const Gravity: real := 0.5
  const Speed: real := 6.2
  const BirdWidth: real := 51.0
  const BirdHeight: real := 36.0
  const Jump: real := -11.5
  const PipeWidth: real := 78.0
  const PipeGap: real := 270.0

  // The canvas the game is drawn on.
  const Width: real := 431.0
  const Height: real := 768.0

  /** Horizontal slot of the bird: a tenth of the canvas width. */
  const CTenth: real := Width / 10.0

  /** Horizontal distance between consecutive freshly placed pipes. */
  const Spacing: real := PipeGap + PipeWidth

  /** A pipe pair: its left edge and the top of its gap. */
  datatype PipeV = PipeV(x: real, gapTop: real)

  /** All the game variables. `stored` is the persisted best score and
      `draws` counts the values taken from the random source so far. */
  datatype Model = Model(
    playing: bool,
    index: nat,
    best: nat,
    score: nat,
    pipes: seq<PipeV>,
    flight: real,
    flyHeight: real,
    stored: nat,
    draws: nat)

  /** A random source yields values in [0, 1). */
  ghost predicate RandomOk(rand: nat -> real)
  {
    forall n: nat :: 0.0 <= rand(n) < 1.0
  }

  function Max(a: nat, b: nat): nat
  {
    if a < b then b else a
  }

  function Min(a: real, b: real): real
  {
    if a <= b then a else b
  }

  /** The range of gap tops that leaves room for both pipe segments and a
      pipe-width margin at the top and at the bottom of the canvas. */
  predicate GapOk(gapTop: real)
  {
    PipeWidth <= gapTop < Height - PipeGap - PipeWidth
  }

  /** Gap top of a new pipe, from one value r of the random source. */
  function PipeLoc(r: real): (gapTop: real)
    requires 0.0 <= r < 1.0
    ensures GapOk(gapTop)
    ensures 0.0 <= gapTop && gapTop + PipeGap <= Height
  {
    r * (Height - (PipeGap + PipeWidth) - PipeWidth) + PipeWidth
  }

  /** The invariant every reachable state keeps. */
  predicate WellFormed(m: Model)
  {
    |m.pipes| == 3 &&
    m.score <= m.best &&
    m.stored <= m.best &&
    m.flyHeight <= Height - BirdHeight &&
    forall i :: 0 <= i < |m.pipes| ==> GapOk(m.pipes[i].gapTop)
  }

  /** A pipe placed at x whose gap top comes from random value number n. */
  function Spawn(rand: nat -> real, n: nat, x: real): (p: PipeV)
    requires RandomOk(rand)
    ensures p.x == x && GapOk(p.gapTop)
  {
    PipeV(x, PipeLoc(rand(n)))
  }

  /** Resets a run: score, bird and the three pipes, the i-th pipe at the
      canvas width plus i intervals of gap height and pipe width. */
  function Setup(m: Model, rand: nat -> real): (r: Model)
    requires RandomOk(rand)
    ensures |r.pipes| == 3
  {
    Model(m.playing, m.index, m.best,
          0,
          [Spawn(rand, m.draws, Width),
           Spawn(rand, m.draws + 1, Width + Spacing),
           Spawn(rand, m.draws + 2, Width + 2.0 * Spacing)],
          Jump,
          Height / 2.0 - BirdHeight / 2.0,
          m.stored,
          m.draws + 3)
  }

  /** A pipe has been passed: one more point, a better best score if it is
      one, and the first pipe is recycled behind the last one. */
  function Score(m: Model, rand: nat -> real): (r: Model)
    requires |m.pipes| > 0 && RandomOk(rand)
    ensures |r.pipes| == |m.pipes|
  {
    Model(m.playing, m.index,
          Max(m.best, m.score + 1),
          m.score + 1,
          m.pipes[1..] + [PipeV(m.pipes[|m.pipes| - 1].x + PipeGap + PipeWidth, PipeLoc(rand(m.draws)))],
          m.flight, m.flyHeight, m.stored,
          m.draws + 1)
  }

  /** The bird hit a pipe: the game goes idle, the best score is persisted
      and a new run is set up. */
  function Lose(m: Model, rand: nat -> real): (r: Model)
    requires RandomOk(rand)
    ensures |r.pipes| == 3
  {
    Setup(m.(playing := false, stored := m.best), rand)
  }

  /** A click starts the game and gives the bird an upward kick. */
  function Click(m: Model): (r: Model)
    ensures r.playing && r.flight == Jump
  {
    m.(playing := true, flight := Jump)
  }

  /** One step of bird physics while playing: gravity, then the floor clamp. */
  function Fly(m: Model): (r: Model)
    ensures r.flight == m.flight + Gravity
    ensures r.flyHeight <= Height - BirdHeight
  {
    var flight := m.flight + Gravity;
    m.(flight := flight, flyHeight := Min(m.flyHeight + flight, Height - BirdHeight))
  }

  /** Collision test of a pipe at left edge x with gap top gapTop against
      the bird whose top is at flyHeight. Boundary equality collides. */
  function Collides(x: real, gapTop: real, flyHeight: real): (hit: bool)
    ensures hit ==> CTenth - PipeWidth <= x <= CTenth + BirdWidth
    ensures gapTop < flyHeight && flyHeight + BirdHeight < gapTop + PipeGap ==> !hit
  {
    x <= CTenth + BirdWidth &&
    x + PipeWidth >= CTenth &&
    (gapTop >= flyHeight || gapTop + PipeGap <= flyHeight + BirdHeight)
  }

  /** Frame sprite row of the bird, cycling through three rows, each held
      for three frames. */
  function SpriteRow(index: nat): (row: nat)
    ensures row < 3
    ensures 3 * row <= index % 9 < 3 * row + 3
  {
    (index % 9) / 3
  }

  /** State of the pipe walk inside one frame. While `attached`, the walk
      has not caused a loss, and the not yet visited snapshot pipe number j
      is element j - drop of the live list, where drop counts the recycles
      done so far in this frame. After a loss the snapshot pipes are no
      longer in the live list. */
  datatype Walk = Walk(m: Model, drop: nat, attached: bool)

  /** The pipe a visit works on: the live element when the snapshot pipe is
      still in the list, otherwise its frame-start value v. */
  function Current(w: Walk, v: PipeV, j: nat): PipeV
  {
    if w.attached && 0 <= j - w.drop < |w.m.pipes| then w.m.pipes[j - w.drop] else v
  }

  /** A pipe moved one frame to the left. */
  function Moved(p: PipeV): PipeV
  {
    p.(x := p.x - Speed)
  }

  /** First step of a visit: the moved pipe p is written back into the live
      list when the snapshot pipe number j is still in it. */
  function Place(w: Walk, j: nat, p: PipeV): (r: Walk)
    ensures |r.m.pipes| == |w.m.pipes| && r.drop == w.drop && r.attached == w.attached
    ensures w.attached && 0 <= j - w.drop < |w.m.pipes| ==> r.m.pipes[j - w.drop] == p
    ensures forall k :: 0 <= k < |w.m.pipes| && !(w.attached && k == j - w.drop) ==> r.m.pipes[k] == w.m.pipes[k]
    ensures r.m.(pipes := w.m.pipes) == w.m
  {
    if w.attached && 0 <= j - w.drop < |w.m.pipes|
    then w.(m := w.m.(pipes := w.m.pipes[j - w.drop := p]))
    else w
  }

  /** Second step: when the moved pipe p is off screen the player scores,
      which recycles the first live pipe. */
  function ScoreIf(w: Walk, p: PipeV, rand: nat -> real): (r: Walk)
    requires |w.m.pipes| == 3 && RandomOk(rand)
    ensures |r.m.pipes| == 3 && r.attached == w.attached
    ensures r.m.score == if p.x <= -PipeWidth then w.m.score + 1 else w.m.score
    ensures r.drop == if w.attached && p.x <= -PipeWidth then w.drop + 1 else w.drop
    ensures p.x > -PipeWidth ==> r == w
    ensures p.x <= -PipeWidth ==> r.m == Score(w.m, rand)
  {
    if p.x <= -PipeWidth
    then Walk(Score(w.m, rand), if w.attached then w.drop + 1 else w.drop, w.attached)
    else w
  }

  /** Third step: when the moved pipe p hits the bird the run is lost,
      which replaces the live list. */
  function LoseIf(w: Walk, p: PipeV, rand: nat -> real): (r: Walk)
    requires |w.m.pipes| == 3 && RandomOk(rand)
    ensures |r.m.pipes| == 3 && r.drop == w.drop
    ensures r.attached <==> w.attached && !Collides(p.x, p.gapTop, w.m.flyHeight)
    ensures Collides(p.x, p.gapTop, w.m.flyHeight) ==> !r.m.playing && r.m.score == 0
    ensures Collides(p.x, p.gapTop, w.m.flyHeight) ==> r.m.stored == w.m.best && r.m.best == w.m.best
    ensures !Collides(p.x, p.gapTop, w.m.flyHeight) ==> r == w
    ensures Collides(p.x, p.gapTop, w.m.flyHeight) ==> r.m == Lose(w.m, rand)
  {
    if Collides(p.x, p.gapTop, w.m.flyHeight)
    then Walk(Lose(w.m, rand), w.drop, false)
    else w
  }

  /** Visit of snapshot pipe number j, whose value at the start of the
      frame is v: move it left, score if it is off screen, lose if it
      hits the bird. */
  function Visit(w: Walk, v: PipeV, j: nat, rand: nat -> real): (r: Walk)
    requires |w.m.pipes| == 3 && RandomOk(rand)
    ensures |r.m.pipes| == 3
  {
    var p := Moved(Current(w, v, j));
    LoseIf(ScoreIf(Place(w, j, p), p, rand), p, rand)
  }

  /** The walk after visiting the first n pipes of the snapshot. */
  function WalkTo(w: Walk, snapshot: seq<PipeV>, n: nat, rand: nat -> real): (r: Walk)
    requires n <= |snapshot| && |w.m.pipes| == 3 && RandomOk(rand)
    ensures |r.m.pipes| == 3
    ensures WellFormed(w.m) ==> WellFormed(r.m) && r.m.best >= w.m.best && r.m.index == w.m.index
    decreases n
  {
    if n == 0 then w
    else
      VisitPreserves(WalkTo(w, snapshot, n - 1, rand), snapshot[n - 1], n - 1, rand);
      Visit(WalkTo(w, snapshot, n - 1, rand), snapshot[n - 1], n - 1, rand)
  }

  /** The pipe walk of a playing frame, after the bird has moved. It keeps
      the invariant, never lowers the best score and leaves the frame
      counter alone. */
  function PipeWalk(m: Model, rand: nat -> real): (r: Model)
    requires |m.pipes| == 3 && RandomOk(rand)
    ensures |r.pipes| == 3
    ensures WellFormed(m) ==> WellFormed(r) && r.best >= m.best && r.index == m.index
  {
    WalkTo(Walk(m, 0, true), m.pipes, |m.pipes|, rand).m
  }

  /** The frame counter that drives the bird's wing animation, one
      further. */
  function CountFrame(m: Model): (r: Model)
    ensures r.index == m.index + 1
    ensures r.(index := m.index) == m
  {
    m.(index := m.index + 1)
  }

  /** One animation frame: count it, then, while playing, move the bird and
      walk the pipe list as it was when the walk began. A frame keeps the
      invariant, never lowers the best score and counts itself once. */
  function Frame(m: Model, rand: nat -> real): (r: Model)
    requires |m.pipes| == 3 && RandomOk(rand)
    ensures |r.pipes| == 3
    ensures WellFormed(m) ==> WellFormed(r) && r.best >= m.best && r.index == m.index + 1
  {
    FlyEffect(CountFrame(m));
    if m.playing then PipeWalk(Fly(CountFrame(m)), rand) else CountFrame(m)
  }

  /** The game before the first frame: the best score read from storage,
      followed by the reset done when the component mounts. */
  function Initial(stored: nat, rand: nat -> real): (r: Model)
    requires RandomOk(rand)
    ensures WellFormed(r) && !r.playing && r.index == 0
    ensures r.best == stored && r.stored == stored && r.score == 0
  {
    Setup(Model(false, 0, stored, 0, [], 0.0, 0.0, stored, 0), rand)
  }

  // ---------------------------------------------------------------------
  // Properties of the transitions

  /** After a reset: no points, the bird at mid-height with the jump
      velocity, three pipes spaced by gap height plus pipe width from the
      right edge of the canvas, each gap top drawn in range; the play flag,
      the frame counter and both best scores untouched. */
  lemma SetupEffect(m: Model, rand: nat -> real)
    requires RandomOk(rand)
    ensures Setup(m, rand).score == 0
    ensures Setup(m, rand).flight == Jump
    ensures Setup(m, rand).flyHeight == Height / 2.0 - BirdHeight / 2.0
    ensures |Setup(m, rand).pipes| == 3
    ensures (forall i :: 0 <= i < 3 ==> GapOk(Setup(m, rand).pipes[i].gapTop))
    ensures Setup(m, rand).draws == m.draws + 3
    ensures Setup(m, rand).playing == m.playing
    ensures Setup(m, rand).index == m.index
    ensures Setup(m, rand).best == m.best
    ensures Setup(m, rand).stored == m.stored
    ensures m.stored <= m.best ==> WellFormed(Setup(m, rand))
  {
  }

  /** A reset places pipe i at the canvas width plus i intervals. */
  lemma SetupSpacing(m: Model, rand: nat -> real, i: nat)
    requires RandomOk(rand) && i < 3
    ensures Setup(m, rand).pipes[i].x == Width + i as real * Spacing
  {
    assert i == 0 || i == 1 || i == 2;
  }

  /** A reset on the 431x768 canvas puts the bird at 366 and the pipes at
      431, 779 and 1127. */
  lemma SetupScenario(m: Model, rand: nat -> real)
    requires RandomOk(rand)
    ensures Setup(m, rand).flyHeight == 366.0
    ensures [Setup(m, rand).pipes[0].x, Setup(m, rand).pipes[1].x, Setup(m, rand).pipes[2].x]
            == [431.0, 779.0, 1127.0]
  {
  }

  /** A gap top drawn from the random source leaves both pipe segments a
      non-negative height: on the 768 canvas it lies in [78, 420). */
  lemma PipeLocRange(r: real)
    requires 0.0 <= r < 1.0
    ensures 78.0 <= PipeLoc(r) < 420.0
    ensures PipeLoc(r) >= 0.0 && Height - (PipeLoc(r) + PipeGap) >= 0.0
  {
  }

  /** Scoring adds exactly one point, lifts the best score to at least the
      new score and never lowers it, drops the first pipe, keeps the others
      in order and appends one placed an interval behind the old last pipe;
      nothing else changes but the random draw. */
  lemma ScoreEffect(m: Model, rand: nat -> real)
    requires |m.pipes| > 0 && RandomOk(rand)
    ensures Score(m, rand).score == m.score + 1
    ensures Score(m, rand).best == Max(m.best, m.score + 1)
    ensures Score(m, rand).best >= Score(m, rand).score
    ensures Score(m, rand).best >= m.best
    ensures |Score(m, rand).pipes| == |m.pipes|
    ensures Score(m, rand).pipes[..|m.pipes| - 1] == m.pipes[1..]
    ensures Score(m, rand).pipes[|m.pipes| - 1].x == m.pipes[|m.pipes| - 1].x + Spacing
    ensures GapOk(Score(m, rand).pipes[|m.pipes| - 1].gapTop)
    ensures Score(m, rand).playing == m.playing
    ensures Score(m, rand).index == m.index
    ensures Score(m, rand).stored == m.stored
    ensures Score(m, rand).flight == m.flight
    ensures Score(m, rand).flyHeight == m.flyHeight
    ensures Score(m, rand).draws == m.draws + 1
    ensures WellFormed(m) ==> WellFormed(Score(m, rand))
  {
    var r := Score(m, rand);
    var n := |m.pipes|;
    assert r.pipes[..n - 1] == m.pipes[1..];
    if WellFormed(m) {
      forall i | 0 <= i < n ensures GapOk(r.pipes[i].gapTop) {
        if i < n - 1 {
          assert r.pipes[i] == m.pipes[i + 1];
        }
      }
    }
  }

  /** Losing goes idle, persists the best score without changing it, and
      leaves the state a reset produces: no points and three new pipes. */
  lemma LoseEffect(m: Model, rand: nat -> real)
    requires RandomOk(rand)
    ensures !Lose(m, rand).playing
    ensures Lose(m, rand).stored == m.best
    ensures Lose(m, rand).best == m.best
    ensures Lose(m, rand).score == 0
    ensures |Lose(m, rand).pipes| == 3
    ensures Lose(m, rand).index == m.index
    ensures Lose(m, rand).flight == Jump
    ensures Lose(m, rand).flyHeight == Height / 2.0 - BirdHeight / 2.0
    ensures WellFormed(Lose(m, rand))
  {
    SetupEffect(m.(playing := false, stored := m.best), rand);
  }

  /** A click sets the play flag and the jump velocity and nothing else. */
  lemma ClickEffect(m: Model)
    ensures Click(m).playing && Click(m).flight == Jump
    ensures Click(m).(playing := m.playing, flight := m.flight) == m
    ensures WellFormed(m) ==> WellFormed(Click(m))
  {
  }

  /** Physics adds gravity to the velocity, then moves the bird by the new
      velocity but never below the floor limit; nothing else changes. */
  lemma FlyEffect(m: Model)
    ensures Fly(m).flight == m.flight + Gravity
    ensures Fly(m).flyHeight <= m.flyHeight + Fly(m).flight
    ensures Fly(m).flyHeight <= Height - BirdHeight
    ensures Fly(m).flyHeight == m.flyHeight + Fly(m).flight || Fly(m).flyHeight == Height - BirdHeight
    ensures Fly(m).(flight := m.flight, flyHeight := m.flyHeight) == m
    ensures WellFormed(m) ==> WellFormed(Fly(m))
  {
  }

  /** There is no clamp at the top: a jump near the top takes the bird
      above the canvas. */
  lemma NoCeiling(m: Model)
    requires m.flyHeight == 5.0 && m.flight == Jump
    ensures Fly(m).flyHeight < 0.0
  {
  }

  /** Collision as geometry: the pipe column and the bird column share a
      point, and some point of the bird's vertical span lies outside the
      open gap. */
  predicate InPipeColumn(x: real, t: real) { x <= t <= x + PipeWidth }
  // The hitbox column; the sprite itself is drawn half a bird width further left.
  predicate InBirdColumn(t: real) { CTenth <= t <= CTenth + BirdWidth }
  predicate InBirdSpan(flyHeight: real, y: real) { flyHeight <= y <= flyHeight + BirdHeight }
  predicate InGap(gapTop: real, y: real) { gapTop < y < gapTop + PipeGap }

  ghost predicate Touching(x: real, gapTop: real, flyHeight: real)
  {
    (exists t :: InPipeColumn(x, t) && InBirdColumn(t)) &&
    (exists y :: InBirdSpan(flyHeight, y) && !InGap(gapTop, y))
  }

  lemma CollidesIffTouching(x: real, gapTop: real, flyHeight: real)
    ensures Collides(x, gapTop, flyHeight) <==> Touching(x, gapTop, flyHeight)
  {
    if Collides(x, gapTop, flyHeight) {
      var t := if x <= CTenth then CTenth else x;
      assert InPipeColumn(x, t) && InBirdColumn(t);
      var y := if gapTop >= flyHeight then flyHeight else flyHeight + BirdHeight;
      assert InBirdSpan(flyHeight, y) && !InGap(gapTop, y);
    }
    if Touching(x, gapTop, flyHeight) {
      var t :| InPipeColumn(x, t) && InBirdColumn(t);
      var y :| InBirdSpan(flyHeight, y) && !InGap(gapTop, y);
    }
  }

  /** Boundary cases: touching edges collide; a gap that contains the bird
      one pixel left of its slot does not; a gap above the bird does. */
  lemma CollisionScenarios(gapTop: real, flyHeight: real)
    ensures Collides(CTenth + BirdWidth, flyHeight, flyHeight)
    ensures Collides(CTenth - PipeWidth, flyHeight + BirdHeight - PipeGap, flyHeight)
    ensures !Collides(CTenth + BirdWidth + 0.1, gapTop, flyHeight)
    ensures gapTop < flyHeight && flyHeight + BirdHeight < gapTop + PipeGap ==>
              !Collides(CTenth - 1.0, gapTop, flyHeight)
    ensures gapTop + PipeGap <= flyHeight ==> Collides(CTenth - 1.0, gapTop, flyHeight)
  {
  }

  /** One visit keeps the invariant, never lowers the best score and leaves
      the frame counter alone. */
  lemma VisitPreserves(w: Walk, v: PipeV, j: nat, rand: nat -> real)
    requires |w.m.pipes| == 3 && RandomOk(rand)
    ensures WellFormed(w.m) ==> WellFormed(Visit(w, v, j, rand).m)
    ensures Visit(w, v, j, rand).m.best >= w.m.best
    ensures Visit(w, v, j, rand).m.index == w.m.index
  {
    var p := Moved(Current(w, v, j));
    var w1 := Place(w, j, p);
    ScoreEffect(w1.m, rand);
    LoseEffect(ScoreIf(w1, p, rand).m, rand);
    if WellFormed(w.m) {
      assert WellFormed(w1.m);
    }
  }

  /** A hit in the middle of the pipe loop resets the bird and the pipes
      before the loop goes on: the later pipes of the same frame are tested
      against the bird at 366 with the jump velocity, and against a new
      pipe list that starts at the right edge of the canvas. */
  lemma HitResets(w: Walk, p: PipeV, rand: nat -> real)
    requires |w.m.pipes| == 3 && RandomOk(rand)
    requires Collides(p.x, p.gapTop, w.m.flyHeight)
    ensures LoseIf(w, p, rand).m.flyHeight == 366.0
    ensures LoseIf(w, p, rand).m.flight == Jump
    ensures LoseIf(w, p, rand).m.pipes[0].x == Width
    ensures !LoseIf(w, p, rand).attached
  {
    LoseEffect(w.m, rand);
    SetupSpacing(w.m.(playing := false, stored := w.m.best), rand, 0);
  }

  /** An idle frame only advances the frame counter. */
  lemma IdleFrame(m: Model, rand: nat -> real)
    requires |m.pipes| == 3 && RandomOk(rand) && !m.playing
    ensures Frame(m, rand) == m.(index := m.index + 1)
  {
  }

  /** A playing frame in which no pipe leaves the screen and none hits the
      bird moves every pipe 6.2 to the left and changes nothing else but
      the bird and the frame counter. */
  lemma QuietFrame(m: Model, rand: nat -> real)
    requires |m.pipes| == 3 && RandomOk(rand) && m.playing
    requires forall i :: 0 <= i < 3 ==> m.pipes[i].x - Speed > -PipeWidth
    requires forall i :: 0 <= i < 3 ==> !Collides(m.pipes[i].x - Speed, m.pipes[i].gapTop, Fly(m).flyHeight)
    ensures Frame(m, rand) == Fly(m).(index := m.index + 1,
                                      pipes := [Moved(m.pipes[0]), Moved(m.pipes[1]), Moved(m.pipes[2])])
  {
    var m2 := Fly(CountFrame(m));
    var s := m2.pipes;
    var w0 := Walk(m2, 0, true);
    var w1 := Visit(w0, s[0], 0, rand);
    assert w1 == Walk(m2.(pipes := [Moved(s[0]), s[1], s[2]]), 0, true);
    var w2 := Visit(w1, s[1], 1, rand);
    assert w2 == Walk(m2.(pipes := [Moved(s[0]), Moved(s[1]), s[2]]), 0, true);
    var w3 := Visit(w2, s[2], 2, rand);
    assert w3 == Walk(m2.(pipes := [Moved(s[0]), Moved(s[1]), Moved(s[2])]), 0, true);
    assert WalkTo(w0, s, 1, rand) == w1;
    assert WalkTo(w0, s, 2, rand) == w2;
    assert WalkTo(w0, s, 3, rand) == w3;
  }

  /** The first pipe leaves the screen, nothing collides: one point, and the
      recycled pipe is placed an interval behind the last pipe's position at
      the start of the frame, before that pipe moved; the two survivors
      still move in this frame and the new pipe does not, so the last
      distance grows to the interval plus 6.2. */
  lemma RecycleInFrame(m: Model, rand: nat -> real)
    requires |m.pipes| == 3 && RandomOk(rand) && m.playing
    requires m.pipes[0].x - Speed <= -PipeWidth
    requires forall i :: 1 <= i < 3 ==> m.pipes[i].x - Speed > -PipeWidth
    requires forall i :: 1 <= i < 3 ==> !Collides(m.pipes[i].x - Speed, m.pipes[i].gapTop, Fly(m).flyHeight)
    ensures Frame(m, rand).playing
    ensures Frame(m, rand).score == m.score + 1
    ensures Frame(m, rand).best == Max(m.best, m.score + 1)
    ensures Frame(m, rand).pipes == [Moved(m.pipes[1]), Moved(m.pipes[2]), PipeV(m.pipes[2].x + Spacing, PipeLoc(rand(m.draws)))]
    ensures Frame(m, rand).pipes[2].x - Frame(m, rand).pipes[1].x == Spacing + Speed
    ensures Frame(m, rand).draws == m.draws + 1
  {
    var m2 := Fly(CountFrame(m));
    var s := m2.pipes;
    var spawned := PipeV(s[2].x + Spacing, PipeLoc(rand(m.draws)));
    var w0 := Walk(m2, 0, true);
    var w1 := Visit(w0, s[0], 0, rand);
    var m1 := Score(m2.(pipes := [Moved(s[0]), s[1], s[2]]), rand);
    assert m1.pipes == [s[1], s[2], spawned];
    assert w1 == Walk(m1, 1, true);
    var w2 := Visit(w1, s[1], 1, rand);
    assert w2 == Walk(m1.(pipes := [Moved(s[1]), s[2], spawned]), 1, true);
    var w3 := Visit(w2, s[2], 2, rand);
    assert w3 == Walk(m1.(pipes := [Moved(s[1]), Moved(s[2]), spawned]), 1, true);
    assert WalkTo(w0, s, 1, rand) == w1;
    assert WalkTo(w0, s, 2, rand) == w2;
    assert WalkTo(w0, s, 3, rand) == w3;
  }

  /** The first pipe hits the bird and no pipe leaves the screen: the frame
      ends idle with a reset run and the best score persisted. */
  lemma LossInFrame(m: Model, rand: nat -> real)
    requires |m.pipes| == 3 && RandomOk(rand) && m.playing
    requires forall i :: 0 <= i < 3 ==> m.pipes[i].x - Speed > -PipeWidth
    requires Collides(m.pipes[0].x - Speed, m.pipes[0].gapTop, Fly(m).flyHeight)
    ensures !Frame(m, rand).playing
    ensures Frame(m, rand).score == 0
    ensures Frame(m, rand).best == m.best
    ensures Frame(m, rand).stored == m.best
    ensures Frame(m, rand).flight == Jump
    ensures Frame(m, rand).flyHeight == Height / 2.0 - BirdHeight / 2.0
    ensures |Frame(m, rand).pipes| == 3
  {
    var m2 := Fly(CountFrame(m));
    var s := m2.pipes;
    var w0 := Walk(m2, 0, true);
    var w1 := Visit(w0, s[0], 0, rand);
    assert !w1.attached && !w1.m.playing && w1.m.score == 0 && w1.m.stored == m.best;
    var w2 := Visit(w1, s[1], 1, rand);
    assert !w2.attached && !w2.m.playing && w2.m.score == 0 && w2.m.stored == m.best;
    var w3 := Visit(w2, s[2], 2, rand);
    assert !w3.m.playing && w3.m.score == 0 && w3.m.stored == m.best;
    assert WalkTo(w0, s, 1, rand) == w1;
    assert WalkTo(w0, s, 2, rand) == w2;
    assert WalkTo(w0, s, 3, rand) == w3;
  }

  // ---------------------------------------------------------------------
  // Runs of events

  /** What the host delivers between and at frames. */
  datatype Event = ClickEvent | Tick

  function Step(m: Model, e: Event, rand: nat -> real): (r: Model)
    requires |m.pipes| == 3 && RandomOk(rand)
    ensures |r.pipes| == 3
  {
    match e
    case ClickEvent => Click(m)
    case Tick => Frame(m, rand)
  }

  /** The state after a sequence of events. */
  function Run(m: Model, events: seq<Event>, rand: nat -> real): (r: Model)
    requires |m.pipes| == 3 && RandomOk(rand)
    ensures |r.pipes| == 3
    decreases |events|
  {
    if events == [] then m else Run(Step(m, events[0], rand), events[1..], rand)
  }

  /** Over any run the invariant holds throughout, the best score never
      decreases, neither the current score nor the persisted best ever
      exceeds it, and the frame counter counts the frames. */
  lemma {:induction false} RunPreserves(m: Model, events: seq<Event>, rand: nat -> real)
    requires WellFormed(m) && RandomOk(rand)
    ensures WellFormed(Run(m, events, rand))
    ensures Run(m, events, rand).best >= m.best
    ensures Run(m, events, rand).score <= Run(m, events, rand).best
    ensures Run(m, events, rand).stored <= Run(m, events, rand).best
    ensures Run(m, events, rand).index == m.index + Ticks(events)
    decreases |events|
  {
    if events != [] {
      RunPreserves(Step(m, events[0], rand), events[1..], rand);
    }
  }

  /** The number of frames in a sequence of events. */
  function Ticks(events: seq<Event>): nat
  {
    if events == [] then 0 else (if events[0] == Tick then 1 else 0) + Ticks(events[1..])
  }
}
