/** The game as the program holds it: mutable variables and pipe objects
    that the frame loop changes in place. Each transition method (Setup,
    HandleScore, HandleLose, OnClick, FlyStep, MovePipes, Render) is proved
    to move the abstract value Abs() exactly as the matching function of
    FlappyModel does; the helper methods under them build pipe objects or
    follow the single steps of one visit of the pipe loop. */
module FlappyGame {
  import opened FlappyModel

  /** A pipe pair, shared by reference between the live pipe list and the
      frame loop's snapshot of it. */
  class Pipe {
    var x: real
    var gapTop: real

    constructor (x: real, gapTop: real)
      ensures this.x == x && this.gapTop == gapTop
    {
      this.x := x;
      this.gapTop := gapTop;
    }
  }

  /** The pipe objects hold exactly the values vs. */
  ghost predicate Mirrors(ps: seq<Pipe>, vs: seq<PipeV>)
    reads ps
  {
    |ps| == |vs| &&
    forall k :: 0 <= k < |ps| ==> ps[k].x == vs[k].x && ps[k].gapTop == vs[k].gapTop
  }

  lemma MirrorsTail(ps: seq<Pipe>, vs: seq<PipeV>)
    requires Mirrors(ps, vs) && |ps| > 0
    ensures Mirrors(ps[1..], vs[1..])
  {
    forall k | 0 <= k < |ps| - 1
      ensures ps[1..][k].x == vs[1..][k].x && ps[1..][k].gapTop == vs[1..][k].gapTop
    {
      assert ps[1..][k] == ps[k + 1] && vs[1..][k] == vs[k + 1];
    }
  }

  /** The first n pipe objects hold the values vs moved one frame to the
      left. */
  ghost predicate Shifted(ps: seq<Pipe>, vs: seq<PipeV>, n: nat)
    reads ps
  {
    n <= |ps| && n <= |vs| &&
    forall k :: 0 <= k < n ==> ps[k].x == vs[k].x - Speed && ps[k].gapTop == vs[k].gapTop
  }

  ghost predicate Distinct(ps: seq<Pipe>)
  {
    forall i, j :: 0 <= i < j < |ps| ==> ps[i] != ps[j]
  }

  class Game {
    /** The injected random source. */
    const rand: nat -> real

    var playing: bool
    var index: nat
    var best: nat
    var score: nat
    var pipes: seq<Pipe>
    var flight: real
    var flyHeight: real
    var stored: nat
    var draws: nat

    /** The values held by the pipe objects, in list order. */
    ghost var pipeValues: seq<PipeV>

    ghost function Abs(): Model
      reads this
    {
      Model(playing, index, best, score, pipeValues, flight, flyHeight, stored, draws)
    }

    ghost predicate Valid()
      reads this, pipes
    {
      WellFormed(Abs()) && Mirrors(pipes, pipeValues) && Distinct(pipes) && RandomOk(rand)
    }

    /** Loads the game with the best score read from storage and sets up
        the first run. */
    constructor (bestStored: nat, rand: nat -> real)
      requires RandomOk(rand)
      ensures Valid() && Abs() == Initial(bestStored, rand) && this.rand == rand
    {
      this.rand := rand;
      playing := false;
      index := 0;
      best := bestStored;
      score := 0;
      pipes := [];
      pipeValues := [];
      flight := 0.0;
      flyHeight := 0.0;
      stored := bestStored;
      draws := 0;
      new;
      Setup();
    }

    /** A new pipe at x whose gap top is the next value of the random
        source mapped by PipeLoc. */
    method NewPipe(x: real) returns (p: Pipe)
      requires RandomOk(rand)
      modifies this`draws
      ensures fresh(p) && PipeV(p.x, p.gapTop) == Spawn(rand, old(draws), x)
      ensures draws == old(draws) + 1
    {
      p := new Pipe(x, PipeLoc(rand(draws)));
      draws := draws + 1;
    }

    /** The three pipes of a new run, `canvas.width + i * (pipeGap +
        pipeWidth)` apart, as fresh objects. */
    method SpawnPipes()
      requires RandomOk(rand)
      modifies this`pipes, this`pipeValues, this`draws
      ensures pipeValues == [Spawn(rand, old(draws), Width),
                             Spawn(rand, old(draws) + 1, Width + Spacing),
                             Spawn(rand, old(draws) + 2, Width + 2.0 * Spacing)]
      ensures draws == old(draws) + 3
      ensures Mirrors(pipes, pipeValues) && Distinct(pipes)
      ensures forall k :: 0 <= k < |pipes| ==> fresh(pipes[k])
    {
      var p0 := NewPipe(Width);
      var p1 := NewPipe(Width + Spacing);
      var p2 := NewPipe(Width + 2.0 * Spacing);
      pipes := [p0, p1, p2];
      pipeValues := [PipeV(p0.x, p0.gapTop), PipeV(p1.x, p1.gapTop), PipeV(p2.x, p2.gapTop)];
    }

    method Setup()
      requires RandomOk(rand) && stored <= best
      modifies this
      ensures Valid() && Abs() == FlappyModel.Setup(old(Abs()), rand)
      ensures forall k :: 0 <= k < |pipes| ==> fresh(pipes[k])
    {
      score := 0;
      flight := Jump;
      flyHeight := Height / 2.0 - BirdHeight / 2.0;
      SpawnPipes();
      SetupEffect(old(Abs()), rand);
    }

    /** A pipe has been passed: score, and recycle the first pipe. The two
        surviving pipe objects are kept; the new one is fresh. */
    method HandleScore()
      requires Valid()
      modifies this
      ensures Valid() && Abs() == Score(old(Abs()), rand)
      ensures pipes[..2] == old(pipes)[1..] && fresh(pipes[2])
    {
      score := score + 1;
      best := Max(best, score);
      ShiftPipes();
      // pipes.push() with no argument appends nothing.
      ScoreEffect(old(Abs()), rand);
    }

    /** Drops the first pipe and appends a fresh one a pipe spacing behind
        the last. */
    method ShiftPipes()
      requires |pipes| == 3 && Mirrors(pipes, pipeValues) && Distinct(pipes) && RandomOk(rand)
      modifies this`pipes, this`pipeValues, this`draws
      ensures |pipes| == 3 && pipes[..2] == old(pipes)[1..] && fresh(pipes[2])
      ensures pipeValues == old(pipeValues)[1..] + [Spawn(rand, old(draws), old(pipeValues)[2].x + Spacing)]
      ensures draws == old(draws) + 1
      ensures Mirrors(pipes, pipeValues) && Distinct(pipes)
    {
      var last := pipes[|pipes| - 1];
      var p := NewPipe(last.x + PipeGap + PipeWidth);
      pipes := pipes[1..] + [p];
      pipeValues := pipeValues[1..] + [PipeV(p.x, p.gapTop)];
    }

    method HandleLose()
      requires Valid()
      modifies this
      ensures Valid() && Abs() == Lose(old(Abs()), rand)
      ensures forall k :: 0 <= k < |pipes| ==> fresh(pipes[k])
    {
      playing := false;
      stored := best;
      Setup();
    }

    /** A click: start playing and kick the bird upwards. */
    method OnClick()
      requires Valid()
      modifies this`playing, this`flight
      ensures Valid() && Abs() == Click(old(Abs()))
    {
      playing := true;
      flight := Jump;
    }

    /** Bird physics of one playing frame. */
    method FlyStep()
      requires Valid()
      modifies this`flight, this`flyHeight
      ensures Valid() && Abs() == Fly(old(Abs()))
    {
      flight := flight + Gravity;
      flyHeight := Min(flyHeight + flight, Height - BirdHeight);
    }

    /** Where the snapshot's pipes from number i on sit in the live list:
        while attached, snapshot pipe j is live pipe j - drop; once a loss
        has replaced the list, none of them is live any more. */
    ghost predicate Tracks(snapshot: seq<Pipe>, i: nat, drop: nat, attached: bool)
      reads this
    {
      if attached then
        drop <= i && |snapshot| <= |pipes| + drop &&
        forall j :: i <= j < |snapshot| ==> pipes[j - drop] == snapshot[j]
      else
        forall j :: i <= j < |snapshot| ==> snapshot[j] !in pipes
    }

    /** `pipe[0] -= speed` for snapshot pipe number i, with the ghost list
        of values kept in step when the pipe is still live. */
    method MovePipe(pipe: Pipe, ghost snapshot: seq<Pipe>, i: nat, ghost drop: nat, ghost attached: bool)
      requires Valid() && i < |snapshot| && snapshot[i] == pipe && Tracks(snapshot, i, drop, attached)
      modifies this`pipeValues, pipe
      ensures Valid() && pipes == old(pipes)
      ensures pipe.x == old(pipe.x) - Speed && pipe.gapTop == old(pipe.gapTop)
      ensures Walk(Abs(), drop, attached) == Place(Walk(old(Abs()), drop, attached), i, PipeV(pipe.x, pipe.gapTop))
    {
      pipe.x := pipe.x - Speed;
      if attached {
        pipeValues := pipeValues[i - drop := PipeV(pipe.x, pipe.gapTop)];
      }
    }

    /** Scores when the moved pipe is off screen. While attached, the
        snapshot's later pipes move one place to the front of the list. */
    method ScoreIfPassed(pipe: Pipe, ghost snapshot: seq<Pipe>, i: nat, ghost drop: nat, ghost attached: bool)
        returns (ghost drop': nat)
      requires Valid() && i < |snapshot| && Tracks(snapshot, i + 1, drop, attached)
      requires attached ==> drop <= i
      modifies this
      ensures Valid()
      ensures Walk(Abs(), drop', attached) == ScoreIf(Walk(old(Abs()), drop, attached), PipeV(pipe.x, pipe.gapTop), rand)
      ensures Tracks(snapshot, i + 1, drop', attached)
    {
      drop' := drop;
      if pipe.x <= -PipeWidth {
        ghost var live := pipes;
        HandleScore();
        if attached {
          drop' := drop + 1;
          forall j | i + 1 <= j < |snapshot|
            ensures pipes[j - drop'] == snapshot[j]
          {
            assert pipes[j - drop'] == pipes[..2][j - drop'] == live[1..][j - drop'];
          }
        } else {
          forall j | i + 1 <= j < |snapshot|
            ensures snapshot[j] !in pipes
          {
            assert snapshot[j] !in pipes[..2];
          }
        }
      }
    }

    /** Loses when the moved pipe hits the bird; the new run's pipes are all
        fresh, so none of the snapshot's pipes is live any more. */
    method LoseIfHit(pipe: Pipe, ghost snapshot: seq<Pipe>, i: nat, ghost drop: nat, ghost attached: bool)
        returns (ghost attached': bool)
      requires Valid() && Tracks(snapshot, i + 1, drop, attached)
      modifies this
      ensures Valid()
      ensures Walk(Abs(), drop, attached') == LoseIf(Walk(old(Abs()), drop, attached), PipeV(pipe.x, pipe.gapTop), rand)
      ensures Tracks(snapshot, i + 1, drop, attached')
    {
      attached' := attached;
      if Collides(pipe.x, pipe.gapTop, flyHeight) {
        HandleLose();
        attached' := false;
      }
    }

    /** The body of the frame loop for pipe number i of the snapshot, whose
        value when the frame began is start[i]: move it, score if it left
        the screen, lose if it hits the bird. The walk state (drop,
        attached) is ghost bookkeeping for where the snapshot sits in the
        live list. */
    method VisitPipe(snapshot: seq<Pipe>, i: nat, ghost start: seq<PipeV>, ghost w0: Walk,
                     ghost drop: nat, ghost attached: bool)
        returns (ghost drop': nat, ghost attached': bool)
      requires Valid() && i < |snapshot| == |start| && Distinct(snapshot) && |w0.m.pipes| == 3
      requires Walk(Abs(), drop, attached) == WalkTo(w0, start, i, rand)
      requires Mirrors(snapshot[i..], start[i..]) && Tracks(snapshot, i, drop, attached)
      requires Shifted(snapshot, start, i)
      modifies this, snapshot[i]
      ensures Valid()
      ensures Walk(Abs(), drop', attached') == WalkTo(w0, start, i + 1, rand)
      ensures Mirrors(snapshot[i + 1..], start[i + 1..]) && Tracks(snapshot, i + 1, drop', attached')
      ensures Shifted(snapshot, start, i + 1)
    {
      var pipe := snapshot[i];
      assert pipe.x == start[i].x && pipe.gapTop == start[i].gapTop by {
        assert snapshot[i..][0] == pipe;
      }
      MirrorsTail(snapshot[i..], start[i..]);
      assert snapshot[i..][1..] == snapshot[i + 1..] && start[i..][1..] == start[i + 1..];
      assert pipe !in snapshot[i + 1..];
      ghost var w := Walk(Abs(), drop, attached);
      assert Current(w, start[i], i) == start[i];
      MovePipe(pipe, snapshot, i, drop, attached);
      assert PipeV(pipe.x, pipe.gapTop) == Moved(start[i]);
      drop' := ScoreIfPassed(pipe, snapshot, i, drop, attached);
      attached' := LoseIfHit(pipe, snapshot, i, drop', attached);
    }

    /** `index++` at the start of a frame. */
    method CountFrameStep()
      requires Valid()
      modifies this`index
      ensures Valid() && Abs() == CountFrame(old(Abs()))
    {
      index := index + 1;
    }

    /** The pipe loop of a playing frame. It walks the list that existed
        when it began, even when a score or a loss replaces the live list,
        and moves each pipe object of that list 6.2 to the left. */
    method MovePipes()
      requires Valid()
      modifies this, pipes
      ensures Valid() && Abs() == PipeWalk(old(Abs()), rand)
      ensures Shifted(old(pipes), old(pipeValues), |old(pipes)|)
    {
      var snapshot := pipes;
      ghost var w0 := Walk(Abs(), 0, true);
      ghost var start := pipeValues;
      ghost var drop: nat := 0;
      ghost var attached := true;
      var i := 0;
      while i < |snapshot|
        invariant 0 <= i <= |snapshot| == |start| == 3 && snapshot == old(pipes)
        invariant Valid() && Distinct(snapshot) && |w0.m.pipes| == 3
        invariant Walk(Abs(), drop, attached) == WalkTo(w0, start, i, rand)
        invariant Mirrors(snapshot[i..], start[i..]) && Tracks(snapshot, i, drop, attached)
        invariant Shifted(snapshot, start, i)
      {
        drop, attached := VisitPipe(snapshot, i, start, w0, drop, attached);
        i := i + 1;
      }
    }

    /** One animation frame: count it, then, while playing, the bird's
        physics and the pipe loop. */
    method Render()
      requires Valid()
      modifies this, pipes
      ensures Valid() && Abs() == Frame(old(Abs()), rand)
    {
      CountFrameStep();
      if playing {
        FlyStep();
      }
      if playing {
        MovePipes();
      }
    }
  }
}
