/**
 * The game objects as the program keeps them: objects whose fields the
 * collision callbacks, key handlers and the main loop update in place.
 * Every method is proved to move the objects exactly as the corresponding
 * function of module Rules moves the world, so the lemmas of module
 * Properties apply to them.
 */
module Game {
  import opened Rules

  /** Two counters that only ever go up by one. */
  class ScoreBoard {
    var p1: nat
    var p2: nat

    function State(): Score
      reads this
    {
      Score(p1, p2)
    }

    constructor ()
      ensures p1 == 0 && p2 == 0
    {
      p1, p2 := 0, 0;
    }

    method IncP1()
      modifies this
      ensures p1 == old(p1) + 1 && p2 == old(p2)
    {
      p1 := p1 + 1;
    }

    method IncP2()
      modifies this
      ensures p2 == old(p2) + 1 && p1 == old(p1)
    {
      p2 := p2 + 1;
    }
  }

  /** The volleyball: the position and velocity of its body. */
  class Ball {
    var x: real
    var y: real
    var vx: real
    var vy: real

    function State(): BallState
      reads this
    {
      BallState(Vec(x, y), Vec(vx, vy))
    }

    constructor (x0: real, y0: real)
      ensures State() == BallState(Vec(x0, y0), REST)
    {
      x, y := x0, y0;
      vx, vy := 0.0, 0.0;
    }

    /** Displaying the ball damps its vertical velocity. */
    method Display()
      modifies this
      ensures State() == Damp(old(State()))
    {
      vy := vy * BALL_DAMPING;
    }

    method Place(pos: Vec, vel: Vec)
      modifies this
      ensures State() == BallState(pos, vel)
    {
      x, y := pos.x, pos.y;
      vx, vy := vel.x, vel.y;
    }
  }

  /** A player: movement intents, ground flag, run-animation frame and the
      velocity of its body. `impulses` counts the jump impulses applied. */
  class Bird {
    var movingLeft: bool
    var movingRight: bool
    var isGrounded: bool
    var runIdx: nat
    var vx: real
    var vy: real
    ghost var impulses: nat

    ghost function State(): BirdState
      reads this
    {
      BirdState(movingLeft, movingRight, isGrounded, runIdx, Vec(vx, vy), impulses)
    }

    constructor ()
      ensures State() == INITIAL_BIRD
    {
      movingLeft, movingRight := false, false;
      isGrounded := true;
      runIdx := 0;
      vx, vy := 0.0, 0.0;
      impulses := 0;
    }

    /** Picks the sprite to draw, advancing the run animation on every
        eighth frame while exactly one intent is set. */
    method HandleAnimations(frmCnt: nat) returns (sprite: Sprite)
      modifies this
      ensures State() == AdvanceRun(old(State()), frmCnt)
      ensures sprite == SpriteOf(State())
    {
      if movingRight != movingLeft {
        if frmCnt % ANIMATION_PERIOD == 0 {
          runIdx := (runIdx + 1) % RUN_FRAMES;
        }
        sprite := Running(runIdx);
      } else if !isGrounded {
        sprite := Airborne;
      } else {
        sprite := Idle;
      }
    }

    /** Sets the horizontal velocity from the intents; keeps the vertical. */
    method HandleMove(deltaTime: real)
      modifies this
      ensures State() == Move(old(State()), deltaTime)
    {
      vx := RUN_SPEED * deltaTime * (BoolToInt(movingRight) - BoolToInt(movingLeft)) as real;
    }

    /** Jumps only from the ground. */
    method HandleJmp()
      modifies this
      ensures State() == Jump(old(State()))
    {
      if isGrounded {
        isGrounded := false;
        vy := vy - JUMP_IMPULSE / BIRD_MASS;
        impulses := impulses + 1;
      }
    }

    method Display(frmCnt: nat, deltaTime: real) returns (sprite: Sprite)
      modifies this
      ensures State() == DisplayBird(old(State()), frmCnt, deltaTime)
      ensures sprite == SpriteOf(AdvanceRun(old(State()), frmCnt))
    {
      sprite := HandleAnimations(frmCnt);
      HandleMove(deltaTime);
    }
  }

  /** The game: both birds, the ball, the score board and the loop state. */
  class Game {
    const p1: Bird
    const p2: Bird
    const ball: Ball
    const scoreBoard: ScoreBoard
    var frmCnt: nat
    var deltaTime: real
    var running: bool

    ghost function State(): World
      reads this, p1, p2, ball, scoreBoard
    {
      World(p1.State(), p2.State(), ball.State(), scoreBoard.State(), frmCnt, deltaTime, running)
    }

    ghost predicate Valid()
      reads this, p1, p2, ball, scoreBoard
    {
      p1 != p2 && Inv(State())
    }

    constructor ()
      ensures Valid() && State() == Initial()
      ensures fresh(p1) && fresh(p2) && fresh(ball) && fresh(scoreBoard)
    {
      ball := new Ball(WIDTH / 4.0, SPAWN_Y);
      p1 := new Bird();
      p2 := new Bird();
      scoreBoard := new ScoreBoard();
      frmCnt := 0;
      deltaTime := INITIAL_DT;
      running := true;
    }

    /** The body of one collision callback. */
    method Respond(h: Handler)
      requires Valid()
      modifies p1, p2, ball, scoreBoard
      ensures Valid() && State() == Apply(old(State()), h)
    {
      match h
      case P1Ground => p1.isGrounded := true;
      case P1Score =>
        ball.Place(P2_SPAWN, REST);
        scoreBoard.IncP1();
      case P1Pole => p1.movingRight := false;
      case P1LeftWall => p1.movingLeft := false;
      case P1Ball =>
      case P2Ground => p2.isGrounded := true;
      case P2Score =>
        ball.Place(P1_SPAWN, REST);
        scoreBoard.IncP2();
      case P2Pole => p2.movingLeft := false;
      case P2RightWall => p2.movingRight := false;
      case P2Ball =>
    }

    /** Runs the callback registered for the pair, if there is one. */
    method HandleContact(c: Contact)
      requires Valid()
      modifies p1, p2, ball, scoreBoard
      ensures Valid() && State() == OnContact(old(State()), c)
    {
      match Lookup(c.a, c.b)
      case None =>
      case Some(h) => Respond(h);
    }

    /** The physics step: the engine moves the bodies, then the callbacks run
        for the contacts it found, in order. */
    method Step(m: Motion, contacts: seq<Contact>)
      requires Valid()
      modifies p1, p2, ball, scoreBoard
      ensures Valid() && State() == ApplyContacts(Integrate(old(State()), m), contacts)
    {
      ball.Place(m.ball.pos, m.ball.vel);
      p1.vx, p1.vy := m.p1Vel.x, m.p1Vel.y;
      p2.vx, p2.vy := m.p2Vel.x, m.p2Vel.y;
      ghost var moved := State();
      var i := 0;
      while i < |contacts|
        invariant 0 <= i <= |contacts|
        invariant Valid()
        invariant State() == ApplyContacts(moved, contacts[..i])
      {
        assert contacts[..i + 1][..i] == contacts[..i];
        HandleContact(contacts[i]);
        i := i + 1;
      }
      assert contacts[..i] == contacts;
    }

    /** One key or window event. */
    method HandleEvent(e: Event)
      requires Valid()
      modifies this, p1, p2
      ensures Valid() && State() == OnEvent(old(State()), e)
    {
      match e
      case Quit => running := false;
      case KeyDown(k) =>
        match k {
          case D => p1.movingRight := true;
          case A => p1.movingLeft := true;
          case W => p1.HandleJmp();
          case Right => p2.movingRight := true;
          case Left => p2.movingLeft := true;
          case Up => p2.HandleJmp();
          case OtherKey =>
        }
      case KeyUp(k) =>
        match k {
          case D => p1.movingRight := false;
          case A => p1.movingLeft := false;
          case Right => p2.movingRight := false;
          case Left => p2.movingLeft := false;
          case _ =>
        }
      case OtherEvent =>
    }

    /** `for event in pygame.event.get()`: the queued events, in order. */
    method HandleEvents(events: seq<Event>)
      requires Valid()
      modifies this, p1, p2
      ensures Valid() && State() == ApplyEvents(old(State()), events)
    {
      var i := 0;
      while i < |events|
        invariant 0 <= i <= |events|
        invariant Valid()
        invariant State() == ApplyEvents(old(State()), events[..i])
      {
        assert events[..i + 1][..i] == events[..i];
        HandleEvent(events[i]);
        i := i + 1;
      }
      assert events[..i] == events;
    }

    /** The display calls of the loop body: the ball, then each bird. */
    method DisplayObjects() returns (sprite1: Sprite, sprite2: Sprite)
      requires Valid()
      modifies p1, p2, ball
      ensures Valid() && State() == Rules.DisplayAll(old(State()))
      ensures sprite1 == SpriteOf(AdvanceRun(old(p1.State()), frmCnt))
      ensures sprite2 == SpriteOf(AdvanceRun(old(p2.State()), frmCnt))
    {
      ball.Display();
      sprite1 := p1.Display(frmCnt, deltaTime);
      sprite2 := p2.Display(frmCnt, deltaTime);
    }

    /** The event loop of one frame, then the clock reading clamped into
        the new delta. */
    method HandleInput(f: FrameInput)
      requires Valid()
      modifies this, p1, p2
      ensures Valid()
      ensures State() == ApplyEvents(old(State()), f.events).(deltaTime := ClampDeltaTime(TickSeconds(f.tickMs)))
    {
      HandleEvents(f.events);
      deltaTime := ClampDeltaTime(TickSeconds(f.tickMs));
    }

    /** One iteration of the main loop; returns the sprites drawn for the
        two birds. */
    method PlayFrame(f: FrameInput) returns (sprite1: Sprite, sprite2: Sprite)
      requires Valid()
      modifies this, p1, p2, ball, scoreBoard
      ensures Valid() && State() == Frame(old(State()), f)
      ensures (sprite1, sprite2) == FrameSprites(old(State()))
    {
      frmCnt := frmCnt + 1;
      sprite1, sprite2 := DisplayObjects();
      HandleInput(f);
      ghost var timed := State();
      Step(f.motion, f.contacts);
      assert State() == ApplyContacts(Integrate(timed, f.motion), f.contacts);
    }

    /** `while running`: plays the given frames until one of them quits. */
    method Play(frames: seq<FrameInput>)
      requires Valid()
      modifies this, p1, p2, ball, scoreBoard
      ensures Valid() && State() == Run(old(State()), frames)
    {
      var i := 0;
      while running && i < |frames|
        invariant 0 <= i <= |frames|
        invariant Valid()
        invariant Run(State(), frames[i..]) == Run(old(State()), frames)
        decreases |frames| - i
      {
        assert frames[i..][1..] == frames[i + 1..];
        var _, _ := PlayFrame(frames[i]);
        i := i + 1;
      }
    }
  }
}
