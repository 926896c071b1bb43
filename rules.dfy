/**
 * The discrete game rules of Coconut Volley, as values.
 *
 * The physics engine is opaque: each frame it hands the game the new ball
 * state, the birds' velocities and the list of contact pairs it detected.
 * Everything the game itself decides (collision responses, key handling,
 * jumping, movement, animation choice, ball damping, frame bookkeeping) is
 * a pure function here. The classes in module Game are proved to follow
 * these functions, and module Properties proves what they guarantee.
 */
module Rules {

  // Court and tuning constants (code/main.py)
  const WIDTH: real := 840.0
  const SPAWN_Y: real := 70.0
  const RUN_SPEED: real := 20000.0
  const JUMP_IMPULSE: real := 70000.0
  const BIRD_MASS: real := 100.0
  const BALL_DAMPING: real := 0.97
  const MIN_DT: real := 0.001
  const MAX_DT: real := 0.1
  const INITIAL_DT: real := 0.1
  const RUN_FRAMES: nat := 2
  const ANIMATION_PERIOD: nat := 8

  // Collision category tags given to the shapes at construction
  const PLAYER1: int := 1
  const BALL: int := 2
  const P1_FLOOR: int := 3
  const LEFT_WALL: int := 4
  const RIGHT_WALL: int := 5
  const POLE: int := 6
  const P2_FLOOR: int := 7
  const PLAYER2: int := 8

  datatype Option<T> = None | Some(value: T)

  datatype Vec = Vec(x: real, y: real)

  /** A bird: its movement intents, ground flag, run-animation frame, body
      velocity, and the number of jump impulses applied to it so far. */
  datatype BirdState = BirdState(
    movingLeft: bool,
    movingRight: bool,
    isGrounded: bool,
    runIdx: nat,
    vel: Vec,
    impulses: nat)

  datatype BallState = BallState(pos: Vec, vel: Vec)

  datatype Score = Score(p1: nat, p2: nat)

  /** Everything the main loop and the collision callbacks read and write. */
  datatype World = World(
    p1: BirdState,
    p2: BirdState,
    ball: BallState,
    score: Score,
    frmCnt: nat,
    deltaTime: real,
    running: bool)

  datatype Side = Player1 | Player2

  datatype Sprite = Idle | Airborne | Running(frame: nat)

  /** The ten collision callbacks. */
  datatype Handler =
    | P1Ground | P1Score | P1Pole | P1LeftWall | P1Ball
    | P2Ground | P2Score | P2Pole | P2RightWall | P2Ball

  datatype Contact = Contact(a: int, b: int)

  datatype Key = D | A | W | Right | Left | Up | OtherKey

  datatype Event = Quit | KeyDown(key: Key) | KeyUp(key: Key) | OtherEvent

  /** What the physics engine produced during one step, before callbacks. */
  datatype Motion = Motion(ball: BallState, p1Vel: Vec, p2Vel: Vec)

  /** One iteration of the main loop: the queued input events, the
      milliseconds the frame clock reported, and the physics step's result. */
  datatype FrameInput = FrameInput(
    events: seq<Event>,
    tickMs: nat,
    motion: Motion,
    contacts: seq<Contact>)

  // ---------------------------------------------------------------------
  // Initial state

  const INITIAL_BIRD: BirdState :=
    BirdState(false, false, true, 0, Vec(0.0, 0.0), 0)

  const P1_SPAWN: Vec := Vec(WIDTH / 4.0, SPAWN_Y)
  const P2_SPAWN: Vec := Vec(WIDTH * 3.0 / 4.0, SPAWN_Y)
  const REST: Vec := Vec(0.0, 0.0)

  /** What holds of every state the game loop reaches. */
  predicate Inv(w: World) {
    w.p1.runIdx < RUN_FRAMES && w.p2.runIdx < RUN_FRAMES && MIN_DT <= w.deltaTime <= MAX_DT
  }

  /** Scores at 0, birds grounded and still, the loop running. */
  function Initial(): (w: World)
    ensures w.score == Score(0, 0) && w.running && w.frmCnt == 0 && Inv(w)
    ensures w.p1 == w.p2 && w.p1.isGrounded && !w.p1.movingLeft && !w.p1.movingRight
    ensures w.ball == BallState(Vec(210.0, 70.0), Vec(0.0, 0.0)) && w.deltaTime == 0.1
    ensures w.p1.runIdx == 0 && w.p1.impulses == 0 && w.p1.vel == Vec(0.0, 0.0)
  {
    World(INITIAL_BIRD, INITIAL_BIRD, BallState(P1_SPAWN, REST),
          Score(0, 0), 0, INITIAL_DT, true)
  }

  // ---------------------------------------------------------------------
  // Sides

  function BirdOf(w: World, s: Side): BirdState {
    match s
    case Player1 => w.p1
    case Player2 => w.p2
  }

  function WithBird(w: World, s: Side, b: BirdState): World {
    match s
    case Player1 => w.(p1 := b)
    case Player2 => w.(p2 := b)
  }

  function TagOf(s: Side): int {
    match s
    case Player1 => PLAYER1
    case Player2 => PLAYER2
  }

  function OwnFloor(s: Side): int {
    match s
    case Player1 => P1_FLOOR
    case Player2 => P2_FLOOR
  }

  // ---------------------------------------------------------------------
  // Bird behaviour

  function BoolToInt(b: bool): int {
    if b then 1 else 0
  }

  /** The horizontal velocity __Handle_Move gives a bird. */
  function RunVelocity(dt: real, right: bool, left: bool): (vx: real)
    ensures right == left ==> vx == 0.0
    ensures right && !left ==> vx == RUN_SPEED * dt
    ensures left && !right ==> vx == -(RUN_SPEED * dt)
  {
    RUN_SPEED * dt * (BoolToInt(right) - BoolToInt(left)) as real
  }

  /** __Handle_Move: only the horizontal velocity is set. */
  function Move(b: BirdState, dt: real): (r: BirdState)
    ensures r.vel.y == b.vel.y
    ensures r.vel.x == 0.0 <==> b.movingRight == b.movingLeft || dt == 0.0
    ensures r.(vel := b.vel) == b
  {
    b.(vel := Vec(RunVelocity(dt, b.movingRight, b.movingLeft), b.vel.y))
  }

  /** Handle_Jmp: an upward impulse, only from the ground. */
  function Jump(b: BirdState): (r: BirdState)
    ensures !r.isGrounded
    ensures r.impulses == b.impulses + (if b.isGrounded then 1 else 0)
    ensures r.movingLeft == b.movingLeft && r.movingRight == b.movingRight && r.runIdx == b.runIdx
  {
    if b.isGrounded then
      b.(isGrounded := false,
         vel := Vec(b.vel.x, b.vel.y - JUMP_IMPULSE / BIRD_MASS),
         impulses := b.impulses + 1)
    else
      b
  }

  /** The run sprite index advances every ANIMATION_PERIOD-th frame while
      the bird shows the run animation. */
  function AdvanceRun(b: BirdState, frmCnt: nat): (r: BirdState)
    ensures b.runIdx < RUN_FRAMES ==> r.runIdx < RUN_FRAMES
    ensures b.runIdx < RUN_FRAMES ==>
      (r.runIdx != b.runIdx <==> frmCnt % ANIMATION_PERIOD == 0 && b.movingRight != b.movingLeft)
    ensures r.(runIdx := b.runIdx) == b
  {
    if b.movingRight != b.movingLeft && frmCnt % ANIMATION_PERIOD == 0 then
      b.(runIdx := (b.runIdx + 1) % RUN_FRAMES)
    else
      b
  }

  /** Run beats airborne beats idle. */
  function SpriteOf(b: BirdState): (sprite: Sprite)
    ensures sprite.Running? <==> b.movingRight != b.movingLeft
    ensures sprite == Airborne <==> b.movingRight == b.movingLeft && !b.isGrounded
    ensures sprite == Idle <==> b.movingRight == b.movingLeft && b.isGrounded
    ensures sprite.Running? ==> sprite.frame == b.runIdx
  {
    if b.movingRight != b.movingLeft then Running(b.runIdx)
    else if !b.isGrounded then Airborne
    else Idle
  }

  /** Bird.Display: animation first, then movement. */
  function DisplayBird(b: BirdState, frmCnt: nat, dt: real): (r: BirdState)
    ensures r.(runIdx := b.runIdx, vel := b.vel) == b
    ensures r.runIdx == AdvanceRun(b, frmCnt).runIdx
    ensures r.vel == Vec(RunVelocity(dt, b.movingRight, b.movingLeft), b.vel.y)
    ensures b.runIdx < RUN_FRAMES ==> r.runIdx < RUN_FRAMES
  {
    Move(AdvanceRun(b, frmCnt), dt)
  }

  // ---------------------------------------------------------------------
  // Ball and frame clock

  /** Ball.Display: vertical velocity damped, nothing else touched. */
  function Damp(ball: BallState): (r: BallState)
    ensures r.pos == ball.pos && r.vel.x == ball.vel.x
    ensures r.vel.y == 0.0 <==> ball.vel.y == 0.0
    ensures (r.vel.y < 0.0) == (ball.vel.y < 0.0)
  {
    ball.(vel := Vec(ball.vel.x, ball.vel.y * BALL_DAMPING))
  }

  /** The frame delta is kept within [MIN_DT, MAX_DT]. */
  function ClampDeltaTime(raw: real): (dt: real)
    ensures MIN_DT <= dt <= MAX_DT
    ensures MIN_DT <= raw <= MAX_DT ==> dt == raw
    ensures raw < MIN_DT ==> dt == MIN_DT
    ensures MAX_DT < raw ==> dt == MAX_DT
  {
    var upper := if raw < MAX_DT then raw else MAX_DT;
    if MIN_DT < upper then upper else MIN_DT
  }

  // ---------------------------------------------------------------------
  // Collision dispatch

  predicate IsPair(a: int, b: int, x: int, y: int) {
    (a == x && b == y) || (a == y && b == x)
  }

  /** The registrations, matched on the unordered pair of tags: every
      registered pair involves a bird or the ball, and the goal handlers
      fire only for the ball on a floor. */
  function Lookup(a: int, b: int): (r: Option<Handler>)
    ensures r.Some? ==> a in {PLAYER1, PLAYER2, BALL} || b in {PLAYER1, PLAYER2, BALL}
    ensures r == Some(P1Score) <==> IsPair(a, b, BALL, P2_FLOOR)
    ensures r == Some(P2Score) <==> IsPair(a, b, BALL, P1_FLOOR)
    ensures r == Some(P1Ground) <==> IsPair(a, b, PLAYER1, P1_FLOOR)
    ensures r == Some(P2Ground) <==> IsPair(a, b, PLAYER2, P2_FLOOR)
  {
    if IsPair(a, b, PLAYER1, P1_FLOOR) then Some(P1Ground)
    else if IsPair(a, b, BALL, P2_FLOOR) then Some(P1Score)
    else if IsPair(a, b, PLAYER1, POLE) then Some(P1Pole)
    else if IsPair(a, b, PLAYER1, LEFT_WALL) then Some(P1LeftWall)
    else if IsPair(a, b, PLAYER1, BALL) then Some(P1Ball)
    else if IsPair(a, b, PLAYER2, P2_FLOOR) then Some(P2Ground)
    else if IsPair(a, b, BALL, P1_FLOOR) then Some(P2Score)
    else if IsPair(a, b, PLAYER2, POLE) then Some(P2Pole)
    else if IsPair(a, b, PLAYER2, RIGHT_WALL) then Some(P2RightWall)
    else if IsPair(a, b, PLAYER2, BALL) then Some(P2Ball)
    else None
  }

  /** A callback touches neither the loop state, nor the animation, nor the
      jump impulses; only the goal callbacks touch the ball and the score. */
  function Apply(w: World, h: Handler): (r: World)
    ensures r.frmCnt == w.frmCnt && r.deltaTime == w.deltaTime && r.running == w.running
    ensures r.p1.runIdx == w.p1.runIdx && r.p2.runIdx == w.p2.runIdx
    ensures r.p1.impulses == w.p1.impulses && r.p2.impulses == w.p2.impulses
    ensures r.p1.vel == w.p1.vel && r.p2.vel == w.p2.vel
    ensures !(h.P1Score? || h.P2Score?) ==> r.ball == w.ball && r.score == w.score
  {
    match h
    case P1Ground => w.(p1 := w.p1.(isGrounded := true))
    case P1Score =>
      w.(ball := BallState(P2_SPAWN, REST), score := w.score.(p1 := w.score.p1 + 1))
    case P1Pole => w.(p1 := w.p1.(movingRight := false))
    case P1LeftWall => w.(p1 := w.p1.(movingLeft := false))
    case P1Ball => w
    case P2Ground => w.(p2 := w.p2.(isGrounded := true))
    case P2Score =>
      w.(ball := BallState(P1_SPAWN, REST), score := w.score.(p2 := w.score.p2 + 1))
    case P2Pole => w.(p2 := w.p2.(movingLeft := false))
    case P2RightWall => w.(p2 := w.p2.(movingRight := false))
    case P2Ball => w
  }

  function OnContact(w: World, c: Contact): (r: World)
    ensures r.frmCnt == w.frmCnt && r.deltaTime == w.deltaTime && r.running == w.running
    ensures r.p1.runIdx == w.p1.runIdx && r.p2.runIdx == w.p2.runIdx
    ensures r.p1.impulses == w.p1.impulses && r.p2.impulses == w.p2.impulses
  {
    match Lookup(c.a, c.b)
    case None => w
    case Some(h) => Apply(w, h)
  }

  /** Contacts are handled in the order the engine reports them. */
  function ApplyContacts(w: World, cs: seq<Contact>): (r: World)
    ensures r.frmCnt == w.frmCnt && r.deltaTime == w.deltaTime && r.running == w.running
    ensures r.p1.runIdx == w.p1.runIdx && r.p2.runIdx == w.p2.runIdx
    decreases |cs|
  {
    if cs == [] then w
    else OnContact(ApplyContacts(w, cs[..|cs| - 1]), cs[|cs| - 1])
  }

  // ---------------------------------------------------------------------
  // Input events

  /** A key press changes only the birds' intents and jumps. */
  function OnKeyDown(w: World, k: Key): (r: World)
    ensures r.ball == w.ball && r.score == w.score && r.frmCnt == w.frmCnt
    ensures r.deltaTime == w.deltaTime && r.running == w.running
    ensures r.p1.runIdx == w.p1.runIdx && r.p2.runIdx == w.p2.runIdx
    ensures k != W ==> r.p1.isGrounded == w.p1.isGrounded && r.p1.vel == w.p1.vel
    ensures k != Up ==> r.p2.isGrounded == w.p2.isGrounded && r.p2.vel == w.p2.vel
  {
    match k
    case D => w.(p1 := w.p1.(movingRight := true))
    case A => w.(p1 := w.p1.(movingLeft := true))
    case W => w.(p1 := Jump(w.p1))
    case Right => w.(p2 := w.p2.(movingRight := true))
    case Left => w.(p2 := w.p2.(movingLeft := true))
    case Up => w.(p2 := Jump(w.p2))
    case OtherKey => w
  }

  /** A key release only clears an intent. */
  function OnKeyUp(w: World, k: Key): (r: World)
    ensures r.ball == w.ball && r.score == w.score && r.frmCnt == w.frmCnt
    ensures r.deltaTime == w.deltaTime && r.running == w.running
    ensures r.p1 == w.p1.(movingLeft := r.p1.movingLeft, movingRight := r.p1.movingRight)
    ensures r.p2 == w.p2.(movingLeft := r.p2.movingLeft, movingRight := r.p2.movingRight)
    ensures !r.p1.movingLeft || w.p1.movingLeft
    ensures !r.p1.movingRight || w.p1.movingRight
    ensures !r.p2.movingLeft || w.p2.movingLeft
    ensures !r.p2.movingRight || w.p2.movingRight
    ensures r == w || r == w.(p1 := w.p1.(movingLeft := false)) || r == w.(p1 := w.p1.(movingRight := false))
                   || r == w.(p2 := w.p2.(movingLeft := false)) || r == w.(p2 := w.p2.(movingRight := false))
  {
    match k
    case D => w.(p1 := w.p1.(movingRight := false))
    case A => w.(p1 := w.p1.(movingLeft := false))
    case Right => w.(p2 := w.p2.(movingRight := false))
    case Left => w.(p2 := w.p2.(movingLeft := false))
    case _ => w
  }

  /** Only QUIT stops the loop, and no event touches the ball or score. */
  function OnEvent(w: World, e: Event): (r: World)
    ensures r.ball == w.ball && r.score == w.score && r.frmCnt == w.frmCnt
    ensures r.deltaTime == w.deltaTime
    ensures r.running == (w.running && !e.Quit?)
    ensures r.p1.runIdx == w.p1.runIdx && r.p2.runIdx == w.p2.runIdx
  {
    match e
    case Quit => w.(running := false)
    case KeyDown(k) => OnKeyDown(w, k)
    case KeyUp(k) => OnKeyUp(w, k)
    case OtherEvent => w
  }

  /** Events are handled in the order the event queue delivers them. */
  function ApplyEvents(w: World, es: seq<Event>): (r: World)
    ensures r.ball == w.ball && r.score == w.score && r.frmCnt == w.frmCnt
    ensures r.deltaTime == w.deltaTime
    ensures r.running == (w.running && Quit !in es)
    ensures r.p1.runIdx == w.p1.runIdx && r.p2.runIdx == w.p2.runIdx
    decreases |es|
  {
    if es == [] then w
    else OnEvent(ApplyEvents(w, es[..|es| - 1]), es[|es| - 1])
  }

  // ---------------------------------------------------------------------
  // One frame and the main loop

  /** Ball.Display then p1.Display then p2.Display, after frm_cnt moved on. */
  function DisplayAll(w: World): (r: World)
    ensures r.score == w.score && r.frmCnt == w.frmCnt && r.deltaTime == w.deltaTime
    ensures r.running == w.running && r.ball.pos == w.ball.pos
    ensures r.ball.vel == Vec(w.ball.vel.x, w.ball.vel.y * 0.97)
    ensures r.p1.(runIdx := w.p1.runIdx, vel := w.p1.vel) == w.p1
    ensures r.p2.(runIdx := w.p2.runIdx, vel := w.p2.vel) == w.p2
    ensures Inv(w) ==> Inv(r)
  {
    w.(ball := Damp(w.ball),
       p1 := DisplayBird(w.p1, w.frmCnt, w.deltaTime),
       p2 := DisplayBird(w.p2, w.frmCnt, w.deltaTime))
  }

  /** The engine's step overwrites the ball and the birds' velocities. */
  function Integrate(w: World, m: Motion): World {
    w.(ball := m.ball, p1 := w.p1.(vel := m.p1Vel), p2 := w.p2.(vel := m.p2Vel))
  }

  function TickSeconds(tickMs: nat): (seconds: real)
    ensures seconds >= 0.0 && seconds * 1000.0 == tickMs as real
  {
    tickMs as real / 1000.0
  }

  /** One iteration of the loop body: the frame count goes up by one, the
      delta is the clamped clock reading, and the loop stops after it
      exactly when a QUIT was among its events. */
  function Frame(w: World, f: FrameInput): (r: World)
    ensures r.frmCnt == w.frmCnt + 1
    ensures r.deltaTime == ClampDeltaTime(TickSeconds(f.tickMs))
    ensures r.running == (w.running && Quit !in f.events)
    ensures Inv(w) ==> Inv(r)
  {
    var shown := DisplayAll(w.(frmCnt := w.frmCnt + 1));
    var handled := ApplyEvents(shown, f.events);
    var timed := handled.(deltaTime := ClampDeltaTime(TickSeconds(f.tickMs)));
    ApplyContacts(Integrate(timed, f.motion), f.contacts)
  }

  /** The sprites drawn for the two birds in the frame played from w. */
  function FrameSprites(w: World): (r: (Sprite, Sprite))
    ensures r.0.Running? <==> w.p1.movingRight != w.p1.movingLeft
    ensures r.1.Running? <==> w.p2.movingRight != w.p2.movingLeft
    ensures r.0 == Airborne <==> w.p1.movingRight == w.p1.movingLeft && !w.p1.isGrounded
    ensures r.1 == Airborne <==> w.p2.movingRight == w.p2.movingLeft && !w.p2.isGrounded
    ensures Inv(w) && r.0.Running? ==> r.0.frame < RUN_FRAMES
    ensures Inv(w) && r.1.Running? ==> r.1.frame < RUN_FRAMES
  {
    (SpriteOf(AdvanceRun(w.p1, w.frmCnt + 1)), SpriteOf(AdvanceRun(w.p2, w.frmCnt + 1)))
  }

  /** `while running`: frames are played until one of them saw a quit. */
  function Run(w: World, fs: seq<FrameInput>): (r: World)
    ensures w.frmCnt <= r.frmCnt <= w.frmCnt + |fs|
    ensures !w.running ==> r == w
    ensures Inv(w) ==> Inv(r)
    decreases |fs|
  {
    if fs == [] || !w.running then w else Run(Frame(w, fs[0]), fs[1..])
  }
}
