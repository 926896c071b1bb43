/**
 * What the game rules guarantee: collision responses, jumping, movement,
 * animation, damping and clamping one call at a time, and then scoring,
 * grounding and the frame invariants over whole frames and whole games.
 */
module Properties {
  import opened Rules

  // ---------------------------------------------------------------------
  // Observers used to state the properties

  /** The number of jumps a bird has made plus the one it may still make.
      Only a contact with its own floor raises it. */
  function JumpCredit(b: BirdState): nat {
    b.impulses + (if b.isGrounded then 1 else 0)
  }

  /** How many of the reported contacts are between tags x and y. */
  function CountPair(cs: seq<Contact>, x: int, y: int): nat
    decreases |cs|
  {
    if cs == [] then 0
    else CountPair(cs[..|cs| - 1], x, y) + (if IsPair(cs[|cs| - 1].a, cs[|cs| - 1].b, x, y) then 1 else 0)
  }

  predicate NoFloorContact(fs: seq<FrameInput>, s: Side) {
    forall i :: 0 <= i < |fs| ==> CountPair(fs[i].contacts, TagOf(s), OwnFloor(s)) == 0
  }

  function Abs(x: real): real {
    if x < 0.0 then -x else x
  }

  function Power(x: real, k: nat): real
    decreases k
  {
    if k == 0 then 1.0 else Power(x, k - 1) * x
  }

  function DampTimes(ball: BallState, k: nat): BallState
    decreases k
  {
    if k == 0 then ball else Damp(DampTimes(ball, k - 1))
  }

  function JumpTimes(b: BirdState, n: nat): BirdState
    decreases n
  {
    if n == 0 then b else Jump(JumpTimes(b, n - 1))
  }

  // ---------------------------------------------------------------------
  // Collision responses

  /** The engine may report a pair in either order. */
  lemma ContactIsSymmetric(w: World, a: int, b: int)
    ensures OnContact(w, Contact(a, b)) == OnContact(w, Contact(b, a))
  {
  }

  /** Ball on player 2's floor: player 1 scores, the ball is served again
      from player 2's half at rest, nothing else changes. */
  lemma GoalForPlayer1(w: World)
    ensures OnContact(w, Contact(BALL, P2_FLOOR))
         == w.(ball := BallState(Vec(630.0, 70.0), Vec(0.0, 0.0)),
               score := Score(w.score.p1 + 1, w.score.p2))
  {
  }

  /** Ball on player 1's floor: player 2 scores, the ball is served again
      from player 1's half at rest, nothing else changes. */
  lemma GoalForPlayer2(w: World)
    ensures OnContact(w, Contact(BALL, P1_FLOOR))
         == w.(ball := BallState(Vec(210.0, 70.0), Vec(0.0, 0.0)),
               score := Score(w.score.p1, w.score.p2 + 1))
  {
  }

  /** A bird on its own floor is grounded, and nothing else changes. */
  lemma FloorContactGrounds(w: World, s: Side)
    ensures OnContact(w, Contact(TagOf(s), OwnFloor(s)))
         == WithBird(w, s, BirdOf(w, s).(isGrounded := true))
  {
  }

  /** The pole and the outer walls each cancel exactly one movement intent:
      the one that pushes the bird into them. */
  lemma PoleAndWallsClearOneFlag(w: World)
    ensures OnContact(w, Contact(PLAYER1, POLE)) == w.(p1 := w.p1.(movingRight := false))
    ensures OnContact(w, Contact(PLAYER1, LEFT_WALL)) == w.(p1 := w.p1.(movingLeft := false))
    ensures OnContact(w, Contact(PLAYER2, POLE)) == w.(p2 := w.p2.(movingLeft := false))
    ensures OnContact(w, Contact(PLAYER2, RIGHT_WALL)) == w.(p2 := w.p2.(movingRight := false))
  {
  }

  /** Hitting the ball only plays a sound. */
  lemma BallHitsChangeNothing(w: World)
    ensures OnContact(w, Contact(PLAYER1, BALL)) == w
    ensures OnContact(w, Contact(PLAYER2, BALL)) == w
  {
  }

  /** A bird does not react to the other half's floor or wall, nor to the
      other bird. */
  lemma OtherSideIsIgnored(w: World)
    ensures OnContact(w, Contact(PLAYER1, P2_FLOOR)) == w
    ensures OnContact(w, Contact(PLAYER1, RIGHT_WALL)) == w
    ensures OnContact(w, Contact(PLAYER2, P1_FLOOR)) == w
    ensures OnContact(w, Contact(PLAYER2, LEFT_WALL)) == w
    ensures OnContact(w, Contact(PLAYER1, PLAYER2)) == w
  {
  }

  /** A contact whose pair of tags is none of the ten registrations has no
      response, whatever the tags are. */
  lemma UnregisteredPairsAreIgnored(w: World, a: int, b: int)
    requires !IsPair(a, b, PLAYER1, P1_FLOOR) && !IsPair(a, b, BALL, P2_FLOOR)
    requires !IsPair(a, b, PLAYER1, POLE) && !IsPair(a, b, PLAYER1, LEFT_WALL)
    requires !IsPair(a, b, PLAYER1, BALL)
    requires !IsPair(a, b, PLAYER2, P2_FLOOR) && !IsPair(a, b, BALL, P1_FLOOR)
    requires !IsPair(a, b, PLAYER2, POLE) && !IsPair(a, b, PLAYER2, RIGHT_WALL)
    requires !IsPair(a, b, PLAYER2, BALL)
    ensures OnContact(w, Contact(a, b)) == w
  {
  }

  /** The ball bouncing off the pole, a wall or another shape tagged as a
      ball has no response beyond the physics. */
  lemma BallBouncesAreIgnored(w: World)
    ensures OnContact(w, Contact(BALL, POLE)) == w
    ensures OnContact(w, Contact(BALL, LEFT_WALL)) == w
    ensures OnContact(w, Contact(BALL, RIGHT_WALL)) == w
    ensures OnContact(w, Contact(BALL, BALL)) == w
  {
  }

  // ---------------------------------------------------------------------
  // Jumping

  /** The jump gate: from the ground, one impulse and the bird is airborne;
      in the air, nothing at all. */
  lemma JumpGate(b: BirdState)
    ensures b.isGrounded ==>
      Jump(b) == b.(isGrounded := false, vel := Vec(b.vel.x, b.vel.y - 700.0),
                    impulses := b.impulses + 1)
    ensures !b.isGrounded ==> Jump(b) == b
  {
  }

  /** Pressing jump n >= 1 times before landing is the same as pressing once. */
  lemma {:induction false} JumpSpamIsOneJump(b: BirdState, n: nat)
    requires n >= 1
    ensures JumpTimes(b, n) == Jump(b)
  {
    if n > 1 {
      JumpSpamIsOneJump(b, n - 1);
    }
  }

  // ---------------------------------------------------------------------
  // Movement, animation, damping, clamping

  /** Swapping the two intents negates the horizontal velocity. */
  lemma RunVelocitySwapped(dt: real, right: bool, left: bool)
    ensures RunVelocity(dt, left, right) == -RunVelocity(dt, right, left)
  {
  }

  /** The horizontal velocity is 20000 times the delta times the difference
      of the two intents. */
  lemma MoveSetsHorizontalOnly(b: BirdState, dt: real)
    ensures Move(b, dt).vel.x == RUN_SPEED * dt * (BoolToInt(b.movingRight) - BoolToInt(b.movingLeft)) as real
  {
  }

  /** Damping never speeds the ball up vertically and leaves the rest. */
  lemma DampingSlowsVertical(ball: BallState)
    ensures Abs(Damp(ball).vel.y) <= Abs(ball.vel.y)
    ensures ball.vel.y != 0.0 ==> Abs(Damp(ball).vel.y) < Abs(ball.vel.y)
    ensures Damp(ball).vel.x == ball.vel.x && Damp(ball).pos == ball.pos
  {
  }

  /** After k displayed frames without physics the vertical velocity has been
      scaled by 0.97^k and nothing else has changed. */
  lemma {:induction false} RepeatedDamping(ball: BallState, k: nat)
    ensures DampTimes(ball, k) == BallState(ball.pos, Vec(ball.vel.x, ball.vel.y * Power(BALL_DAMPING, k)))
  {
    if k > 0 {
      RepeatedDamping(ball, k - 1);
      assert ball.vel.y * Power(BALL_DAMPING, k - 1) * BALL_DAMPING
          == ball.vel.y * Power(BALL_DAMPING, k);
    }
  }

  lemma ClampIsIdempotent(raw: real)
    ensures ClampDeltaTime(ClampDeltaTime(raw)) == ClampDeltaTime(raw)
  {
  }

  // ---------------------------------------------------------------------
  // Key bindings

  /** D and A drive player 1, the right and left arrows player 2; W and the
      up arrow make them jump on a press; a release clears the flag its
      key set; every other key does nothing. */
  lemma KeyBindings(w: World)
    ensures OnEvent(w, KeyDown(D)) == w.(p1 := w.p1.(movingRight := true))
    ensures OnEvent(w, KeyDown(A)) == w.(p1 := w.p1.(movingLeft := true))
    ensures OnEvent(w, KeyDown(W)) == w.(p1 := Jump(w.p1))
    ensures OnEvent(w, KeyDown(Right)) == w.(p2 := w.p2.(movingRight := true))
    ensures OnEvent(w, KeyDown(Left)) == w.(p2 := w.p2.(movingLeft := true))
    ensures OnEvent(w, KeyDown(Up)) == w.(p2 := Jump(w.p2))
    ensures OnEvent(w, KeyDown(OtherKey)) == w
    ensures OnEvent(w, KeyUp(D)) == w.(p1 := w.p1.(movingRight := false))
    ensures OnEvent(w, KeyUp(A)) == w.(p1 := w.p1.(movingLeft := false))
    ensures OnEvent(w, KeyUp(Right)) == w.(p2 := w.p2.(movingRight := false))
    ensures OnEvent(w, KeyUp(Left)) == w.(p2 := w.p2.(movingLeft := false))
    ensures OnEvent(w, KeyUp(W)) == w && OnEvent(w, KeyUp(Up)) == w
    ensures OnEvent(w, KeyUp(OtherKey)) == w
    ensures OnEvent(w, Quit) == w.(running := false) && OnEvent(w, OtherEvent) == w
  {
  }

  // ---------------------------------------------------------------------
  // Pieces of a frame

  /** Key events keep every bird's jump credit, never take back an impulse,
      and touch neither the score nor the animation. */
  lemma EventKeeps(w: World, e: Event, s: Side)
    ensures JumpCredit(BirdOf(OnEvent(w, e), s)) == JumpCredit(BirdOf(w, s))
    ensures BirdOf(w, s).impulses <= BirdOf(OnEvent(w, e), s).impulses
    ensures BirdOf(OnEvent(w, e), s).runIdx == BirdOf(w, s).runIdx
    ensures OnEvent(w, e).score == w.score && OnEvent(w, e).frmCnt == w.frmCnt
  {
  }

  lemma {:induction false} EventsKeep(w: World, es: seq<Event>, s: Side)
    ensures JumpCredit(BirdOf(ApplyEvents(w, es), s)) == JumpCredit(BirdOf(w, s))
    ensures BirdOf(w, s).impulses <= BirdOf(ApplyEvents(w, es), s).impulses
    ensures BirdOf(ApplyEvents(w, es), s).runIdx == BirdOf(w, s).runIdx
    ensures ApplyEvents(w, es).score == w.score && ApplyEvents(w, es).frmCnt == w.frmCnt
    decreases |es|
  {
    if es != [] {
      EventsKeep(w, es[..|es| - 1], s);
      EventKeeps(ApplyEvents(w, es[..|es| - 1]), es[|es| - 1], s);
    }
  }

  /** A contact leaves a bird's impulses and animation alone; only a contact
      with its own floor can raise its jump credit, by grounding it. */
  lemma ContactKeeps(w: World, c: Contact, s: Side)
    ensures JumpCredit(BirdOf(w, s)) <= JumpCredit(BirdOf(OnContact(w, c), s))
    ensures !IsPair(c.a, c.b, TagOf(s), OwnFloor(s)) ==>
      JumpCredit(BirdOf(OnContact(w, c), s)) == JumpCredit(BirdOf(w, s))
    ensures BirdOf(OnContact(w, c), s).impulses == BirdOf(w, s).impulses
    ensures BirdOf(OnContact(w, c), s).runIdx == BirdOf(w, s).runIdx
    ensures OnContact(w, c).deltaTime == w.deltaTime && OnContact(w, c).frmCnt == w.frmCnt
  {
  }

  lemma {:induction false} ContactsKeep(w: World, cs: seq<Contact>, s: Side)
    ensures JumpCredit(BirdOf(w, s)) <= JumpCredit(BirdOf(ApplyContacts(w, cs), s))
    ensures CountPair(cs, TagOf(s), OwnFloor(s)) == 0 ==>
      JumpCredit(BirdOf(ApplyContacts(w, cs), s)) == JumpCredit(BirdOf(w, s))
    ensures BirdOf(ApplyContacts(w, cs), s).impulses == BirdOf(w, s).impulses
    ensures BirdOf(ApplyContacts(w, cs), s).runIdx == BirdOf(w, s).runIdx
    ensures ApplyContacts(w, cs).deltaTime == w.deltaTime && ApplyContacts(w, cs).frmCnt == w.frmCnt
    decreases |cs|
  {
    if cs != [] {
      var init := cs[..|cs| - 1];
      ContactsKeep(w, init, s);
      ContactKeeps(ApplyContacts(w, init), cs[|cs| - 1], s);
    }
  }

  /** Every goal contact scores exactly one point for the right player. */
  lemma {:induction false} ContactsScore(w: World, cs: seq<Contact>)
    ensures ApplyContacts(w, cs).score
         == Score(w.score.p1 + CountPair(cs, BALL, P2_FLOOR), w.score.p2 + CountPair(cs, BALL, P1_FLOOR))
    decreases |cs|
  {
    if cs != [] {
      ContactsScore(w, cs[..|cs| - 1]);
    }
  }

  // ---------------------------------------------------------------------
  // One frame

  /** In a frame each player's score rises by the number of goal contacts
      on the opponent's floor, and in no other way. */
  lemma FrameScore(w: World, f: FrameInput)
    ensures Frame(w, f).score
         == Score(w.score.p1 + CountPair(f.contacts, BALL, P2_FLOOR),
                  w.score.p2 + CountPair(f.contacts, BALL, P1_FLOOR))
  {
    var shown := DisplayAll(w.(frmCnt := w.frmCnt + 1));
    EventsKeep(shown, f.events, Player1);
    var timed := ApplyEvents(shown, f.events).(deltaTime := ClampDeltaTime(TickSeconds(f.tickMs)));
    ContactsScore(Integrate(timed, f.motion), f.contacts);
  }

  /** A frame never lowers a bird's jump credit nor its impulse count, and
      without a contact on its own floor it keeps the credit exactly. */
  lemma FrameJumpCredit(w: World, f: FrameInput, s: Side)
    ensures JumpCredit(BirdOf(w, s)) <= JumpCredit(BirdOf(Frame(w, f), s))
    ensures CountPair(f.contacts, TagOf(s), OwnFloor(s)) == 0 ==>
      JumpCredit(BirdOf(Frame(w, f), s)) == JumpCredit(BirdOf(w, s))
    ensures BirdOf(w, s).impulses <= BirdOf(Frame(w, f), s).impulses
  {
    var shown := DisplayAll(w.(frmCnt := w.frmCnt + 1));
    EventsKeep(shown, f.events, s);
    var timed := ApplyEvents(shown, f.events).(deltaTime := ClampDeltaTime(TickSeconds(f.tickMs)));
    ContactsKeep(Integrate(timed, f.motion), f.contacts, s);
  }

  /** A bird loses its ground only by jumping: if it was grounded before a
      frame and is not after, an impulse was applied during the frame. */
  lemma FrameUngroundsOnlyByJump(w: World, f: FrameInput, s: Side)
    requires BirdOf(w, s).isGrounded && !BirdOf(Frame(w, f), s).isGrounded
    ensures BirdOf(w, s).impulses < BirdOf(Frame(w, f), s).impulses
  {
    FrameJumpCredit(w, f, s);
  }

  /** The run index changes exactly on every eighth frame for a bird that
      was showing the run animation; the delta time is clamped into range. */
  lemma FrameKeepsInv(w: World, f: FrameInput)
    requires Inv(w)
    ensures Inv(Frame(w, f))
    ensures Frame(w, f).frmCnt == w.frmCnt + 1
    ensures MIN_DT <= TickSeconds(f.tickMs) <= MAX_DT ==> Frame(w, f).deltaTime == TickSeconds(f.tickMs)
    ensures forall s :: BirdOf(Frame(w, f), s).runIdx != BirdOf(w, s).runIdx <==>
      (w.frmCnt + 1) % ANIMATION_PERIOD == 0 && SpriteOf(BirdOf(w, s)).Running?
  {
    var shown := DisplayAll(w.(frmCnt := w.frmCnt + 1));
    var timed := ApplyEvents(shown, f.events).(deltaTime := ClampDeltaTime(TickSeconds(f.tickMs)));
    EventsKeep(shown, f.events, Player1);
    EventsKeep(shown, f.events, Player2);
    ContactsKeep(Integrate(timed, f.motion), f.contacts, Player1);
    ContactsKeep(Integrate(timed, f.motion), f.contacts, Player2);
  }

  // ---------------------------------------------------------------------
  // The whole game

  lemma {:induction false} RunKeepsInv(w: World, fs: seq<FrameInput>)
    requires Inv(w)
    ensures Inv(Run(w, fs))
    decreases |fs|
  {
    if fs != [] && w.running {
      FrameKeepsInv(w, fs[0]);
      RunKeepsInv(Frame(w, fs[0]), fs[1..]);
    }
  }

  /** Scores never go down. */
  lemma {:induction false} RunScoresMonotone(w: World, fs: seq<FrameInput>)
    ensures w.score.p1 <= Run(w, fs).score.p1
    ensures w.score.p2 <= Run(w, fs).score.p2
    decreases |fs|
  {
    if fs != [] && w.running {
      FrameScore(w, fs[0]);
      RunScoresMonotone(Frame(w, fs[0]), fs[1..]);
    }
  }

  /** Without touching its own floor, a bird's jump credit is conserved over
      any number of frames, and its impulse count never goes down. */
  lemma {:induction false} RunJumpCredit(w: World, fs: seq<FrameInput>, s: Side)
    requires NoFloorContact(fs, s)
    ensures JumpCredit(BirdOf(Run(w, fs), s)) == JumpCredit(BirdOf(w, s))
    ensures BirdOf(w, s).impulses <= BirdOf(Run(w, fs), s).impulses
    decreases |fs|
  {
    if fs != [] && w.running {
      FrameJumpCredit(w, fs[0], s);
      assert NoFloorContact(fs[1..], s) by {
        forall i | 0 <= i < |fs[1..]|
          ensures CountPair(fs[1..][i].contacts, TagOf(s), OwnFloor(s)) == 0
        {
          assert fs[1..][i] == fs[i + 1];
        }
      }
      RunJumpCredit(Frame(w, fs[0]), fs[1..], s);
    }
  }

  /** Between two touches of its own floor a bird gets at most one jump
      impulse, and none at all if it was already in the air. */
  lemma AtMostOneJumpPerGrounding(w: World, fs: seq<FrameInput>, s: Side)
    requires NoFloorContact(fs, s)
    ensures BirdOf(Run(w, fs), s).impulses <= BirdOf(w, s).impulses + 1
    ensures !BirdOf(w, s).isGrounded ==>
      BirdOf(Run(w, fs), s).impulses == BirdOf(w, s).impulses && !BirdOf(Run(w, fs), s).isGrounded
  {
    RunJumpCredit(w, fs, s);
  }

  /** While no QUIT arrives the loop plays every frame it is given. */
  lemma {:induction false} RunPlaysAll(w: World, fs: seq<FrameInput>)
    requires w.running
    requires forall i :: 0 <= i < |fs| ==> Quit !in fs[i].events
    ensures Run(w, fs).running && Run(w, fs).frmCnt == w.frmCnt + |fs|
    decreases |fs|
  {
    if fs != [] {
      assert Quit !in fs[0].events;
      assert forall i :: 0 <= i < |fs[1..]| ==> fs[1..][i] == fs[i + 1];
      RunPlaysAll(Frame(w, fs[0]), fs[1..]);
    }
  }

  /** Playing the first j + 1 frames from a running state is playing the
      first frame and then the next j. */
  lemma RunPrefixStep(w: World, fs: seq<FrameInput>, j: nat)
    requires w.running && j < |fs|
    ensures Run(w, fs[..j + 1]) == Run(Frame(w, fs[0]), fs[1..][..j])
  {
    assert fs[..j + 1][1..] == fs[1..][..j];
  }

  /** The frame holding the first QUIT is the last one played: the game
      ends in that frame's state, stopped. */
  lemma {:induction false} RunStopsAtQuit(w: World, fs: seq<FrameInput>, j: nat)
    requires w.running && j < |fs| && Quit in fs[j].events
    requires forall i :: 0 <= i < j ==> Quit !in fs[i].events
    ensures Run(w, fs) == Frame(Run(w, fs[..j]), fs[j])
    ensures !Run(w, fs).running
    decreases j
  {
    var next := Frame(w, fs[0]);
    if j == 0 {
      assert fs[..0] == [];
      assert !next.running;
    } else {
      assert Quit !in fs[0].events;
      assert forall i :: 0 <= i < j - 1 ==> fs[1..][i] == fs[i + 1];
      RunStopsAtQuit(next, fs[1..], j - 1);
      RunPrefixStep(w, fs, j - 1);
    }
  }

  /** A bird in the air becomes grounded only through a contact with its own
      floor in one of the frames the loop actually plays (one that starts
      while the game is still running). */
  lemma {:induction false} GroundedOnlyByFloorContact(w: World, fs: seq<FrameInput>, s: Side)
    requires !BirdOf(w, s).isGrounded && BirdOf(Run(w, fs), s).isGrounded
    ensures exists i :: 0 <= i < |fs| && Run(w, fs[..i]).running
                     && CountPair(fs[i].contacts, TagOf(s), OwnFloor(s)) > 0
    decreases |fs|
  {
    assert fs != [] && w.running;
    assert fs[..0] == [];
    if CountPair(fs[0].contacts, TagOf(s), OwnFloor(s)) > 0 {
      assert Run(w, fs[..0]).running;
    } else {
      var next := Frame(w, fs[0]);
      FrameJumpCredit(w, fs[0], s);
      GroundedOnlyByFloorContact(next, fs[1..], s);
      var j :| 0 <= j < |fs[1..]| && Run(next, fs[1..][..j]).running
               && CountPair(fs[1..][j].contacts, TagOf(s), OwnFloor(s)) > 0;
      RunPrefixStep(w, fs, j);
      assert fs[j + 1] == fs[1..][j];
    }
  }
}
