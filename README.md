# Coconut Volley: the game rules

Coconut Volley is a two-player volleyball game. Two birds bat a coconut over a
pole, and a point goes to a player when the ball lands on the other player's
floor. The program (`code/main.py`) is mostly drawing with pygame and physics
with pymunk. Underneath sits a small discrete state machine, and that is what
this project models and proves things about:

- the score board and its two counters;
- the collision categories (1 player 1, 2 ball, 3 player 1's floor, 4 left
  wall, 5 right wall, 6 pole, 7 player 2's floor, 8 player 2) and the ten
  callbacks registered on pairs of them;
- each bird's movement intents, ground flag, jump gate, horizontal velocity
  and animation choice;
- the ball's vertical damping;
- the main loop's bookkeeping: the frame counter, key events, quitting and
  the clamped frame delta.

The physics engine is treated as an opaque source. In each frame it delivers
the ball's new position and velocity, the birds' new velocities (`Motion`)
and the ordered list of contact pairs it found. The game's responses to
those are modelled exactly.

Layout:

- `rules.dfy` (module `Rules`): the constants, the state as values
  (`BirdState`, `BallState`, `Score`, `World`), and the rules as pure
  functions. These are `Jump`, `Move`, `AdvanceRun`, `SpriteOf`, `Damp`,
  `ClampDeltaTime`, `Lookup`, `Apply`, `OnContact`, `OnEvent`, `Frame` and
  `Run`. `Inv` is the invariant every state of the loop keeps.
- `game.dfy` (module `Game`): the objects the program mutates in place.
  These are the classes `ScoreBoard`, `Ball`, `Bird` and `Game`. Each method
  is proved to change its fields exactly as the matching `Rules` function
  says. `Game.Valid()` is `Inv` of the objects' state, with two distinct
  birds.
- `properties.dfy` (module `Properties`): what the rules guarantee. It covers
  the collision responses and the jump gate, and then scoring, grounding,
  the jump budget and `Inv` over whole frames and whole games.

`JumpCredit` (a bird's impulse count plus one if it is grounded) is the
quantity behind the jump properties. Only a contact with the bird's own
floor raises it. Everything else keeps it fixed.

## Model

| member | source | states |
|---|---|---|
| `Rules.Initial` | code/main.py:12-15 | the loop starts running at frame 0 with the delta at 0.1 (lines 12-15), scores (0, 0) (lines 248-249), both birds alike, grounded, without intents, at rest, with run index 0 and no impulses (lines 182-187), the ball at (210, 70) at rest (line 274), and `Inv` holding |
| `Rules.RunVelocity` | code/main.py:208 | horizontal speed is 0 when both intents are equal, +20000·dt for right only, −20000·dt for left only |
| `Rules.ClampDeltaTime` | code/main.py:339-340 | the frame delta always lies in [0.001, 0.1]; a raw value already in range is kept; below the range gives 0.001 and above it gives 0.1 |
| `Rules.TickSeconds` | code/main.py:339 | the clock reading in seconds is non-negative and is exactly the milliseconds divided by 1000 |
| `Rules.Move` | code/main.py:204-208 | only the horizontal velocity changes; it is 0 exactly when both intents are equal or the delta is 0; the vertical velocity is kept |
| `Rules.Jump` | code/main.py:210-216 | afterwards the bird is in the air; it received one impulse if it was grounded and none otherwise; intents and run index are kept |
| `Rules.AdvanceRun` | code/main.py:196-198 | only the run index changes and it stays in [0, 2); it changes exactly on a frame count divisible by 8 while exactly one intent is set |
| `Rules.SpriteOf` | code/main.py:196-202 | run sprite iff exactly one intent is set (even in the air), showing the current run index; jump sprite iff both intents are equal and the bird is in the air; idle iff both are equal and it is grounded |
| `Rules.Damp` | code/main.py:164 | position and horizontal velocity are kept; the vertical velocity keeps its sign and is zero exactly when it was |
| `Rules.DisplayBird` | code/main.py:219-224 | displaying a bird advances its run index as `AdvanceRun` says, sets its horizontal velocity to `RunVelocity` of its intents, keeps its vertical velocity, and changes nothing else; the run index stays in [0, 2) |
| `Rules.DisplayAll` | code/main.py:302-304 | the display calls multiply the ball's vertical velocity by 0.97, keep its horizontal velocity and position, change each bird only in run index and velocity, keep the score, frame count, delta and loop flag, and keep `Inv` |
| `Rules.Lookup` | code/main.py:281-291 | every registered pair involves a bird or the ball; the goal callbacks are selected exactly for the ball on a floor (the opponent's floor scores), the ground callbacks exactly for a bird on its own floor, in either tag order |
| `Rules.Apply` | code/main.py:116-142 | no callback touches the frame count, the delta, the loop flag, run indices, impulses or the birds' velocities; only the two goal callbacks touch the ball or the score |
| `Rules.OnContact` | code/main.py:280-291 | a contact never touches the frame count, the delta, the loop flag, run indices or impulses |
| `Rules.ApplyContacts` | code/main.py:341 | the contacts of a step, in order, keep the frame count, the delta, the loop flag and the run indices |
| `Rules.OnKeyDown` | code/main.py:311-324 | a key press never touches the ball, score, frame count, delta, loop flag or run indices; only W can change player 1's ground flag and velocity, only ↑ player 2's |
| `Rules.OnKeyUp` | code/main.py:326-335 | a key release changes nothing but the intents, never sets one, and clears at most one |
| `Rules.OnEvent` | code/main.py:307-335 | an event keeps the ball, score, frame count, delta and run indices; the loop keeps running exactly when the event is not QUIT |
| `Rules.ApplyEvents` | code/main.py:307-335 | the same for a frame's event queue; the loop keeps running exactly when no QUIT is among the events |
| `Rules.Frame` | code/main.py:293-341 | a frame advances the frame count by 1, sets the delta to the clamped clock reading, keeps running exactly when no QUIT came, and keeps `Inv` |
| `Rules.FrameSprites` | code/main.py:199-202 | each bird is drawn running iff exactly one intent is set, jumping iff both intents agree and it is in the air, and a run sprite index is always in [0, 2) while `Inv` holds |
| `Rules.Run` | code/main.py:293-343 | the loop plays at most one frame per input, does nothing once stopped, and keeps `Inv` |
| `Properties.ContactIsSymmetric` | code/main.py:281-291 | the response to a contact does not depend on the order in which the two tags are reported |
| `Properties.GoalForPlayer1` | code/main.py:118-122 | ball on player 2's floor: player 1's score +1, player 2's unchanged, ball at (630, 70) at rest, and nothing else changes (no bird state) |
| `Properties.GoalForPlayer2` | code/main.py:132-136 | ball on player 1's floor: player 2's score +1, player 1's unchanged, ball at (210, 70) at rest, and nothing else changes |
| `Properties.FloorContactGrounds` | code/main.py:116-130 | a bird touching its own floor becomes grounded, and nothing else changes |
| `Properties.PoleAndWallsClearOneFlag` | code/main.py:124-140 | p1 and the pole clear p1's right intent; p1 and the left wall clear its left intent; p2 and the pole clear p2's left intent; p2 and the right wall clear its right intent; each changes nothing else |
| `Properties.BallHitsChangeNothing` | code/main.py:128-142 | a bird hitting the ball changes no game state |
| `Properties.OtherSideIsIgnored` | code/main.py:281-291 | a bird touching the other half's floor or wall, or the other bird, has no response |
| `Properties.UnregisteredPairsAreIgnored` | code/main.py:281-291 | a contact whose unordered pair is none of the ten registered ones has no response |
| `Properties.BallBouncesAreIgnored` | code/main.py:281-291 | the ball touching the pole, a side wall or another ball has no response |
| `Properties.KeyBindings` | code/main.py:307-335 | D/A set player 1's right/left intent and →/← player 2's on a press; W and ↑ make player 1 and player 2 jump; a release of D, A, → or ← clears the same intent; releasing W or ↑ and any other key do nothing; QUIT stops the loop |
| `Properties.JumpGate` | code/main.py:214-216 | from the ground, a jump clears the ground flag, lowers the vertical velocity by 700 and applies one impulse; in the air it changes nothing |
| `Properties.JumpSpamIsOneJump` | code/main.py:210-216 | pressing jump n ≥ 1 times without landing is the same as pressing it once |
| `Properties.RunVelocitySwapped` | code/main.py:208 | swapping the two intents negates the horizontal velocity |
| `Properties.MoveSetsHorizontalOnly` | code/main.py:208 | the horizontal velocity is 20000·dt·(right − left) |
| `Properties.DampingSlowsVertical` | code/main.py:164 | damping never increases the ball's vertical speed and strictly reduces a non-zero one; horizontal velocity and position are unchanged |
| `Properties.RepeatedDamping` | code/main.py:159-164 | after k displays without physics the vertical velocity is scaled by 0.97^k and nothing else has changed |
| `Properties.ClampIsIdempotent` | code/main.py:340 | clamping a clamped delta changes nothing |
| `Properties.EventKeeps` | code/main.py:307-335 | no key or quit event changes a bird's jump credit, the score, the run index or the frame count; impulses never decrease |
| `Properties.EventsKeep` | code/main.py:307 | the same holds for the whole event queue of a frame |
| `Properties.ContactKeeps` | code/main.py:116-142 | no contact changes a bird's impulses, run index, the delta time or the frame count; only a contact with the bird's own floor can raise its jump credit |
| `Properties.ContactsKeep` | code/main.py:281-291 | the same holds for all contacts of a physics step |
| `Properties.ContactsScore` | code/main.py:118-136 | after a list of contacts each score has risen by exactly the number of ball contacts with the opponent's floor |
| `Properties.FrameScore` | code/main.py:293-341 | in one frame each score rises by exactly the number of goal contacts in it, and in no other way |
| `Properties.FrameJumpCredit` | code/main.py:293-341 | a frame never lowers a bird's jump credit or impulse count, and keeps the credit exactly without a contact on the bird's own floor |
| `Properties.FrameUngroundsOnlyByJump` | code/main.py:214-215 | a bird that was grounded before a frame and is not after received a jump impulse during it |
| `Properties.FrameKeepsInv` | code/main.py:293-341 | a frame keeps the run indices in [0, 2) and the delta in [0.001, 0.1], advances the frame count by 1, keeps an in-range raw delta, and changes a bird's run index exactly when the new frame count is a multiple of 8 and the bird was showing the run sprite |
| `Properties.RunKeepsInv` | code/main.py:293 | every state the loop reaches satisfies the invariant |
| `Properties.RunPlaysAll` | code/main.py:293 | while no QUIT arrives the loop plays every frame: it is still running and the frame count has risen by the number of frames |
| `Properties.RunStopsAtQuit` | code/main.py:308-309 | the frame holding the first QUIT is the last one played; the game ends stopped, in that frame's state |
| `Properties.RunScoresMonotone` | code/main.py:251-260 | over any sequence of frames neither score decreases |
| `Properties.RunJumpCredit` | code/main.py:293-341 | over frames without a contact on the bird's own floor, its jump credit is conserved and its impulses never decrease |
| `Properties.AtMostOneJumpPerGrounding` | code/main.py:214-216 | between touches of its own floor a bird receives at most one jump impulse, and none if it started in the air |
| `Properties.GroundedOnlyByFloorContact` | code/main.py:116-130 | a bird in the air that is grounded later had a contact with its own floor in a frame the loop actually played (one that started while running) |
| `Game.ScoreBoard.constructor` | code/main.py:247-249 | both counters start at 0 |
| `Game.ScoreBoard.IncP1` | code/main.py:251-255 | player 1's counter goes up by exactly 1; player 2's is unchanged |
| `Game.ScoreBoard.IncP2` | code/main.py:256-260 | player 2's counter goes up by exactly 1; player 1's is unchanged |
| `Game.Ball.constructor` | code/main.py:154-157 | the ball starts at the given point at rest |
| `Game.Ball.Display` | code/main.py:159-164 | the vertical velocity is multiplied by 0.97; the horizontal velocity and the position are kept |
| `Game.Ball.Place` | code/main.py:119-120 | the ball's position and velocity are set to the given values |
| `Game.Bird.constructor` | code/main.py:178-190 | a bird starts grounded, with no intents, run index 0 and no impulses |
| `Game.Bird.HandleAnimations` | code/main.py:192-202 | the run index advances as `AdvanceRun` says and the sprite returned is the one `SpriteOf` selects |
| `Game.Bird.HandleMove` | code/main.py:204-208 | the bird's state becomes `Move` of its old state |
| `Game.Bird.HandleJmp` | code/main.py:210-216 | the bird's state becomes `Jump` of its old state |
| `Game.Bird.Display` | code/main.py:219-224 | animation and then movement, with the sprite drawn |
| `Game.Game.constructor` | code/main.py:269-278 | the objects are fresh and distinct, the world is `Initial()`, and the invariant holds |
| `Game.Game.Respond` | code/main.py:115-142 | running a callback changes the world exactly as `Apply` says and keeps the invariant |
| `Game.Game.HandleContact` | code/main.py:280-291 | a contact runs the callback registered for its unordered pair of tags, or does nothing |
| `Game.Game.Step` | code/main.py:341 | the engine's motion is taken over, then the contacts are handled in order |
| `Game.Game.HandleEvent` | code/main.py:307-335 | QUIT stops the loop; A/D and ←/→ set or clear intents on key down or key up; W and ↑ jump on key down; other events change nothing |
| `Game.Game.HandleEvents` | code/main.py:307-335 | the queued events are handled in order, as `ApplyEvents` says, keeping the invariant |
| `Game.Game.DisplayObjects` | code/main.py:302-304 | the ball, then each bird, are displayed as `DisplayAll` says, and the sprites of the birds' advanced animation are returned |
| `Game.Game.HandleInput` | code/main.py:307-340 | the frame's events are handled as `ApplyEvents` says, then the delta becomes the clamped clock reading, keeping the invariant |
| `Game.Game.PlayFrame` | code/main.py:293-341 | one loop iteration changes the world exactly as `Frame` says, keeps the invariant, and returns the sprites drawn |
| `Game.Game.Play` | code/main.py:293-343 | the loop plays frames until one of them quits, and ends in `Run` of the start state |

Two things about the loop that the model keeps as written:

- The loop body (code/main.py:293-341) increments the frame counter,
  displays (damping, animation, movement with the previous frame's delta),
  handles events, clamps the new delta and only then steps the physics;
  `Rules.Frame` uses that order.
- The code scores on every reported contact of the ball with a floor
  (`Properties.ContactsScore`); one goal scores once only because the
  callback moves the ball away.

## Left out

- pymunk: gravity, integration, contact detection and resolution,
  elasticity, friction, and body and shape creation (code/main.py:44-113,
  270-277, 341). The engine's result is an input to each frame: the new
  ball state, the new bird velocities and the contact list. Bird positions
  are used only for drawing and are not modelled.
- The order of callbacks relative to the engine's own velocity update is not
  modelled. The registrations at code/main.py:283-284 and 289-290 use the
  engine's second callback slot, the others its first. The model runs every
  callback after the engine's motion for that step.
- Jump impulse: its effect is modelled as a change of −70000/100 = −700 in
  vertical velocity (bird mass 100, rotation locked) plus a count of impulses
  applied. Everything else the engine does with the impulse is left out.
- Floating point: positions, velocities and the delta are exact reals. So
  are the factor 0.97, the division of the clock's milliseconds by 1000 and
  WIDTH·3/4. Rounding is not modelled.
- Drawing: sprite loading, every blit and its coordinates, the font,
  `Pole.Display`, `Score_Board.Display`, the background reload and the
  display flip (code/main.py:27-42, 237-241, 262-267, 296, 337). The model
  keeps only which bird sprite is chosen.
- Sound: music, hit and score sounds, and the random choice among them
  (code/main.py:20-24, 122, 128, 136, 142). They have no effect on game
  state.
- Event polling and the frame clock: the events of a frame and the
  milliseconds `clock.tick(60)` reports are inputs. `pygame.quit` is left
  out.
