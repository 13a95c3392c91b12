# Hand-gesture Mario: a Dafny model

This project models the logic of a small platformer in which the player steers Mario
with a hand held in front of a webcam. It covers three parts of the game.

- **The hand tracker** (`HandTracker.py`), in module `HandTracker` (`hand_tracker.dfy`).
  For each detected hand it computes an openness value per finger, from the cosine
  between the finger vector and the palm vector. It classifies the hand with an
  eight-rule decision table (Rock & Roll, Thumbs Up/Down, 1 finger, Peace, Open Hand,
  Fist, 4 fingers, 3 fingers). It averages all landmarks with a non-zero x into a
  control vector measured from a fixed anchor.
- **The player** (`player.py`), in module `Player` (`player.dfy`). It covers:
  - a jump counter capped at two;
  - a three-phase run animation over a six-image sprite list per side;
  - steering by the control vector or by the keyboard;
  - the camera clamp;
  - the respawn rule.
- **The goomba** (`goomba.py`), in module `Goomba` (`goomba.dfy`). It covers:
  - a patrol direction that is always ±1 and flips after more than 5 units or on a collision with a dynamic body;
  - a two-phase walk animation;
  - a squash timer;
  - the stomp rules against the player.

Module `RealArith` (`real_arith.dfy`) holds facts about products and quotients of
reals. The solver does not find these on its own. They are helpers, not part of
the source.

The physics engine is not modelled. Each game object's body is reduced to its
position and velocity fields, which callbacks read and write. Each engine callback
is one method of the object's class.

Three things become parameters:
- the camera and the landmark detector, replaced by their output: a sequence of hands of 21 landmarks each;
- `np.sqrt`, a function `sqrt` required to be an exact square root (`IsSqrt`);
- the random draw of a goomba's initial direction.

## Model

| member | source | states |
|---|---|---|
| HandTracker.Magnitude | HandTracker.py:12 | The magnitude `normalize` divides by is positive, and its square is the squared length of the (non-zero) vector. |
| HandTracker.UnitVector | HandTracker.py:11-15 | The normalised vector has squared length 1, and multiplying it back by the (positive) magnitude gives the input: it is a positive multiple of the input. |
| HandTracker.Normalize | HandTracker.py:11-15 | `normalize` overwrites its two-element argument in place with the unit vector of its old contents and returns the same list. |
| HandTracker.UnitDotProduct | HandTracker.py:7-8 | The dot product of the two normalised vectors times both magnitudes equals the dot product of the raw vectors. |
| HandTracker.Openness | HandTracker.py:59-90 | The openness vector has exactly five entries, one per fingertip 4, 8, 12, 16, 20 in that order. |
| HandTracker.StraightFingers | HandTracker.py:52-90 | The loop over the tip ids returns exactly the openness vector: entry k is the thumb value or the alignment of fingertip `TIP_IDS[k]`. |
| HandTracker.AlignmentSign | HandTracker.py:81-88 | A non-thumb entry has the sign of the unnormalised dot product of (tip − joint) and (joint − wrist). |
| HandTracker.ThumbEntry | HandTracker.py:72-78 | The thumb entry is above 0.65 exactly when a square-root-free test on the raw vectors holds, and exactly −1 otherwise. |
| HandTracker.OpennessEntries | HandTracker.py:59-90 | The thumb entry is −1 or in (0.65, 1], so never 0 and never in (−1, 0.65]. Every other entry lies in [−1, 1] and has the sign of its raw dot product. |
| HandTracker.AlignmentBounds | HandTracker.py:59-88 | The dot product of the normalised finger and palm vectors lies in [−1, 1]. |
| HandTracker.RawOpenness | HandTracker.py:59-90 | A square-root-free reference openness vector with five entries: ±1 for the thumb and the raw dot products for the others. |
| HandTracker.RawEntriesAt | HandTracker.py:62-88 | Entry k of the reference vector is the reference entry of the k-th fingertip. |
| HandTracker.Classify | HandTracker.py:18-49 | `gesture` never yields the empty label. Each gesture is produced exactly when its sign pattern holds (both directions). Thumbs Up or Down is decided by whether landmark 4 lies above landmark 2. A zero in entries 1–4 gives No Gesture. |
| HandTracker.RulesDisjoint | HandTracker.py:26-47 | No two of the eight rules hold together, so the if/elif order never changes the result. |
| HandTracker.ClassifyBySign | HandTracker.py:26-47 | Two openness vectors with the same entry signs get the same gesture. |
| HandTracker.HandGestureWithoutSqrt | HandTracker.py:130 | Classifying the output of `straightFingers` gives the same gesture as classifying the square-root-free vector, for every exact square root. |
| HandTracker.SustainedThumbsUpNoRecenter | HandTracker.py:133-135 | Holding Thumbs Up, within a frame or across frames, never fires the recentering branch. |
| HandTracker.EnterThumbsUpRecentersOnce | HandTracker.py:133-135 | Entering Thumbs Up from any gesture other than Thumbs Up or Fist and holding it fires the recentering branch exactly once. |
| HandTracker.RecenteringsAppend | HandTracker.py:129-143 | Recentering counts add up over consecutive runs of hands. The second run is compared, at its start, with the last gesture of the first run. |
| HandTracker.RecenteringsPrefix | HandTracker.py:129-143 | The recentering count over the first n hands does not depend on the hands after them. |
| HandTracker.Gestures | HandTracker.py:129-130 | One gesture per detected hand, in order. |
| HandTracker.LandmarksLength | HandTracker.py:137 | The frame's landmark list has 21 points per hand. |
| HandTracker.CountZeroIff | HandTracker.py:137-141 | The counted landmarks never outnumber the landmarks. None is counted exactly when every landmark has x == 0. |
| HandTracker.AccumulateBounds | HandTracker.py:137-141 | For landmarks in the unit square, the summed x and y each lie between 0 and the count, and x is positive once something is counted. |
| HandTracker.NoLandmarkSentinel | HandTracker.py:144-148 | With no hands, or no landmark with x != 0, the returned control vector is [0, 1]. |
| HandTracker.ControlBounds | HandTracker.py:148 | For landmarks in the unit square, once something is counted the horizontal control lies in (−0.5, 0.5]. The vertical control is the mean y plus 1/count, because the y sum starts at 1, and lies in [1/count, 1 + 1/count]. |
| HandTracker.SumsControl | HandTracker.py:148 | The same bounds stated for any sums whose mean lies in the unit square. |
| HandTracker.LandmarksInSquare | HandTracker.py:137 | The frame's landmark list holds exactly the hands' landmarks, so they stay in the unit square. |
| HandTracker.AccumulateAppend | HandTracker.py:137-141 | Summing a concatenation of landmark lists is adding their sums. |
| HandTracker.FrameSumsFlat | HandTracker.py:129-141 | Summing hand by hand, as the nested loops do, equals summing the flat landmark list of those hands. |
| HandTracker.GesturesLabel | HandTracker.py:129-130 | The gesture list labels each hand with its gesture. |
| HandTracker.LabelInjective | HandTracker.py:18-49 | Distinct gestures have distinct labels, and no gesture's label is the tracker's initial empty label, so comparing gestures is comparing the source's strings. |
| HandTracker.GesturesAt | HandTracker.py:129-130 | Entry i of the gesture list is the gesture of hand i. |
| HandTracker.HandInput.constructor | HandTracker.py:107-113 | The tracker starts with `handDelta` = [0, 0], anchor [0.5, 0] and empty current and last gestures. |
| HandTracker.HandInput.GetHandInput | HandTracker.py:115-148 | Returns [Σx/n − 0.5, (1 + Σy)/n − 0] over the n landmarks with x != 0, or [0, 1] when n = 0, and leaves `handDelta` = [Σx, 1 + Σy]. With no hands both gestures are unchanged; otherwise current and last gesture are the last hand's. The anchor stays [0.5, 0]. The ghost result counts the recentering firings over the frame's gestures. |
| HandTracker.HandInput.ProcessHands | HandTracker.py:128-143 | The hand loop leaves `handDelta` = [Σx, 1 + Σy] and `counts` = the number of counted landmarks. Afterwards `currentGesture` = `lastGesture` = the last hand's gesture. It also counts the recentering firings. |
| HandTracker.HandInput.ProcessHand | HandTracker.py:130-143 | One iteration: the recentering branch fires exactly on entering Thumbs Up from neither Thumbs Up nor Fist. The hand's counted coordinates are added. Current and last gesture become the hand's gesture. |
| HandTracker.HandInput.ClassifyHand | HandTracker.py:130 | `currentGesture` becomes the hand's gesture; `handDelta` and `lastGesture` are untouched. |
| HandTracker.HandInput.AddLandmarks | HandTracker.py:137-141 | The landmark loop adds the coordinates of every landmark with x != 0 to `handDelta` and returns how many there were. |
| Player.CameraClamp | player.py:46-50 | The camera x ends in [−12.65, −0.715]. It is left alone inside that range and pinned to the nearer bound outside it. |
| Player.Tick | player.py:65-72 | With a frame in 0..2, the frame stays in 0..2 and advances cyclically, (frame + 1) mod 3, exactly when the timer exceeded 1. The timer restarts or grows by 0.2. |
| Player.Pose | player.py:74-98 | The texture comes from the list chosen by the direction of motion (vx > 0 picks the `MarioLeft` images). Its index is below 6. It is the jump image exactly when jumping. Otherwise it is run image frame + 1, the slide image or the standing image by speed. The frame is kept only while running fast. |
| Player.Animation | player.py:65-98 | The animation step keeps the frame in 0..2 and the texture within the six images. A running texture index is in 1..3. The jump image shows exactly when jumping. |
| Player.Jump | player.py:109-111 | A jump raises the jump count by one exactly when fewer than two were used, and never past 2. It leaves the horizontal velocity and running flag alone. |
| Player.Steering | player.py:103-111 | `running` holds exactly when the hand x exceeds 0.1 in magnitude, and then vx = 32·x; otherwise vx is kept. It jumps (vy = 10, one more jump) exactly when the hand y is below 0.4 and fewer than two jumps were used; otherwise vy and jumps are kept. |
| Player.KeyMotion | player.py:118-131 | A sets vx = 8 and D sets vx = −8, others keep vx. Space jumps under the same cap as a hand jump. `running` holds exactly when the key is A or D. |
| Player.AtMostTwoJumps | player.py:109-111 | From the ground, however many jumps are requested only the first two take effect. |
| Player.Player.constructor | player.py:9-21 | The initial state: no jumps, frame 0, timer 0, not running, not jumping, not dead, empty sprite lists, and a fresh tracker with `handDelta` = [0, 0] and empty current and last gestures. |
| Player.Player.Start | player.py:23-37 | The loop appends the six images of each side in order. The camera height becomes y + 0.285 and the spawn point the current position. |
| Player.Player.FixedUpdate | player.py:39-55 | The camera follows at the clamped x − 0.275 and the remembered height. A player below y = −1 or dead respawns at the spawn point at rest and is no longer dead; otherwise the body is untouched. |
| Player.Player.Update | player.py:57-111 | The animation step from the old state, then steering by the frame's control vector. The texture index is within both sprite lists. The tracker's `handDelta` holds the frame's landmark sums. With no hands both gestures are unchanged; otherwise the current and the last gesture are the last hand's gesture. |
| Player.Player.HandStep | player.py:100-111 | One tracker frame, then steering by its control vector. The tracker's sums and gestures are left as `getHandInput` leaves them: unchanged gestures with no hands, else the last hand's gesture in both. |
| Player.Player.Animate | player.py:65-98 | The animation half of `update` follows `Animation`. |
| Player.Player.Steer | player.py:103-111 | The steering half of `update` follows `Steering`. |
| Player.Player.KeyPressed | player.py:113-131 | The key handler follows `KeyMotion`. |
| Player.Player.BeginContact | player.py:133-141 | Touching any body clears `jumping` and restores both jumps. |
| Player.Player.EndContact | player.py:143-151 | `jumping` becomes true when the magnitude of vy exceeds 0.5 and is otherwise kept. |
| Goomba.InitialDirection | goomba.py:20 | The initial direction is ±1: 1 exactly when the draw is 0. |
| Goomba.Patrol | goomba.py:33-53 | A goomba that is not squashed walks at vx = 4·direction, hopping (vy = 2) when it moved less than 0.01, and turns round exactly when the accumulated distance exceeds 5. Its dx is the old dx plus the distance moved, or 0 once that exceeds 5. A squashed goomba keeps velocity and direction, and its dx is 0. The direction stays ±1, dx stays in [0, 5] and the last x becomes the current x. |
| Goomba.Blink | goomba.py:62-66 | The walk frame stays in {0, 1} and toggles exactly when the timer exceeded 1. The timer restarts or grows by 0.05. |
| Goomba.SquashStep | goomba.py:68-74 | A squashed goomba's timer advances by 0.01. Once past 5 the goomba recovers with the timer reset to 0. The timer stays in [0, 5], and a goomba that is not squashed is unchanged. |
| Goomba.SquashLasts | goomba.py:68-74 | A freshly squashed goomba stays squashed for exactly 500 updates, its timer at 0.01·n, and recovers at update 501. |
| Goomba.Goomba.constructor | goomba.py:11-20 | The initial state, with a direction of ±1 drawn from the random value. |
| Goomba.Goomba.Start | goomba.py:22-31 | The loop appends the three images in order. The start x is remembered and the goomba sets off at 4 in its direction. |
| Goomba.Goomba.FixedUpdate | goomba.py:33-53 | `fixedUpdate` follows `Patrol` on the current x and keeps the invariant: direction ±1, 0 ≤ dx ≤ 5. |
| Goomba.Goomba.Update | goomba.py:55-76 | The frame and timer follow `Blink` and the squash state follows `SquashStep`. The texture is image 2 when the goomba was squashed, else the walk frame. |
| Goomba.Goomba.BeginContact | goomba.py:78-94 | A contact with the player squashes the goomba and sets the player's vy to 10. It kills the player when their heights differ by less than 0.1, and marks the goomba removed when it was already squashed. A contact with anything else changes nothing. |
| Goomba.Goomba.PostSolve | goomba.py:96-107 | A collision with a dynamic body flips the direction and zeroes dx. Any other collision changes nothing. |

Behaviour of the code that is easy to misread, and that the model follows:

- The eight gesture rules are pairwise disjoint (`RulesDisjoint`). The priority order of the if/elif chain therefore never decides the result.
- An entry of exactly 0 is neither open nor closed: every rule uses strict comparisons, so a 0 entry in fingers 1 to 4 always gives "No Gesture".
- `normalize` has no guard against a zero-length vector. The model requires every finger and palm vector to be non-zero (`NonDegenerate`).
- An open thumb's entry is above 0.65, not anywhere in (−1, 1].
- Only landmarks with x != 0 are summed and counted.
- The y sum starts at 1, because `handDelta` is reset to [0, 1] before the loop.
- `getHandInput` returns only the control vector. The gesture is written to the tracker's fields `currentGesture` and `lastGesture` and compared between them for the recentering test, but nothing outside the tracker reads them.
- The recentering branch only logs. The anchor is never moved.

## Left out

- Camera capture, colour conversion and the MediaPipe landmark detector (HandTracker.py:97-105, 121-124, 150-152). They are external I/O and a pretrained model. Their output is the `hands` parameter, each hand exactly 21 landmarks (the `Hand` type).
- `np.sqrt` is not defined in Dafny without an axiom. It is a parameter required to be an exact square root, and the gesture is also characterised without square roots (`HandGestureWithoutSqrt`).
- Floating-point rounding, NaN and infinity. All arithmetic is on exact reals, so timers advancing by 0.2, 0.05 and 0.01 are exact.
- A zero-length finger or palm vector. NumPy's division by a zero magnitude gives NaN with a warning, not an exception. A NaN thumb alignment then fails `> .65` and is recorded as −1. A NaN entry for fingers 1 to 4 fails every comparison, and every rule tests those fingers, so the gesture is "No Gesture". The model excludes such hands with `NonDegenerate` and does not model NaN.
- The recentering branch's `print` is a ghost counter of its firings. The other `print` calls are left out.
- `mario.py`: window, state and map wiring with no logic of its own.
- The physics engine: gravity, collision solving and the motion of bodies between callbacks. Positions and velocities are plain fields; callbacks read and write them.
- Texture loading (`loadImageTexture`) and the camera scale (player.py:34-35). A loaded texture is named by its image path, and the texture shown is a list and an index.
- `random.randint` in the goomba constructor becomes the `draw` parameter.
- The engine's threads and callback scheduling. Each callback runs as one sequential step.
- The engine's removal of a goomba becomes the `removed` flag. Callbacks on a removed goomba are not prevented.
- `Player.exit` and `HandInput.exit`, which release the camera.
- `Player.Update` requires `Started`: the sprite lists must have been loaded by `start`, which the engine calls first. Run before `start`, the source's `update` raises IndexError on the empty `leftTex`/`rightTex` (player.py:76-98). That error path is not modelled.
- The player's `startPos` starts as the integer 0 until `start` runs. It is modelled as the point (0, 0).
- The body a goomba touches is passed as the player, or as null when it is not the player. Of its velocity only the vertical component the goomba sets is modelled; the player's vx is kept.
