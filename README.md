# Kinematic 2D platformer character, modelled in Dafny

This project models the movement core of a Unity 2D platformer character. It has three scripts.

- **Controller2D** (`controller2d.dfy`, module `Controller`) is the raycast collision resolver.
  `Move` clears the four contact flags. It updates the facing direction from the unclipped
  horizontal intent. Then it casts a row of horizontal rays from the leading side of the
  skin-shrunk box. Each ray that hits clips `dx` to one skin short of the hit and shortens the
  rays after it. If `dy != 0`, a row of vertical rays follows, shifted by the already clipped `dx`.
  The actor is translated by the clipped displacement. The sprite is flipped when the facing
  direction changed.
  The pure function `Resolve` (built from one ray pass, `Sweep`) states what one call computes.
  The class `Controller2D` keeps the script's fields and is proved to compute exactly `Resolve`.
  The lemmas about `Resolve` state the promises of the resolver:
  - flags are fresh and set only by hits of this call;
  - `left`/`right` and `above`/`below` are mutually exclusive;
  - the clip law, and "the closest hit wins";
  - an empty world lets the displacement through;
  - the rays span the leading side exactly.
- **Player** (`player.dfy`, module `Motion`) is the motion state machine, as class `Player`. It
  covers:
  - the gravities derived from the jump tunables;
  - wall-slide and apex detection in `Update`;
  - the fixed tick (`FixedUpdate`): attack freeze, smoothing, wall-stick countdown, queued jump,
    Verlet displacement, the move, and the velocity clamps and contact stops;
  - the jump, jump-release and attack requests.

  Pure functions state each decision (`JumpChoice`, `StickStep`, `SettleVelocityY`,
  `DeriveConstants`, `ApexFirings`). Lemmas prove the promises about them over all inputs or
  over sequences of ticks.
- **PlayerInput** (`player_input.dfy`, module `Controls`) forwards input to the Player. It retries
  a refused jump press from a bounded frame counter, `jumpBufferCount`.

`geometry.dfy` (module `Geometry`) holds `Vec2`, `Option` and the `Mathf` helpers (`Abs`, `Max`,
`Sign`).

Engine services become parameters:
- `Physics2D.Raycast` against the collision mask is a `Caster`, a function from (origin,
  direction, maximum length) to an optional hit distance. The engine's promise `0 <= d <= length`
  is the predicate `ValidCaster`. `Consistent` states that a shorter ray along the same line sees
  the same first obstruction; it is used only for "the closest hit wins".
- `Mathf.SmoothDamp` is a `Damper` parameter.
- `Input.GetAxisRaw`, `GetKeyDown`/`GetKeyUp` and `GetMouseButtonDown` are method parameters.
- `Time.fixedDeltaTime` is the parameter `dt`.

Floats are modelled as `real`. `Mathf.NegativeInfinity` is the `Height` value `NegativeInfinity`.

## Model

| member | source | states |
|---|---|---|
| Geometry.Sign | Assets/Scripts/Controller2D.cs:41 | `Mathf.Sign` is 1 or -1. It is -1 exactly for negative input, so zero counts as positive, and sign times x is \|x\| |
| Controller.CollisionInfo.Reset | Assets/Scripts/Controller2D.cs:160-164 | all four contact flags are false; the facing direction is kept |
| Controller.Corners | Assets/Scripts/Controller2D.cs:118-127 | the four ray origins are the corners of the box shrunk by one skin on every side: same centre, size reduced by two skins, corners aligned in pairs |
| Controller.ClampRayCount | Assets/Scripts/Controller2D.cs:135-136 | a clamped ray count is exactly max(2, n): at least 2 and at least the configured count, and equal to one of them |
| Controller.RaySpacing | Assets/Scripts/Controller2D.cs:138-139 | spacing times (count - 1) equals the extent of the shrunk box |
| Controller.FaceDirAfter | Assets/Scripts/Controller2D.cs:38-42 | the facing direction becomes sign(dx) exactly when dx != 0, is otherwise unchanged, and stays in {-1, 1} |
| Controller.HorizontalRayLength | Assets/Scripts/Controller2D.cs:63-68 | the first horizontal ray length is the larger of \|dx\| + skin and 2 * skin |
| Controller.Step | Assets/Scripts/Controller2D.cs:76-82 | no contract: defines one ray of a pass: a hit at d sets the displacement to (d - skin) * dir and the ray length to d |
| Controller.Sweep | Assets/Scripts/Controller2D.cs:70-85 | no contract: defines a pass as the rays cast in index order, each with the length the earlier rays left; its laws are the Sweep lemmas below |
| Controller.HorizontalRayOrigin | Assets/Scripts/Controller2D.cs:73-75 | no contract: defines the i-th horizontal origin as the leading bottom corner raised by i spacings; `HorizontalRaysSpanSide` states where the rays lie |
| Controller.VerticalRayOrigin | Assets/Scripts/Controller2D.cs:100-102 | no contract: defines the i-th vertical origin as the leading left corner moved right by i spacings plus the clipped dx; `VerticalRaysSpanSide` states where the rays lie |
| Controller.HorizontalPass | Assets/Scripts/Controller2D.cs:61-85 | no contract: defines the horizontal pass as a `Sweep` from the facing side, starting from dx and the ray length `HorizontalRayLength` |
| Controller.VerticalPass | Assets/Scripts/Controller2D.cs:93-112 | no contract: defines the vertical pass as a `Sweep` from the leading side, starting from dy and the ray length \|dy\| + skin |
| Controller.Resolve | Assets/Scripts/Controller2D.cs:32-48 | no contract: defines one move as the horizontal pass in the new facing direction, then the vertical pass only when dy != 0, offset by the clipped x; its laws are the lemmas from `HorizontalFlags` to `FloorStopsActor` |
| Controller.SweepShortens | Assets/Scripts/Controller2D.cs:81 | ray lengths never grow within a pass, and a shortened length is not negative |
| Controller.SweepClips | Assets/Scripts/Controller2D.cs:80-81 | after any hit, the displacement is (last hit distance - skin) * dir |
| Controller.SweepHits | Assets/Scripts/Controller2D.cs:78-85 | a pass reports a hit exactly when one of its rays hit; with no hit it changes nothing |
| Controller.SweepLastHit | Assets/Scripts/Controller2D.cs:81 | after a hit, the final ray length is a distance that one of the pass's rays reported |
| Controller.PassOutcome | Assets/Scripts/Controller2D.cs:70-88 | a pass hits iff some ray hit; otherwise it is unchanged; after a hit the length lies in [0, first length] and the movement along dir is that length minus the skin |
| Controller.ClosestHitWins | Assets/Scripts/Controller2D.cs:76-82 | against consistent geometry, any ray that would hit at d with the first length leaves the pass hit with a final length of at most d |
| Controller.PassStopsShort | Assets/Scripts/Controller2D.cs:76-82 | against consistent geometry, the movement along dir stops at d - skin or earlier for every ray that would hit at d |
| Controller.HorizontalFlags | Assets/Scripts/Controller2D.cs:83-84 | `left` holds iff a horizontal ray of this call hit while facing left; likewise `right`; never both |
| Controller.HorizontalClip | Assets/Scripts/Controller2D.cs:76-81 | with no hit, dx is unchanged; after hits, dx = (last hit - skin) * dir; the movement along dir is at most max(\|dx\|, skin) and at least -skin |
| Controller.VerticalFlags | Assets/Scripts/Controller2D.cs:45-48 | with dy = 0 no vertical ray is cast, so dy stays 0 and `above`/`below` stay cleared; otherwise `below`/`above` hold iff a ray at the clipped x hit going down/up; never both |
| Controller.VerticalClip | Assets/Scripts/Controller2D.cs:94-111 | rays start at the clipped x; with no hit dy is unchanged; after hits dy = (last hit - skin) * dirY; dy * dirY <= \|dy\| |
| Controller.EmptyWorldPassesThrough | Assets/Scripts/Controller2D.cs:44-48 | with nothing on the collision layer the displacement is unchanged and no contact is reported |
| Controller.WallStopsActor | Assets/Scripts/Controller2D.cs:70-85 | a wall that one horizontal ray meets at d stops the actor at d - skin or earlier, and sets the flag of the side it faces |
| Controller.FloorStopsActor | Assets/Scripts/Controller2D.cs:97-112 | a floor or ceiling that one vertical ray at the clipped x meets at d stops the actor at d - skin or earlier, and sets `below` or `above` |
| Controller.HorizontalRaysSpanSide | Assets/Scripts/Controller2D.cs:70-75 | the horizontal rays of a side run exactly from its bottom corner to its top corner |
| Controller.VerticalRaysSpanSide | Assets/Scripts/Controller2D.cs:97-102 | the vertical rays run exactly from the leading left corner to the leading right corner, both shifted by the clipped dx |
| Controller.Controller2D.constructor | Assets/Scripts/Controller2D.cs:8-20 | the component as configured: position, size, ray counts and scale as given, all contact flags cleared |
| Controller.Controller2D.Start | Assets/Scripts/Controller2D.cs:26-30 | the ray counts are clamped, the spacings are computed and the actor faces right |
| Controller.Controller2D.CalculateRaySpacing | Assets/Scripts/Controller2D.cs:129-140 | both counts are clamped to at least 2; each spacing is the shrunk box's extent / (count - 1) |
| Controller.Controller2D.UpdateRaycastOrigins | Assets/Scripts/Controller2D.cs:118-127 | the origins become the corners of the current skin-shrunk bounds |
| Controller.Controller2D.Flip | Assets/Scripts/Controller2D.cs:142-148 | the x scale is negated |
| Controller.Controller2D.Move | Assets/Scripts/Controller2D.cs:32-57 | new contacts and facing direction equal `Resolve` of the old state; the position advances by the clipped displacement; the scale flips exactly when the facing direction changed; the ray configuration is kept |
| Controller.Controller2D.HorizontalCollisions | Assets/Scripts/Controller2D.cs:59-89 | the loop computes exactly the horizontal pass: x clipped, y kept, `left`/`right` set only on a hit |
| Controller.Controller2D.VerticalCollisions | Assets/Scripts/Controller2D.cs:91-116 | the loop computes exactly the vertical pass at the clipped x: y clipped, x kept, `below`/`above` set only on a hit |
| Motion.HighestOf | Assets/Scripts/Player.cs:92 | the running maximum height never decreases and covers the current height |
| Motion.ApexFires | Assets/Scripts/Player.cs:86 | no contract: defines the apex test: not yet at the apex and the recorded maximum lies above the current height; its laws are the lemmas below |
| Motion.NoFiringAfterApex | Assets/Scripts/Player.cs:86-92 | once the apex is reached, no later frame fires the apex test |
| Motion.ApexFiresAtMostOnce | Assets/Scripts/Player.cs:86-92 | between two jumps the apex test fires at most once, whatever the heights |
| Motion.DescentFiresApex | Assets/Scripts/Player.cs:86-92 | after a jump starts, any frame lower than an earlier frame makes the apex test fire exactly once |
| Motion.RisingGravity | Assets/Scripts/Player.cs:58 | no contract: defines the rising gravity -(2 * jumpHeight) / timeToJumpApex^2, which Start and Jump (line 280) both compute |
| Motion.DeriveConstants | Assets/Scripts/Player.cs:58-63 | no contract: defines the four constants Start derives; `JumpArc` states what they mean |
| Motion.JumpArc | Assets/Scripts/Player.cs:58-63 | for positive tunables: gravity < 0; jumpVelocity = 2h/t; speed reaches 0 at t at height h; release gravity = -v^2/(2 minH), as steep as gravity when minH <= h; falling gravity = gravity * multiplier |
| Motion.DefaultJumpConstants | Assets/Scripts/Player.cs:9-12 | the default tunables give gravity -50, jump velocity 20, release gravity -400 and falling gravity -100 |
| Motion.WallSliding | Assets/Scripts/Player.cs:78-82 | no contract: defines a wall slide as a side contact without a floor contact |
| Motion.WallDir | Assets/Scripts/Player.cs:111 | no contract: defines the wall side, -1 with the left flag and 1 otherwise, as FixedUpdate and OnJumpInputDown (line 225) compute it; `SlidingWallSide` states that it names the touched side |
| Motion.SlidingWallSide | Assets/Scripts/Player.cs:111 | after any move, a wall-sliding actor's wall direction is -1 exactly when it touches the left side and 1 exactly when it touches the right |
| Motion.StickStep | Assets/Scripts/Player.cs:107-124 | no contract: defines one tick of the wall-stick countdown: dt less under pull-off input, otherwise back to wallStickTime; its laws are the three lemmas below |
| Motion.HeldCountsDown | Assets/Scripts/Player.cs:115-116 | while it has not run out, the countdown under input that pulls off the wall loses exactly dt per tick |
| Motion.HeldInputUnsticks | Assets/Scripts/Player.cs:107-124 | holding pull-off input for n ticks with n * dt >= the time left makes the countdown run out within those ticks |
| Motion.ToggledInputStaysStuck | Assets/Scripts/Player.cs:107-124 | input that never pulls off on two ticks in a row never lets a full countdown run out (wallStickTime > dt) |
| Motion.Displacement | Assets/Scripts/Player.cs:133-135 | the displacement is v * dt + 0.5 * (0, gravity) * dt^2 |
| Motion.SettleVelocityY | Assets/Scripts/Player.cs:138-151 | a floor or ceiling contact gives 0; otherwise the result is the largest of the integrated speed, the terminal speed fallingGravity * 0.5 and, when sliding, -wallSpeedSlideMax |
| Motion.WallJumpForce | Assets/Scripts/Player.cs:225-241 | no contract: defines the wall-jump velocity, the chosen preset with its x times -wallDir; `WallJumpAway` states the mirroring |
| Motion.JumpChoice | Assets/Scripts/Player.cs:221-253 | no contract: defines the answer to a press: a wall jump when sliding, a ground jump when grounded, otherwise none; `JumpRules` states its laws |
| Motion.JumpRules | Assets/Scripts/Player.cs:221-253 | a jump is accepted iff wall sliding or grounded, and sliding wins; climb iff input equals the wall side, neutral iff no input, leap otherwise, with x negated against a right wall and kept against a left one; a ground jump gives (vx, jumpVelocity) |
| Motion.WallJumpAway | Assets/Scripts/Player.cs:225-241 | the chosen preset's x is negated against a right wall and kept against a left one, so presets with x >= 0 push away from the wall |
| Motion.Player.constructor | Assets/Scripts/Player.cs:9-49 | the component as configured: the tunables and presets as given, no jump rising, the apex reached, no height recorded, no jump queued, no attack, zero velocity and input |
| Motion.Player.Start | Assets/Scripts/Player.cs:53-65 | the four derived constants equal `DeriveConstants` of the tunables, and the class invariant holds |
| Motion.Player.SetDirectionalInput | Assets/Scripts/Player.cs:67-70 | stores the input |
| Motion.Player.GetDirectionalInput | Assets/Scripts/Player.cs:71-74 | returns the stored input |
| Motion.Player.Update | Assets/Scripts/Player.cs:76-93 | isWallSliding = (left or right) and not below; the apex fires iff not reached and the max lies above y, and then clears risingJump and sets the falling gravity; otherwise nothing of the jump changes; the max takes in y |
| Motion.Player.SteerHorizontal | Assets/Scripts/Player.cs:97-105 | a grounded, attacking actor's input is zeroed; the target is input.x * moveSpeed; vx is smoothed with the grounded or airborne time |
| Motion.Player.StickToWall | Assets/Scripts/Player.cs:107-124 | while sliding with time left, vx and the smoothing are zeroed and the countdown takes one `StickStep`; with none left it resets; the countdown never exceeds wallStickTime |
| Motion.Player.SettleVelocity | Assets/Scripts/Player.cs:138-155 | vy follows `SettleVelocityY`; vx is zeroed on a side contact and otherwise kept |
| Motion.Player.BeginTick | Assets/Scripts/Player.cs:97-130 | attack freeze, smoothing, wall stick, then a queued jump replaces the velocity and resets gravity and the apex tracker; the queue is emptied |
| Motion.Player.FixedUpdate | Assets/Scripts/Player.cs:95-156 | the whole tick: the controller resolves the Verlet displacement of the post-jump velocity; position and contacts become that resolution; the velocity is settled against the new contacts; the ray counts and spacings are kept, the ray origins are the corners of the position before the move, and the x scale flips exactly when the facing direction changed; both invariants are kept |
| Motion.Player.OnJumpInputDown | Assets/Scripts/Player.cs:221-253 | returns whether `JumpChoice` accepts the press; on acceptance it queues that velocity, otherwise the queue is unchanged; the wall side is recorded when sliding |
| Motion.Player.OnJumpInputUp | Assets/Scripts/Player.cs:255-261 | gravity becomes the release gravity exactly when the jump is still rising; otherwise nothing changes |
| Motion.Player.OnAttackInputDown | Assets/Scripts/Player.cs:263-275 | an attack is requested unless the actor is airborne and wall sliding |
| Motion.Player.Jump | Assets/Scripts/Player.cs:277-284 | velocity becomes the force, gravity is back to rising, the jump is rising with no apex and no height recorded |
| Controls.Decremented | Assets/Scripts/PlayerInput.cs:24-25 | a positive counter loses exactly one (and stays >= 0); any other counter is unchanged |
| Controls.Attempts | Assets/Scripts/PlayerInput.cs:26 | no contract: defines when an update asks for a jump: the key went down or the decremented buffer still runs |
| Controls.BufferStep | Assets/Scripts/PlayerInput.cs:24-31 | the counter stays in [0, jumpBuffer]; a refused key press with the decremented counter at 0 arms it to jumpBuffer; only that case moves it away from the decremented value |
| Controls.RunStaysInRange | Assets/Scripts/PlayerInput.cs:10-11 | over any sequence of frames, a counter starting in [0, jumpBuffer] stays there |
| Controls.RunningBufferCountsDown | Assets/Scripts/PlayerInput.cs:24-31 | a running buffer loses exactly one per frame for as long as it runs, whatever the key and the Player's answers |
| Controls.RefusedPressIsRetried | Assets/Scripts/PlayerInput.cs:24-31 | a press refused with no buffer running is retried on each of the next jumpBuffer - 1 frames |
| Controls.PlayerInput.constructor | Assets/Scripts/PlayerInput.cs:8-16 | the component as configured: its Player and buffer length as given, no buffer running |
| Controls.PlayerInput.Update | Assets/Scripts/PlayerInput.cs:19-41 | input is forwarded; a jump is asked for iff the key went down or the decremented counter is > 0; the counter follows `BufferStep`; the wall side is recorded exactly when a jump was asked for while wall sliding; release and attack are forwarded exactly on their events |
| Controls.PlayerInput.BufferedJump | Assets/Scripts/PlayerInput.cs:24-31 | the buffer part of Update: it decrements, asks the Player for a jump and arms the buffer, as `BufferStep` states; the wall side is recorded exactly when a jump was asked for while wall sliding |

## Left out

- The Unity component lifecycle is not modelled: `Awake`, `GetComponent` and the `RequireComponent` wiring. The constructors take the collaborators and tunables instead.
- `Debug.Log` and `Debug.DrawRay` are left out. They are diagnostic output only.
- `Physics2D.Raycast` is the abstract `Caster`, so level geometry, the collision mask and tunnelling are outside the model. Only `0 <= d <= length` is assumed, and for "the closest hit wins" also `Consistent`.
- `collider.bounds` is a box of fixed size centred on the transform position. A collider offset is not modelled.
- `transform.Translate` adds the displacement to the position. This assumes an unrotated actor, so that the flipped x scale does not affect the movement.
- `Mathf.SmoothDamp` is the opaque parameter `damp`. No property of the smoothed velocity is claimed.
- `HandleAnimations`, the `Attacking` coroutine and all `Animator` calls are left out. `isAttacking` is a field that this external collaborator writes. The hand-over from `initAttack` to `isAttacking` is not modelled.
- Input polling is left out. The axes and the key and mouse events are parameters.
- Float rounding and the `Vector3` z component of `velocity` are left out. Floats are reals, and `Move` takes a `Vector2`.
- The trajectory and peak-height claims are left out (peak at `timeToJumpApex`, a shorter peak after an early release). Only the closed-form relations of `JumpArc` are proved, not an integration over ticks.
- The interleaving of `Update` and `FixedUpdate` frame rates is left out. Each is a method that can be called on its own.
- Motion.Player.Start: requires `timeToJumpApex != 0` and `minJumpHeight != 0`. With reals there is no infinity or NaN to model the division by zero the engine would carry on with.
- Controller.HorizontalClip: bounds the clipped movement by max(|dx|, skin) and not by |dx|. With |dx| < skin the probing ray is two skins long, so a hit can move an actor that had no horizontal intent by up to one skin toward the wall. This matches the code, which does this.
- The facing direction is updated, and the sprite flipped, inside `Controller2D.Move`, as the code does. A separate step of the caller does not do it.
- A buffered jump that the Player accepts does not clear the buffer, as the code does. `RunningBufferCountsDown` states that the buffer keeps counting down and asking.
