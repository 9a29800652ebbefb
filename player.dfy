/** The movement state machine of Player.cs: the gravities derived from the
    jump tunables, wall-slide and apex detection, the fixed-tick integration
    with its wall-stick countdown and velocity clamps, and the jump and attack
    requests. The pure functions state what one step computes; the class
    `Player` holds the fields the script updates in place. */
module Motion {
  import opened Geometry
  import opened Controller

  /** Mathf.SmoothDamp as FixedUpdate calls it: from the current value, the
      target, the smoothing velocity and the smoothing time, the new value and
      the new smoothing velocity. */
  type Damper = (real, real, real, real) -> (real, real)

  /** A height that may still be Mathf.NegativeInfinity. */
  datatype Height = NegativeInfinity | Finite(y: real)

  /** The height h lies strictly above y. */
  predicate Exceeds(h: Height, y: real) {
    h.Finite? && h.y > y
  }

  /** Mathf.Max(y, h): the running maximum never goes down. */
  function HighestOf(h: Height, y: real): (r: Height)
    ensures r.Finite? && r.y >= y
    ensures h.Finite? ==> r.y >= h.y
    ensures r == h || r == Finite(y)
  {
    if Exceeds(h, y) then h else Finite(y)
  }

  /** The apex test of one frame at height y: the jump has not yet passed its
      apex and the highest point seen so far lies above y. */
  predicate ApexFires(reachedApex: bool, highest: Height, y: real) {
    !reachedApex && Exceeds(highest, y)
  }

  /** How many of the frames at heights `ys` fire the apex test, starting from
      the given tracker state, when no jump starts in between. */
  function ApexFirings(reachedApex: bool, highest: Height, ys: seq<real>): nat
    decreases |ys|
  {
    if ys == [] then 0
    else
      var fires := ApexFires(reachedApex, highest, ys[0]);
      (if fires then 1 else 0) + ApexFirings(reachedApex || fires, HighestOf(highest, ys[0]), ys[1..])
  }

  /** Once the apex has been reached, no later frame fires the test again. */
  lemma {:induction false} NoFiringAfterApex(highest: Height, ys: seq<real>)
    ensures ApexFirings(true, highest, ys) == 0
    decreases |ys|
  {
    if ys != [] {
      NoFiringAfterApex(HighestOf(highest, ys[0]), ys[1..]);
    }
  }

  /** Between two jumps the apex test fires at most once, whatever the
      heights, and not at all once the apex was reached. */
  lemma {:induction false} ApexFiresAtMostOnce(reachedApex: bool, highest: Height, ys: seq<real>)
    ensures ApexFirings(reachedApex, highest, ys) <= 1
    ensures reachedApex ==> ApexFirings(reachedApex, highest, ys) == 0
    decreases |ys|
  {
    if ys != [] {
      var fires := ApexFires(reachedApex, highest, ys[0]);
      if reachedApex || fires {
        NoFiringAfterApex(HighestOf(highest, ys[0]), ys[1..]);
      } else {
        ApexFiresAtMostOnce(false, HighestOf(highest, ys[0]), ys[1..]);
      }
    }
  }

  /** After a jump starts (no apex reached, no height recorded), a frame lower
      than an earlier frame of the same jump makes the apex test fire. */
  lemma {:induction false} DescentFiresApex(ys: seq<real>, i: nat, j: nat)
    requires i < j < |ys| && ys[j] < ys[i]
    ensures ApexFirings(false, NegativeInfinity, ys) == 1
  {
    ApexFiresAtMostOnce(false, NegativeInfinity, ys);
    FiresBeforeDescent(false, NegativeInfinity, ys, i, j);
  }

  /** Some frame fires when a frame lies below an earlier one and the apex
      has not been reached yet. */
  lemma {:induction false} FiresBeforeDescent(reachedApex: bool, highest: Height, ys: seq<real>, i: nat, j: nat)
    requires !reachedApex
    requires i < j < |ys| && ys[j] < ys[i]
    ensures ApexFirings(reachedApex, highest, ys) >= 1
    decreases |ys|
  {
    var fires := ApexFires(reachedApex, highest, ys[0]);
    if !fires {
      var next := HighestOf(highest, ys[0]);
      if i == 0 {
        // ys[0] is now recorded; the frame at j lies below it
        HighestFires(next, ys[1..], j - 1, ys[0]);
      } else {
        FiresBeforeDescent(false, next, ys[1..], i - 1, j - 1);
      }
    }
  }

  /** With the apex not reached and a recorded height of at least h, a later
      frame below h makes some frame fire. */
  lemma {:induction false} HighestFires(highest: Height, ys: seq<real>, j: nat, h: real)
    requires j < |ys| && highest.Finite? && highest.y >= h && ys[j] < h
    ensures ApexFirings(false, highest, ys) >= 1
    decreases |ys|
  {
    if !ApexFires(false, highest, ys[0]) {
      HighestFires(HighestOf(highest, ys[0]), ys[1..], j - 1, h);
    }
  }

  // ---------------------------------------------------------------------------
  // Gravity and jump constants

  /** The gravity and speeds Start derives from the tunables. */
  datatype JumpConstants = JumpConstants(gravity: real, jumpVelocity: real, jumpReleaseGravity: real, fallingGravity: real)

  /** -(2 * jumpHeight) / timeToJumpApex^2 */
  function RisingGravity(jumpHeight: real, timeToJumpApex: real): real
    requires timeToJumpApex != 0.0
  {
    -(2.0 * jumpHeight) / (timeToJumpApex * timeToJumpApex)
  }

  function DeriveConstants(jumpHeight: real, timeToJumpApex: real, minJumpHeight: real, fallGravityMultiplier: real): JumpConstants
    requires timeToJumpApex != 0.0 && minJumpHeight != 0.0
  {
    var gravity := RisingGravity(jumpHeight, timeToJumpApex);
    var jumpVelocity := Abs(gravity) * timeToJumpApex;
    JumpConstants(gravity, jumpVelocity, (-1.0 * jumpVelocity * jumpVelocity) / (2.0 * minJumpHeight), gravity * fallGravityMultiplier)
  }

  /** For positive tunables the constants describe the intended jump: gravity
      pulls down; the take-off speed is 2h/t; under the rising gravity the
      speed reaches zero exactly at timeToJumpApex, at height jumpHeight; the
      release gravity stops the same take-off speed within minJumpHeight and is
      the rising gravity scaled by jumpHeight / minJumpHeight, so it is at least
      as steep when minJumpHeight <= jumpHeight; the falling gravity is the
      rising one times the multiplier. */
  lemma JumpArc(jumpHeight: real, timeToJumpApex: real, minJumpHeight: real, fallGravityMultiplier: real)
    requires jumpHeight > 0.0 && timeToJumpApex > 0.0 && minJumpHeight > 0.0
    ensures var c := DeriveConstants(jumpHeight, timeToJumpApex, minJumpHeight, fallGravityMultiplier);
            c.gravity < 0.0 &&
            c.jumpVelocity == 2.0 * jumpHeight / timeToJumpApex &&
            c.jumpVelocity + c.gravity * timeToJumpApex == 0.0 &&
            c.jumpVelocity * timeToJumpApex + 0.5 * c.gravity * timeToJumpApex * timeToJumpApex == jumpHeight &&
            c.jumpVelocity * c.jumpVelocity == -2.0 * c.jumpReleaseGravity * minJumpHeight &&
            c.jumpReleaseGravity == c.gravity * (jumpHeight / minJumpHeight) &&
            (minJumpHeight <= jumpHeight ==> c.jumpReleaseGravity <= c.gravity) &&
            c.fallingGravity == c.gravity * fallGravityMultiplier
  {
  }

  /** The default tunables (jumpHeight 4, timeToJumpApex 0.4, minJumpHeight
      0.5, fallGravityMultiplier 2) give gravity -50, take-off speed 20, release
      gravity -400 and falling gravity -100. */
  lemma DefaultJumpConstants()
    ensures DeriveConstants(4.0, 0.4, 0.5, 2.0) == JumpConstants(-50.0, 20.0, -400.0, -100.0)
  {
  }

  // ---------------------------------------------------------------------------
  // Walls

  /** The contacts of a wall slide: against a side, not on the floor. */
  predicate WallSliding(c: CollisionInfo) {
    (c.left || c.right) && !c.below
  }

  /** The side of the wall: -1 when the left flag is set, otherwise 1. */
  function WallDir(c: CollisionInfo): int {
    if c.left then -1 else 1
  }

  /** After any move, a sliding actor's wall direction names the one side it
      touches. */
  lemma SlidingWallSide(cast: Caster, o: RaycastOrigins, hSpacing: real, vSpacing: real, hCount: nat, vCount: nat,
                        faceDir: int, delta: Vec2)
    ensures var c := Resolve(cast, o, hSpacing, vSpacing, hCount, vCount, faceDir, delta).collisions;
            WallSliding(c) ==> (WallDir(c) == -1 <==> c.left) && (WallDir(c) == 1 <==> c.right)
  {
  }

  /** Horizontal input that pulls the actor off the wall: nonzero and not toward it. */
  predicate PullsOff(inputX: real, wallDir: real) {
    inputX != wallDir && inputX != 0.0
  }

  /** The wall-stick countdown of one fixed tick spent wall sliding: while it
      runs, pulling off counts it down and any other input restarts it; once it
      has run out it restarts. */
  function StickStep(timer: real, inputX: real, wallDir: real, dt: real, wallStickTime: real): real {
    if timer > 0.0 && PullsOff(inputX, wallDir) then timer - dt else wallStickTime
  }

  /** The countdown after n ticks of holding the same input. */
  function HeldTimer(timer: real, inputX: real, wallDir: real, dt: real, wallStickTime: real, n: nat): real {
    if n == 0 then timer else StickStep(HeldTimer(timer, inputX, wallDir, dt, wallStickTime, n - 1), inputX, wallDir, dt, wallStickTime)
  }

  /** While it has not run out, a countdown under input that pulls off loses
      exactly dt per tick. */
  lemma {:induction false} HeldCountsDown(timer: real, inputX: real, wallDir: real, dt: real, wallStickTime: real, n: nat)
    requires PullsOff(inputX, wallDir)
    requires forall j :: 0 <= j < n ==> HeldTimer(timer, inputX, wallDir, dt, wallStickTime, j) > 0.0
    ensures HeldTimer(timer, inputX, wallDir, dt, wallStickTime, n) == timer - n as real * dt
  {
    if n > 0 {
      HeldCountsDown(timer, inputX, wallDir, dt, wallStickTime, n - 1);
      assert HeldTimer(timer, inputX, wallDir, dt, wallStickTime, n - 1) > 0.0;
      assert (n as real) * dt == ((n - 1) as real) * dt + dt;
    }
  }

  /** Holding input that pulls off for n ticks with n * dt at least the time
      left lets the countdown run out within those n ticks, so that a later
      tick no longer pins the horizontal velocity. */
  lemma HeldInputUnsticks(timer: real, inputX: real, wallDir: real, dt: real, wallStickTime: real, n: nat)
    requires PullsOff(inputX, wallDir)
    requires n as real * dt >= timer
    ensures exists k :: 0 <= k <= n && HeldTimer(timer, inputX, wallDir, dt, wallStickTime, k) <= 0.0
  {
    if forall j :: 0 <= j < n ==> HeldTimer(timer, inputX, wallDir, dt, wallStickTime, j) > 0.0 {
      HeldCountsDown(timer, inputX, wallDir, dt, wallStickTime, n);
      assert HeldTimer(timer, inputX, wallDir, dt, wallStickTime, n) <= 0.0;
    }
  }

  /** The countdown after a sequence of ticks, one input each. */
  function Timeline(timer: real, inputs: seq<real>, wallDir: real, dt: real, wallStickTime: real): real
    decreases |inputs|
  {
    if inputs == [] then timer
    else Timeline(StickStep(timer, inputs[0], wallDir, dt, wallStickTime), inputs[1..], wallDir, dt, wallStickTime)
  }

  /** No two consecutive ticks both pull off the wall. */
  ghost predicate NeverPullsTwice(inputs: seq<real>, wallDir: real) {
    forall i :: 0 <= i < |inputs| - 1 ==> !(PullsOff(inputs[i], wallDir) && PullsOff(inputs[i + 1], wallDir))
  }

  /** Input that toggles between pulling off and anything else never lets a
      full countdown (wallStickTime > dt) run out: each pull-off tick is followed
      by a restart. */
  lemma {:induction false} ToggledInputStaysStuck(timer: real, inputs: seq<real>, wallDir: real, dt: real, wallStickTime: real)
    requires 0.0 < dt < wallStickTime
    requires timer == wallStickTime || (timer == wallStickTime - dt && (inputs != [] ==> !PullsOff(inputs[0], wallDir)))
    requires NeverPullsTwice(inputs, wallDir)
    ensures Timeline(timer, inputs, wallDir, dt, wallStickTime) >= wallStickTime - dt > 0.0
    decreases |inputs|
  {
    if inputs != [] {
      var next := StickStep(timer, inputs[0], wallDir, dt, wallStickTime);
      assert NeverPullsTwice(inputs[1..], wallDir) by {
        forall i | 0 <= i < |inputs[1..]| - 1
          ensures !(PullsOff(inputs[1..][i], wallDir) && PullsOff(inputs[1..][i + 1], wallDir))
        {
          assert inputs[1..][i] == inputs[i + 1] && inputs[1..][i + 1] == inputs[i + 2];
        }
      }
      if PullsOff(inputs[0], wallDir) {
        assert next == wallStickTime - dt;
        if |inputs| > 1 {
          assert !PullsOff(inputs[1], wallDir);
          assert inputs[1..][0] == inputs[1];
        }
      } else {
        assert next == wallStickTime;
      }
      ToggledInputStaysStuck(next, inputs[1..], wallDir, dt, wallStickTime);
    }
  }

  // ---------------------------------------------------------------------------
  // One fixed tick

  /** The displacement of a Verlet step: v * dt + 0.5 * (0, gravity) * dt^2. */
  function Displacement(v: Vec2, gravity: real, dt: real): (d: Vec2)
    ensures d.x == v.x * dt
    ensures d.y == v.y * dt + 0.5 * gravity * dt * dt
  {
    v.Scale(dt).Plus(Vec2(0.0, gravity).Scale(0.5 * dt * dt))
  }

  /** The vertical velocity at the end of a fixed tick: without a floor or
      ceiling contact it is the largest of the integrated velocity, the terminal
      velocity (half the falling gravity) and, while wall sliding, the slide
      limit; a floor or ceiling contact stops it. */
  function SettleVelocityY(vy: real, gravity: real, dt: real, fallingGravity: real, sliding: bool, wallSpeedSlideMax: real,
                           above: bool, below: bool): (r: real)
    ensures above || below ==> r == 0.0
    ensures !(above || below) ==>
              r >= vy + gravity * dt && r >= fallingGravity * 0.5 && (sliding ==> r >= -wallSpeedSlideMax)
    ensures !(above || below) ==>
              r == vy + gravity * dt || r == fallingGravity * 0.5 || (sliding && r == -wallSpeedSlideMax)
  {
    var v := vy + gravity * dt;
    var terminal := if v < fallingGravity * 0.5 then fallingGravity * 0.5 else v;
    var slide := if sliding && terminal < -wallSpeedSlideMax then -wallSpeedSlideMax else terminal;
    if above || below then 0.0 else slide
  }

  // ---------------------------------------------------------------------------
  // Jump requests

  /** The wall-jump velocity: the climb preset when the input points into the
      wall, the neutral one without horizontal input, the leap one otherwise;
      its x is mirrored away from the wall. */
  function WallJumpForce(wallDir: int, inputX: real, climb: Vec2, neutral: Vec2, leap: Vec2): Vec2 {
    var preset := if wallDir as real == inputX then climb else if inputX == 0.0 then neutral else leap;
    Vec2((-wallDir) as real * preset.x, preset.y)
  }

  /** The answer to a jump press: a wall jump when sliding, a ground jump when
      on the floor, a refusal otherwise. */
  function JumpChoice(sliding: bool, c: CollisionInfo, inputX: real, vx: real, jumpVelocity: real,
                      climb: Vec2, neutral: Vec2, leap: Vec2): Option<Vec2>
  {
    if sliding then Some(WallJumpForce(WallDir(c), inputX, climb, neutral, leap))
    else if c.below then Some(Vec2(vx, jumpVelocity))
    else None
  }

  /** A jump is accepted exactly when wall sliding or grounded, and sliding wins.
      A wall jump takes the climb preset exactly when the input points into the
      wall, the neutral one exactly without horizontal input, the leap one
      otherwise; its x is negated on a right wall and kept on a left one, so
      that a preset with x >= 0 pushes away from the wall. A ground jump keeps
      the horizontal velocity and takes off at the jump velocity. */
  lemma JumpRules(sliding: bool, c: CollisionInfo, inputX: real, vx: real, jumpVelocity: real,
                  climb: Vec2, neutral: Vec2, leap: Vec2)
    ensures JumpChoice(sliding, c, inputX, vx, jumpVelocity, climb, neutral, leap).Some? <==> sliding || c.below
    ensures var j := JumpChoice(sliding, c, inputX, vx, jumpVelocity, climb, neutral, leap);
            sliding && inputX == WallDir(c) as real ==> j == Some(Vec2(if c.left then climb.x else -climb.x, climb.y))
    ensures var j := JumpChoice(sliding, c, inputX, vx, jumpVelocity, climb, neutral, leap);
            sliding && inputX == 0.0 ==> j == Some(Vec2(if c.left then neutral.x else -neutral.x, neutral.y))
    ensures var j := JumpChoice(sliding, c, inputX, vx, jumpVelocity, climb, neutral, leap);
            sliding && inputX != WallDir(c) as real && inputX != 0.0 ==> j == Some(Vec2(if c.left then leap.x else -leap.x, leap.y))
    ensures var j := JumpChoice(sliding, c, inputX, vx, jumpVelocity, climb, neutral, leap);
            sliding && climb.x >= 0.0 && neutral.x >= 0.0 && leap.x >= 0.0 ==>
              (c.left ==> j.value.x >= 0.0) && (!c.left ==> j.value.x <= 0.0)
    ensures !sliding && c.below ==> JumpChoice(sliding, c, inputX, vx, jumpVelocity, climb, neutral, leap) == Some(Vec2(vx, jumpVelocity))
  {
    if sliding {
      if c.left {
        WallJumpAway(-1, inputX, climb, neutral, leap);
      } else {
        WallJumpAway(1, inputX, climb, neutral, leap);
      }
    }
  }

  /** The wall-jump presets, mirrored away from the wall side: the x of the
      chosen preset is negated against a right wall (side 1) and kept against
      a left one (side -1). */
  lemma WallJumpAway(wallDir: int, inputX: real, climb: Vec2, neutral: Vec2, leap: Vec2)
    requires wallDir == 1 || wallDir == -1
    ensures var f := WallJumpForce(wallDir, inputX, climb, neutral, leap);
            var p := if inputX == wallDir as real then climb else if inputX == 0.0 then neutral else leap;
            f == Vec2(if wallDir == 1 then -p.x else p.x, p.y)
    ensures var f := WallJumpForce(wallDir, inputX, climb, neutral, leap);
            climb.x >= 0.0 && neutral.x >= 0.0 && leap.x >= 0.0 ==> (wallDir == 1 ==> f.x <= 0.0) && (wallDir == -1 ==> f.x >= 0.0)
  {
  }

  // ---------------------------------------------------------------------------
  // The component

  /** Player: the tunables are configuration and stay fixed; everything else
      is the state the script updates. `isAttacking` is written by the animation
      collaborator. */
  class Player {
    const minJumpHeight: real
    const jumpHeight: real
    const timeToJumpApex: real
    const fallGravityMultiplier: real
    const moveSpeed: real

    var gravity: real
    var jumpReleaseGravity: real
    var fallingGravity: real
    var jumpVelocity: real

    const accelerationTimeAirbourne: real := 0.2
    const accelerationTimeGrounded: real := 0.1
    var velocityxSmoothing: real
    var targetVelocityX: real

    var directionalInput: Vec2
    var wallDirX: int

    var risingJump: bool
    var reachedApex: bool
    var maxHeightReached: Height

    var isWallSliding: bool
    const wallSpeedSlideMax: real
    const wallStickTime: real := 0.15
    var timeToWallUnstick: real
    const wallJumpClimb: Vec2
    const wallJumpNeutral: Vec2
    const wallJumpLeap: Vec2

    var isJump: bool
    var jumpForce: Vec2

    var initAttack: bool
    var isAttacking: bool

    var velocity: Vec2

    const controller: Controller2D

    /** What Start establishes and every step keeps: the derived constants
        match the tunables; gravity is in one of its three modes; a rising jump
        has not reached its apex and still has the rising or the release gravity;
        the wall-stick countdown never exceeds its full length. */
    ghost predicate Valid()
      reads this
    {
      timeToJumpApex != 0.0 && minJumpHeight != 0.0 &&
      var c := DeriveConstants(jumpHeight, timeToJumpApex, minJumpHeight, fallGravityMultiplier);
      jumpVelocity == c.jumpVelocity && jumpReleaseGravity == c.jumpReleaseGravity && fallingGravity == c.fallingGravity &&
      (gravity == c.gravity || gravity == fallingGravity || gravity == jumpReleaseGravity) &&
      (risingJump ==> !reachedApex && (gravity == c.gravity || gravity == jumpReleaseGravity)) &&
      timeToWallUnstick <= wallStickTime
    }

    /** The component as the editor configures it, before Start. */
    constructor (controller: Controller2D, minJumpHeight: real, jumpHeight: real, timeToJumpApex: real,
                 fallGravityMultiplier: real, moveSpeed: real, wallSpeedSlideMax: real,
                 wallJumpClimb: Vec2, wallJumpNeutral: Vec2, wallJumpLeap: Vec2)
      ensures this.controller == controller
      ensures this.minJumpHeight == minJumpHeight && this.jumpHeight == jumpHeight
      ensures this.timeToJumpApex == timeToJumpApex && this.fallGravityMultiplier == fallGravityMultiplier
      ensures this.moveSpeed == moveSpeed && this.wallSpeedSlideMax == wallSpeedSlideMax
      ensures this.wallJumpClimb == wallJumpClimb && this.wallJumpNeutral == wallJumpNeutral && this.wallJumpLeap == wallJumpLeap
      ensures !risingJump && reachedApex && maxHeightReached == NegativeInfinity
      ensures !isWallSliding && timeToWallUnstick == 0.0 && !isJump && !initAttack && !isAttacking
      ensures velocity == Zero && directionalInput == Zero
    {
      this.controller := controller;
      this.minJumpHeight := minJumpHeight;
      this.jumpHeight := jumpHeight;
      this.timeToJumpApex := timeToJumpApex;
      this.fallGravityMultiplier := fallGravityMultiplier;
      this.moveSpeed := moveSpeed;
      this.wallSpeedSlideMax := wallSpeedSlideMax;
      this.wallJumpClimb := wallJumpClimb;
      this.wallJumpNeutral := wallJumpNeutral;
      this.wallJumpLeap := wallJumpLeap;
      gravity, jumpReleaseGravity, fallingGravity, jumpVelocity := 0.0, 0.0, 0.0, 0.0;
      velocityxSmoothing, targetVelocityX := 0.0, 0.0;
      directionalInput, wallDirX := Zero, 0;
      risingJump, reachedApex, maxHeightReached := false, true, NegativeInfinity;
      isWallSliding, timeToWallUnstick := false, 0.0;
      isJump, jumpForce := false, Zero;
      initAttack, isAttacking := false, false;
      velocity := Zero;
    }

    /** Start: derive the gravities and the take-off speed from the tunables. */
    method Start()
      requires timeToJumpApex != 0.0 && minJumpHeight != 0.0
      requires !risingJump && timeToWallUnstick <= wallStickTime
      modifies this`gravity, this`jumpVelocity, this`jumpReleaseGravity, this`fallingGravity
      ensures JumpConstants(gravity, jumpVelocity, jumpReleaseGravity, fallingGravity)
              == DeriveConstants(jumpHeight, timeToJumpApex, minJumpHeight, fallGravityMultiplier)
      ensures Valid()
    {
      gravity := -(2.0 * jumpHeight) / (timeToJumpApex * timeToJumpApex);
      jumpVelocity := Abs(gravity) * timeToJumpApex;
      jumpReleaseGravity := (-1.0 * jumpVelocity * jumpVelocity) / (2.0 * minJumpHeight);
      fallingGravity := gravity * fallGravityMultiplier;
    }

    /** SetDirectionalInput */
    method SetDirectionalInput(input: Vec2)
      modifies this`directionalInput
      ensures directionalInput == input
    {
      directionalInput := input;
    }

    /** GetDirectionalInput */
    method GetDirectionalInput() returns (input: Vec2)
      ensures input == directionalInput
    {
      input := directionalInput;
    }

    /** Update (the frame callback, without the animation part): wall sliding
        is recomputed from the contacts; the first frame of a jump that finds
        the actor below the highest point reached marks the apex, ends the
        rising phase and switches to the falling gravity; the running maximum
        takes in the current height. */
    method Update()
      requires Valid()
      modifies this`isWallSliding, this`risingJump, this`reachedApex, this`gravity, this`maxHeightReached
      ensures Valid()
      ensures isWallSliding == WallSliding(controller.collisions)
      ensures var fired := !old(reachedApex) && Exceeds(old(maxHeightReached), controller.position.y);
              (fired ==> !risingJump && reachedApex && gravity == fallingGravity) &&
              (!fired ==> risingJump == old(risingJump) && reachedApex == old(reachedApex) && gravity == old(gravity))
      ensures maxHeightReached == HighestOf(old(maxHeightReached), controller.position.y)
    {
      isWallSliding := false;
      if (controller.collisions.left || controller.collisions.right) && !controller.collisions.below {
        isWallSliding := true;
      }

      if !reachedApex && Exceeds(maxHeightReached, controller.position.y) {
        risingJump := false;
        reachedApex := true;
        gravity := fallingGravity;
      }
      maxHeightReached := HighestOf(maxHeightReached, controller.position.y);
    }

    /** The steering part of FixedUpdate: attack input freezes a grounded
        actor, and the horizontal velocity is smoothed toward the target speed. */
    method SteerHorizontal(damp: Damper)
      modifies this`directionalInput, this`targetVelocityX, this`velocity, this`velocityxSmoothing
      ensures directionalInput == if old(isAttacking) && controller.collisions.below then Zero else old(directionalInput)
      ensures targetVelocityX == directionalInput.x * moveSpeed
      ensures var smoothed := damp(old(velocity.x), targetVelocityX, old(velocityxSmoothing),
                                   if controller.collisions.below then accelerationTimeGrounded else accelerationTimeAirbourne);
              velocity == Vec2(smoothed.0, old(velocity.y)) && velocityxSmoothing == smoothed.1
    {
      if isAttacking && controller.collisions.below {
        directionalInput := Vec2(0.0, 0.0);
      }
      targetVelocityX := directionalInput.x * moveSpeed;
      var smoothed := damp(velocity.x, targetVelocityX, velocityxSmoothing,
                           if controller.collisions.below then accelerationTimeGrounded else accelerationTimeAirbourne);
      velocity := velocity.(x := smoothed.0);
      velocityxSmoothing := smoothed.1;
    }

    /** The wall-stick part of FixedUpdate: while the countdown runs, a
        sliding actor's horizontal velocity and smoothing are pinned to zero and
        the countdown takes one StickStep; a sliding actor whose countdown ran out
        restarts it. */
    method StickToWall(rawInputX: real, dt: real)
      requires timeToWallUnstick <= wallStickTime && dt > 0.0
      modifies this`velocity, this`velocityxSmoothing, this`timeToWallUnstick
      ensures timeToWallUnstick <= wallStickTime
      ensures timeToWallUnstick == if isWallSliding
                                   then StickStep(old(timeToWallUnstick), rawInputX, WallDir(controller.collisions) as real, dt, wallStickTime)
                                   else old(timeToWallUnstick)
      ensures var stuck := isWallSliding && old(timeToWallUnstick) > 0.0;
              velocity == (if stuck then old(velocity).(x := 0.0) else old(velocity)) &&
              velocityxSmoothing == (if stuck then 0.0 else old(velocityxSmoothing))
    {
      if isWallSliding {
        if timeToWallUnstick > 0.0 {
          var wallDir: real := if controller.collisions.left then -1.0 else 1.0;
          velocity := velocity.(x := 0.0);
          velocityxSmoothing := 0.0;
          if rawInputX != wallDir && rawInputX != 0.0 {
            timeToWallUnstick := timeToWallUnstick - dt;
          } else {
            timeToWallUnstick := wallStickTime;
          }
        } else {
          timeToWallUnstick := wallStickTime;
        }
      }
    }

    /** The velocity part of FixedUpdate after the move: integrate gravity,
        clamp to the terminal and wall-slide speeds, and stop against the
        contacts the move found. */
    method SettleVelocity(dt: real)
      modifies this`velocity
      ensures var c := controller.collisions;
              velocity == Vec2(if c.left || c.right then 0.0 else old(velocity.x),
                               SettleVelocityY(old(velocity.y), gravity, dt, fallingGravity, isWallSliding, wallSpeedSlideMax,
                                               c.above, c.below))
    {
      velocity := velocity.(y := velocity.y + gravity * dt);
      // terminal velocity
      if velocity.y < fallingGravity * 0.5 {
        velocity := velocity.(y := fallingGravity * 0.5);
      }
      if isWallSliding && velocity.y < -wallSpeedSlideMax {
        velocity := velocity.(y := -wallSpeedSlideMax);
      }
      if controller.collisions.above || controller.collisions.below {
        velocity := velocity.(y := 0.0);
      }
      if controller.collisions.left || controller.collisions.right {
        velocity := velocity.(x := 0.0);
      }
    }

    /** The part of FixedUpdate before the move: steer, stick to the wall and
        take off with a queued jump. */
    method BeginTick(rawInputX: real, dt: real, damp: Damper)
      requires Valid()
      requires dt > 0.0
      modifies this`directionalInput, this`targetVelocityX, this`velocity, this`velocityxSmoothing,
               this`timeToWallUnstick, this`isJump, this`gravity, this`risingJump, this`reachedApex,
               this`maxHeightReached
      ensures Valid()
      ensures directionalInput == if old(isAttacking) && controller.collisions.below then Zero else old(directionalInput)
      ensures targetVelocityX == directionalInput.x * moveSpeed
      ensures timeToWallUnstick == if isWallSliding
                                   then StickStep(old(timeToWallUnstick), rawInputX, WallDir(controller.collisions) as real, dt, wallStickTime)
                                   else old(timeToWallUnstick)
      ensures var smoothTime := if controller.collisions.below then accelerationTimeGrounded else accelerationTimeAirbourne;
              var smoothed := damp(old(velocity.x), targetVelocityX, old(velocityxSmoothing), smoothTime);
              var stuck := isWallSliding && old(timeToWallUnstick) > 0.0;
              velocityxSmoothing == (if stuck then 0.0 else smoothed.1) &&
              velocity == (if old(isJump) then old(jumpForce) else Vec2(if stuck then 0.0 else smoothed.0, old(velocity.y))) &&
              gravity == (if old(isJump) then RisingGravity(jumpHeight, timeToJumpApex) else old(gravity))
      ensures !isJump
      ensures old(isJump) ==> risingJump && !reachedApex && maxHeightReached == NegativeInfinity
      ensures !old(isJump) ==> risingJump == old(risingJump) && reachedApex == old(reachedApex) && maxHeightReached == old(maxHeightReached)
    {
      SteerHorizontal(damp);
      StickToWall(rawInputX, dt);
      if isJump {
        Jump(jumpForce);
        isJump := false;
      }
    }

    /** FixedUpdate: one physics tick of length dt. `rawInputX` is the raw
        horizontal axis, `damp` the smoother and `cast` the collision layer.
        A queued jump replaces the velocity; the Verlet displacement is resolved
        by the controller, whose contacts then settle the velocity. */
    method FixedUpdate(rawInputX: real, dt: real, damp: Damper, cast: Caster)
      requires Valid() && controller.Valid()
      requires dt > 0.0
      modifies this`directionalInput, this`targetVelocityX, this`velocity, this`velocityxSmoothing,
               this`timeToWallUnstick, this`isJump, this`gravity, this`risingJump, this`reachedApex,
               this`maxHeightReached, controller
      ensures Valid() && controller.Valid()
      ensures controller.horizontalRayCount == old(controller.horizontalRayCount)
      ensures controller.verticalRayCount == old(controller.verticalRayCount)
      ensures controller.horizontalRaySpacing == old(controller.horizontalRaySpacing)
      ensures controller.verticalRaySpacing == old(controller.verticalRaySpacing)
      ensures controller.raycastOrigins == Corners(old(controller.position), controller.size)
      ensures controller.scaleX == if controller.collisions.faceDir != old(controller.collisions.faceDir)
                                   then -old(controller.scaleX) else old(controller.scaleX)
      ensures directionalInput == if old(isAttacking && controller.collisions.below) then Zero else old(directionalInput)
      ensures targetVelocityX == directionalInput.x * moveSpeed
      ensures timeToWallUnstick == if old(isWallSliding)
                                   then StickStep(old(timeToWallUnstick), rawInputX, WallDir(old(controller.collisions)) as real, dt, wallStickTime)
                                   else old(timeToWallUnstick)
      ensures var smoothTime := if old(controller.collisions.below) then accelerationTimeGrounded else accelerationTimeAirbourne;
              var smoothed := damp(old(velocity.x), targetVelocityX, old(velocityxSmoothing), smoothTime);
              var stuck := old(isWallSliding) && old(timeToWallUnstick) > 0.0;
              var v := if old(isJump) then old(jumpForce) else Vec2(if stuck then 0.0 else smoothed.0, old(velocity.y));
              var g := if old(isJump) then RisingGravity(jumpHeight, timeToJumpApex) else old(gravity);
              var r := old(controller.Resolved(cast, Displacement(v, g, dt)));
              velocityxSmoothing == (if stuck then 0.0 else smoothed.1) &&
              gravity == g &&
              controller.position == old(controller.position).Plus(r.delta) &&
              controller.collisions == r.collisions &&
              velocity == Vec2(if r.collisions.left || r.collisions.right then 0.0 else v.x,
                               SettleVelocityY(v.y, g, dt, fallingGravity, old(isWallSliding), wallSpeedSlideMax,
                                               r.collisions.above, r.collisions.below))
      ensures !isJump
      ensures old(isJump) ==> risingJump && !reachedApex && maxHeightReached == NegativeInfinity
      ensures !old(isJump) ==> risingJump == old(risingJump) && reachedApex == old(reachedApex) && maxHeightReached == old(maxHeightReached)
    {
      BeginTick(rawInputX, dt, damp);
      // Verlet integration
      var acc := Vec2(0.0, gravity);
      var deltaPosition := velocity.Scale(dt).Plus(acc.Scale(0.5 * dt * dt));
      assert deltaPosition == Displacement(velocity, gravity, dt);
      ghost var r := controller.Resolved(cast, deltaPosition);
      controller.Move(deltaPosition, cast);
      assert controller.collisions == r.collisions;
      SettleVelocity(dt);
    }

    /** OnJumpInputDown: answer a jump press, queueing the jump for the next
        tick when it is accepted. */
    method OnJumpInputDown() returns (accepted: bool)
      requires Valid()
      modifies this`isJump, this`jumpForce, this`wallDirX
      ensures Valid()
      ensures var choice := JumpChoice(isWallSliding, controller.collisions, directionalInput.x, velocity.x, jumpVelocity,
                                       wallJumpClimb, wallJumpNeutral, wallJumpLeap);
              accepted == choice.Some? &&
              (accepted ==> isJump && jumpForce == choice.value) &&
              (!accepted ==> isJump == old(isJump) && jumpForce == old(jumpForce))
      ensures wallDirX == if isWallSliding then WallDir(controller.collisions) else old(wallDirX)
    {
      if isWallSliding {
        wallDirX := if controller.collisions.left then -1 else 1;
        // wall jump
        if wallDirX as real == directionalInput.x {
          isJump := true;
          jumpForce := Vec2((-wallDirX) as real * wallJumpClimb.x, wallJumpClimb.y);
        } else if directionalInput.x == 0.0 {
          isJump := true;
          jumpForce := Vec2((-wallDirX) as real * wallJumpNeutral.x, wallJumpNeutral.y);
        } else {
          isJump := true;
          jumpForce := Vec2((-wallDirX) as real * wallJumpLeap.x, wallJumpLeap.y);
        }
        return true;
      }
      if controller.collisions.below {
        isJump := true;
        jumpForce := Vec2(velocity.x, jumpVelocity);
        return true;
      }
      return false;
    }

    /** OnJumpInputUp: releasing the button during the rising phase switches to
        the steeper release gravity; otherwise nothing changes. */
    method OnJumpInputUp()
      requires Valid()
      modifies this`gravity
      ensures Valid()
      ensures gravity == if risingJump then jumpReleaseGravity else old(gravity)
    {
      if risingJump {
        gravity := jumpReleaseGravity;
      }
    }

    /** OnAttackInputDown: an attack starts unless the actor is airborne and
        wall sliding. */
    method OnAttackInputDown()
      requires Valid()
      modifies this`initAttack
      ensures Valid()
      ensures initAttack == (old(initAttack) || controller.collisions.below || !isWallSliding)
    {
      if controller.collisions.below {
        initAttack := true;
      } else if !isWallSliding {
        initAttack := true;
      }
    }

    /** Jump: take off with `force`, back to the rising gravity, with a new
        apex to find. */
    method Jump(force: Vec2)
      requires Valid()
      modifies this`velocity, this`gravity, this`risingJump, this`reachedApex, this`maxHeightReached
      ensures Valid()
      ensures velocity == force && gravity == RisingGravity(jumpHeight, timeToJumpApex)
      ensures risingJump && !reachedApex && maxHeightReached == NegativeInfinity
    {
      velocity := force;
      gravity := -(2.0 * jumpHeight) / (timeToJumpApex * timeToJumpApex);
      risingJump := true;
      reachedApex := false;
      maxHeightReached := NegativeInfinity;
    }
  }
}
