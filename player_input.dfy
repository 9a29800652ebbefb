/** The input shim of PlayerInput.cs: it forwards the directional input and
    the button events to the Player, and buffers a jump press that the Player
    refused, retrying it on the following frames. The key and mouse reads are
    parameters of `Update`. */
module Controls {
  import opened Geometry
  import opened Controller
  import opened Motion

  /** The buffer counter after the decrement at the start of an update: a
      positive counter loses exactly one, any other is left alone. */
  function Decremented(count: int): (r: int)
    ensures count > 0 ==> r == count - 1 && r >= 0
    ensures count <= 0 ==> r == count
  {
    if count > 0 then count - 1 else count
  }

  /** An update asks the Player for a jump when the key went down this frame
      or the decremented buffer is still running. */
  predicate Attempts(count: int, keyDown: bool) {
    keyDown || Decremented(count) > 0
  }

  /** The buffer counter after one update, given whether the jump key went
      down and, when a jump was asked for, whether the Player accepted it. */
  function BufferStep(count: int, jumpBuffer: int, keyDown: bool, accepted: bool): (r: int)
    ensures 0 <= count <= jumpBuffer ==> 0 <= r <= jumpBuffer
    ensures keyDown && !accepted && Decremented(count) == 0 ==> r == jumpBuffer
    ensures r != Decremented(count) ==> r == jumpBuffer && keyDown && !accepted && Decremented(count) == 0
  {
    var c := Decremented(count);
    if Attempts(count, keyDown) && !accepted && c == 0 then jumpBuffer else c
  }

  /** What one frame brings to the buffer: whether the jump key went down and
      whether the Player would accept a jump in that frame. */
  datatype Frame = Frame(keyDown: bool, accepted: bool)

  /** The buffer counter after a sequence of frames. */
  function Run(count: int, jumpBuffer: int, frames: seq<Frame>): int
    decreases |frames|
  {
    if frames == [] then count
    else Run(BufferStep(count, jumpBuffer, frames[0].keyDown, frames[0].accepted), jumpBuffer, frames[1..])
  }

  /** With a non-negative buffer length, a counter that starts in
      [0, jumpBuffer] stays there whatever the frames bring. */
  lemma {:induction false} RunStaysInRange(count: int, jumpBuffer: int, frames: seq<Frame>)
    requires 0 <= count <= jumpBuffer
    ensures 0 <= Run(count, jumpBuffer, frames) <= jumpBuffer
    decreases |frames|
  {
    if frames != [] {
      RunStaysInRange(BufferStep(count, jumpBuffer, frames[0].keyDown, frames[0].accepted), jumpBuffer, frames[1..]);
    }
  }

  /** A running buffer counts down by one per frame whatever the frames bring:
      after n frames with n below the counter it is n less. */
  lemma {:induction false} RunningBufferCountsDown(count: int, jumpBuffer: int, frames: seq<Frame>, n: nat)
    requires n < count && n <= |frames|
    ensures Run(count, jumpBuffer, frames[..n]) == count - n
    decreases n
  {
    if n > 0 {
      var next := BufferStep(count, jumpBuffer, frames[0].keyDown, frames[0].accepted);
      assert next == count - 1;
      assert frames[..n][1..] == frames[1..][..n - 1];
      RunningBufferCountsDown(next, jumpBuffer, frames[1..], n - 1);
    }
  }

  /** A press the Player refuses while no buffer is running is retried on each
      of the next jumpBuffer - 1 frames, whether or not the key goes down again
      and whatever the Player answers. */
  lemma RefusedPressIsRetried(count: int, jumpBuffer: int, frames: seq<Frame>, k: nat)
    requires 0 <= count <= 1
    requires frames != [] && frames[0].keyDown && !frames[0].accepted
    requires 1 <= k < jumpBuffer && k < |frames|
    ensures Attempts(Run(count, jumpBuffer, frames[..k]), frames[k].keyDown)
  {
    assert BufferStep(count, jumpBuffer, true, false) == jumpBuffer;
    var rest := frames[1..];
    assert frames[..k][1..] == rest[..k - 1];
    RunningBufferCountsDown(jumpBuffer, jumpBuffer, rest, k - 1);
    assert Run(count, jumpBuffer, frames[..k]) == jumpBuffer - (k - 1);
  }

  /** PlayerInput: forwards input to its Player and owns the jump buffer. */
  class PlayerInput {
    const player: Player
    /** The number of frames a refused jump press is retried for. */
    const jumpBuffer: int
    var jumpBufferCount: int

    /** The component as the editor configures it. */
    constructor (player: Player, jumpBuffer: int)
      ensures this.player == player && this.jumpBuffer == jumpBuffer
      ensures jumpBufferCount == 0
    {
      this.player := player;
      this.jumpBuffer := jumpBuffer;
      jumpBufferCount := 0;
    }

    /** Update: one frame. `input` is the raw (horizontal, vertical) axis pair,
        `jumpKeyDown`/`jumpKeyUp` the space key's events and `mouseDown` the
        left mouse button's. The ghost results say whether a jump was asked
        for and whether the Player accepted it. */
    method Update(input: Vec2, jumpKeyDown: bool, jumpKeyUp: bool, mouseDown: bool)
      returns (ghost attempted: bool, ghost accepted: bool)
      requires player.Valid()
      modifies this`jumpBufferCount, player`directionalInput, player`isJump, player`jumpForce, player`wallDirX,
               player`gravity, player`initAttack
      ensures player.Valid()
      ensures player.directionalInput == input
      ensures attempted == Attempts(old(jumpBufferCount), jumpKeyDown)
      ensures var choice := JumpChoice(player.isWallSliding, player.controller.collisions, input.x, player.velocity.x,
                                       player.jumpVelocity, player.wallJumpClimb, player.wallJumpNeutral, player.wallJumpLeap);
              accepted == (attempted && choice.Some?) &&
              (accepted ==> player.isJump && player.jumpForce == choice.value) &&
              (!accepted ==> player.isJump == old(player.isJump) && player.jumpForce == old(player.jumpForce))
      ensures jumpBufferCount == BufferStep(old(jumpBufferCount), jumpBuffer, jumpKeyDown, accepted)
      ensures player.wallDirX == if attempted && player.isWallSliding then WallDir(player.controller.collisions) else old(player.wallDirX)
      ensures 0 <= old(jumpBufferCount) <= jumpBuffer ==> 0 <= jumpBufferCount <= jumpBuffer
      ensures player.gravity == if jumpKeyUp && player.risingJump then player.jumpReleaseGravity else old(player.gravity)
      ensures player.initAttack == if mouseDown then old(player.initAttack) || player.controller.collisions.below || !player.isWallSliding
                                   else old(player.initAttack)
    {
      player.SetDirectionalInput(input);
      attempted, accepted := BufferedJump(jumpKeyDown);
      if jumpKeyUp {
        player.OnJumpInputUp();
      }
      if mouseDown {
        player.OnAttackInputDown();
      }
    }

    /** The jump part of Update: count the buffer down, ask the Player for a
        jump on a key press or while the buffer runs, and start the buffer when
        the Player refuses and none is running. */
    method BufferedJump(jumpKeyDown: bool) returns (ghost attempted: bool, ghost accepted: bool)
      requires player.Valid()
      modifies this`jumpBufferCount, player`isJump, player`jumpForce, player`wallDirX
      ensures player.Valid()
      ensures attempted == Attempts(old(jumpBufferCount), jumpKeyDown)
      ensures var choice := JumpChoice(player.isWallSliding, player.controller.collisions, player.directionalInput.x,
                                       player.velocity.x, player.jumpVelocity,
                                       player.wallJumpClimb, player.wallJumpNeutral, player.wallJumpLeap);
              accepted == (attempted && choice.Some?) &&
              (accepted ==> player.isJump && player.jumpForce == choice.value) &&
              (!accepted ==> player.isJump == old(player.isJump) && player.jumpForce == old(player.jumpForce))
      ensures jumpBufferCount == BufferStep(old(jumpBufferCount), jumpBuffer, jumpKeyDown, accepted)
      ensures player.wallDirX == if attempted && player.isWallSliding then WallDir(player.controller.collisions) else old(player.wallDirX)
    {
      if jumpBufferCount > 0 {
        jumpBufferCount := jumpBufferCount - 1;
      }
      attempted, accepted := false, false;
      if jumpKeyDown || jumpBufferCount > 0 {
        attempted := true;
        var ok := player.OnJumpInputDown();
        accepted := ok;
        if !ok && jumpBufferCount == 0 {
          jumpBufferCount := jumpBuffer;
        }
      }
    }
  }
}
