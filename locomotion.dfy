/** The player locomotion of Assets/Scripts/PlayerController.cs: Update
    latches the axis input and the jump request, and FixedUpdate runs Run,
    Flip and Jump in that order. */
module Locomotion {
  import opened Geometry

  /** Mathf.Sign: 1 for zero and positive values, -1 for negative ones. */
  function Sign(v: real): (s: real)
    ensures s == 1.0 || s == -1.0
    ensures s * v == Abs(v)
    ensures 0.0 <= v <==> s == 1.0
  {
    if v >= 0.0 then 1.0 else -1.0
  }

  /** The jump latch after an Update: set by a press, never cleared there. */
  function Latch(jump: bool, jumpPressed: bool): (l: bool)
    ensures jump ==> l
    ensures l ==> jump || jumpPressed
    ensures jumpPressed ==> l
  {
    if !jump && jumpPressed then true else jump
  }

  /** The velocity Run writes: the vertical component is kept, and for a
      positive speed and step the player moves horizontally the way the axis
      points, and stands still when it is released. */
  function RunVelocity(moveX: real, speed: real, fixedDt: real, v: Vec2): (w: Vec2)
    ensures w.y == v.y
    ensures moveX == 0.0 ==> w.x == 0.0
    ensures 0.0 < speed && 0.0 < fixedDt ==> (0.0 < w.x <==> 0.0 < moveX) && (w.x < 0.0 <==> moveX < 0.0)
  {
    SignOfProduct(moveX, speed * fixedDt);
    Vec2(moveX * speed * fixedDt, v.y)
  }

  /** Multiplying by a positive factor keeps the sign. */
  lemma SignOfProduct(a: real, k: real)
    ensures 0.0 < k ==> (0.0 < a * k <==> 0.0 < a) && (a * k < 0.0 <==> a < 0.0)
  {
  }

  /** The local scale after Flip. The Vector2 it assigns becomes a Vector3
      with z = 0. A negligible velocity keeps the scale; otherwise the sprite
      faces the way the player moves, at unit scale. */
  function FlipScale(scale: Vec3, vx: real, eps: real): (f: Vec3)
    ensures Abs(vx) < eps ==> f == scale
    ensures 0.0 < eps && Abs(vx) >= eps ==>
              f.x * vx > 0.0 && (f.x == 1.0 || f.x == -1.0) && f.y == 1.0
  {
    if Abs(vx) < eps then scale else Vec3(Sign(vx), 1.0, 0.0)
  }

  /** The velocity after Jump: the vertical velocity rises by exactly jumpSpeed
      when and only when the latch was set and the player is grounded, the
      horizontal one is kept, and otherwise nothing changes. */
  function JumpVelocity(jump: bool, grounded: bool, jumpSpeed: real, v: Vec2): (w: Vec2)
    ensures w.x == v.x
    ensures jumpSpeed != 0.0 ==> (w.y == v.y + jumpSpeed <==> jump && grounded)
    ensures !(jump && grounded) ==> w == v
  {
    if jump && grounded then Vec2(v.x, v.y + jumpSpeed) else v
  }

  // ---------------------------------------------------------------------
  // The jump latch over any interleaving of Update and FixedUpdate calls.

  /** An engine callback: an Update with its jump button state, or a
      FixedUpdate with its grounded test. */
  datatype Callback = UpdateFrame(jumpPressed: bool) | PhysicsStep(grounded: bool)

  /** The latch after the callbacks: Update may set it, FixedUpdate's Jump
      always clears it. */
  function LatchAfter(jump: bool, cs: seq<Callback>): bool
    decreases |cs|
  {
    if cs == [] then jump
    else
      match cs[0]
      case UpdateFrame(p) => LatchAfter(Latch(jump, p), cs[1..])
      case PhysicsStep(_) => LatchAfter(false, cs[1..])
  }

  /** The number of jump impulses the callbacks apply. */
  function JumpCount(jump: bool, cs: seq<Callback>): nat
    decreases |cs|
  {
    if cs == [] then 0
    else
      match cs[0]
      case UpdateFrame(p) => JumpCount(Latch(jump, p), cs[1..])
      case PhysicsStep(g) => (if jump && g then 1 else 0) + JumpCount(false, cs[1..])
  }

  /** The number of Updates whose jump button was pressed. */
  function Presses(cs: seq<Callback>): nat
    decreases |cs|
  {
    if cs == [] then 0 else (if cs[0] == UpdateFrame(true) then 1 else 0) + Presses(cs[1..])
  }

  /** The latch is consumed exactly once: every jump, and a latch still
      pending, is paid for by a distinct press (or by a latch set before). */
  lemma {:induction false} JumpsNeedPresses(jump: bool, cs: seq<Callback>)
    ensures JumpCount(jump, cs) + (if LatchAfter(jump, cs) then 1 else 0)
              <= Presses(cs) + (if jump then 1 else 0)
    decreases |cs|
  {
    if cs != [] {
      match cs[0]
      case UpdateFrame(p) => JumpsNeedPresses(Latch(jump, p), cs[1..]);
      case PhysicsStep(_) => JumpsNeedPresses(false, cs[1..]);
    }
  }

  /** Corollary: from a cleared latch, no more jumps than presses. */
  lemma AtMostOneJumpPerPress(cs: seq<Callback>)
    ensures JumpCount(false, cs) <= Presses(cs)
  {
    JumpsNeedPresses(false, cs);
  }

  /** PlayerController: its configuration, the latched input, the body's
      velocity and local scale, the animator's "isRunning" flag and a log of
      the animator triggers fired. */
  class PlayerController {
    const speed: real
    const jumpSpeed: real

    var moveX: real
    var jump: bool
    var velocity: Vec2
    var scale: Vec3
    var isRunning: bool
    var animTriggers: seq<string>

    /** Start, on a body with the given velocity and local scale; the input
        fields hold their default values. */
    constructor Start(speed: real, jumpSpeed: real, velocity: Vec2, scale: Vec3)
      ensures this.speed == speed && this.jumpSpeed == jumpSpeed
      ensures moveX == 0.0 && !jump && this.velocity == velocity && this.scale == scale
      ensures !isRunning && animTriggers == []
    {
      this.speed := speed;
      this.jumpSpeed := jumpSpeed;
      moveX := 0.0;
      jump := false;
      this.velocity := velocity;
      this.scale := scale;
      isRunning := false;
      animTriggers := [];
    }

    /** Update with the raw horizontal axis and whether the jump button went
        down this frame. */
    method Update(axis: real, jumpPressed: bool)
      modifies this`moveX, this`jump
      ensures moveX == axis
      ensures jump == Latch(old(jump), jumpPressed)
    {
      moveX := axis;
      if !jump && jumpPressed {
        jump := true;
      }
    }

    /** Run, with Time.fixedDeltaTime and Mathf.Epsilon. */
    method Run(fixedDt: real, eps: real)
      modifies this`velocity, this`isRunning
      ensures velocity == RunVelocity(moveX, speed, fixedDt, old(velocity))
      ensures isRunning == (Abs(velocity.x) > eps)
    {
      velocity := Vec2(moveX * speed * fixedDt, velocity.y);
      isRunning := Abs(velocity.x) > eps;
    }

    /** Flip, with Mathf.Epsilon. */
    method Flip(eps: real)
      modifies this`scale
      ensures scale == FlipScale(old(scale), velocity.x, eps)
    {
      var vx := velocity.x;
      if Abs(vx) < eps {
        return;
      }
      scale := Vec3(Sign(vx), 1.0, 0.0);
    }

    /** Jump, with the result of the ground-contact test. */
    method Jump(grounded: bool)
      modifies this`jump, this`velocity, this`animTriggers
      ensures !jump
      ensures velocity == JumpVelocity(old(jump), grounded, jumpSpeed, old(velocity))
      ensures animTriggers == old(animTriggers) + (if old(jump) && grounded then ["isJumping"] else [])
    {
      if !jump {
        return;
      }
      jump := false;
      if !grounded {
        return;
      }
      velocity := Vec2(velocity.x, velocity.y + jumpSpeed);
      animTriggers := animTriggers + ["isJumping"];
    }

    /** FixedUpdate: Run, then Flip on the velocity Run wrote, then Jump. */
    method FixedUpdate(fixedDt: real, eps: real, grounded: bool)
      modifies this`velocity, this`isRunning, this`scale, this`jump, this`animTriggers
      ensures var ran := RunVelocity(moveX, speed, fixedDt, old(velocity));
              isRunning == (Abs(ran.x) > eps) &&
              scale == FlipScale(old(scale), ran.x, eps) &&
              velocity == JumpVelocity(old(jump), grounded, jumpSpeed, ran) &&
              !jump &&
              animTriggers == old(animTriggers) + (if old(jump) && grounded then ["isJumping"] else [])
    {
      Run(fixedDt, eps);
      Flip(eps);
      Jump(grounded);
    }
  }
}
