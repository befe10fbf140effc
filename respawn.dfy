/** The death and respawn sequence of Assets/Scripts/PlayerInteractions.cs.
    The coroutine DieAndReborn is split at its one suspension point: the death
    half runs inside OnCollisionEnter2D, the phase becomes Waiting with the
    seconds still to wait, and Tick runs the reborn half once they are used up. */
module Respawn {
  import opened Geometry

  /** The length of the coroutine's WaitForSeconds. */
  const RespawnDelay: real := 3.0

  /** The upward impulse requested on death (Vector2.up * 10). */
  const DeathImpulse: Vec2 := Vec2(0.0, 10.0)

  /** Whether the DieAndReborn coroutine is suspended, and for how much longer. */
  datatype Phase = Alive | Waiting(remaining: real)

  /** The tags whose collision starts the death sequence. */
  predicate IsHazard(tag: string)
  {
    tag == "Trap" || tag == "Enemy"
  }

  /** The phase after a frame of dt seconds: a suspended wait resumes once its
      remaining time is used up, and otherwise counts down. A frame never
      starts a wait, and a wait still pending has time left to run. */
  function TickPhase(p: Phase, dt: real): (q: Phase)
    ensures q.Waiting? ==> p.Waiting? && 0.0 < q.remaining
  {
    match p
    case Alive => Alive
    case Waiting(r) => if dt >= r then Alive else Waiting(r - dt)
  }

  /** The phase after one frame per frame time in dts: frames alone never
      start a death sequence. */
  function RunPhase(p: Phase, dts: seq<real>): (q: Phase)
    ensures q.Waiting? ==> p.Waiting?
    decreases |dts|
  {
    if dts == [] then p else RunPhase(TickPhase(p, dts[0]), dts[1..])
  }

  function Sum(dts: seq<real>): real
    decreases |dts|
  {
    if dts == [] then 0.0 else dts[0] + Sum(dts[1..])
  }

  predicate NonNegative(dts: seq<real>)
  {
    forall i :: 0 <= i < |dts| ==> 0.0 <= dts[i]
  }

  lemma {:induction false} SumNonNegative(dts: seq<real>)
    requires NonNegative(dts)
    ensures 0.0 <= Sum(dts)
    decreases |dts|
  {
    if dts != [] {
      SumNonNegative(dts[1..]);
    }
  }

  /** A wait of r > 0 seconds is over exactly when the frames have added up to r
      seconds; until then it has r less the elapsed time left to run. */
  lemma {:induction false} WaitEndsAfterItsTime(r: real, dts: seq<real>)
    requires 0.0 < r
    requires NonNegative(dts)
    ensures RunPhase(Waiting(r), dts) == if Sum(dts) >= r then Alive else Waiting(r - Sum(dts))
    decreases |dts|
  {
    if dts != [] {
      var rest := dts[1..];
      assert NonNegative(rest);
      if dts[0] >= r {
        SumNonNegative(rest);
      } else {
        WaitEndsAfterItsTime(r - dts[0], rest);
      }
    }
  }

  /** After a hazard collision the player is reborn exactly once the frames
      have added up to RespawnDelay seconds. */
  lemma RebornExactlyAfterDelay(dts: seq<real>)
    requires NonNegative(dts)
    ensures RunPhase(Waiting(RespawnDelay), dts) == Alive <==> Sum(dts) >= RespawnDelay
  {
    WaitEndsAfterItsTime(RespawnDelay, dts);
  }

  /** PlayerInteractions: the spawn point saved by Start, the player's
      position and velocity, the enable flags of its collider and of the
      follow camera, the coroutine's phase, and logs of the animator triggers,
      the death sounds (played at a position) and the impulses requested. */
  class PlayerInteractions {
    /** Written once, by Start; a const, so no later code can change it. */
    const initialPosition: Vec3

    var position: Vec3
    var velocity: Vec2
    var colliderEnabled: bool
    var cameraEnabled: bool
    var phase: Phase
    var animTriggers: seq<string>
    var deathSounds: seq<Vec3>
    var impulses: seq<Vec2>

    /** While the wait is pending the collider and the camera are off, and the
        last trigger fired is "die". */
    ghost predicate Valid()
      reads this
    {
      phase.Waiting? ==>
        !colliderEnabled && !cameraEnabled &&
        |animTriggers| > 0 && animTriggers[|animTriggers| - 1] == "die"
    }

    /** Start, on a player at `position` whose collider and follow camera have
        the given enable flags. */
    constructor Start(position: Vec3, velocity: Vec2, colliderEnabled: bool, cameraEnabled: bool)
      ensures initialPosition == position && this.position == position
      ensures this.velocity == velocity
      ensures this.colliderEnabled == colliderEnabled && this.cameraEnabled == cameraEnabled
      ensures phase == Alive && animTriggers == [] && deathSounds == [] && impulses == []
      ensures Valid()
    {
      initialPosition := position;
      this.position := position;
      this.velocity := velocity;
      this.colliderEnabled := colliderEnabled;
      this.cameraEnabled := cameraEnabled;
      phase := Alive;
      animTriggers := [];
      deathSounds := [];
      impulses := [];
    }

    /** OnCollisionEnter2D with an object of the given tag. The engine delivers
        collisions only while the collider is enabled. */
    method OnCollisionEnter2D(tag: string)
      requires Valid()
      requires colliderEnabled
      modifies this
      ensures Valid()
      ensures !IsHazard(tag) ==>
                position == old(position) && velocity == old(velocity) &&
                colliderEnabled == old(colliderEnabled) && cameraEnabled == old(cameraEnabled) &&
                phase == old(phase) && animTriggers == old(animTriggers) &&
                deathSounds == old(deathSounds) && impulses == old(impulses)
      ensures IsHazard(tag) ==>
                velocity == Zero2 &&
                deathSounds == old(deathSounds) + [old(position)] &&
                animTriggers == old(animTriggers) + ["die"] &&
                !cameraEnabled &&
                impulses == old(impulses) + [DeathImpulse] &&
                !colliderEnabled &&
                phase == Waiting(RespawnDelay) &&
                position == old(position)
    {
      if tag == "Trap" || tag == "Enemy" {
        Die();
      }
    }

    /** The first half of DieAndReborn, up to its WaitForSeconds. */
    method Die()
      modifies this
      ensures velocity == Zero2
      ensures deathSounds == old(deathSounds) + [position]
      ensures animTriggers == old(animTriggers) + ["die"]
      ensures !cameraEnabled && !colliderEnabled
      ensures impulses == old(impulses) + [DeathImpulse]
      ensures phase == Waiting(RespawnDelay)
      ensures position == old(position)
      ensures Valid()
    {
      velocity := Zero2;
      deathSounds := deathSounds + [position];
      animTriggers := animTriggers + ["die"];
      cameraEnabled := false;
      impulses := impulses + [DeathImpulse];
      colliderEnabled := false;
      phase := Waiting(RespawnDelay);
    }

    /** The second half of DieAndReborn, after the wait. */
    method Reborn()
      modifies this
      ensures position == initialPosition
      ensures animTriggers == old(animTriggers) + ["reborn"]
      ensures colliderEnabled && cameraEnabled
      ensures phase == Alive
      ensures velocity == old(velocity) && deathSounds == old(deathSounds) && impulses == old(impulses)
    {
      position := initialPosition;
      animTriggers := animTriggers + ["reborn"];
      colliderEnabled := true;
      cameraEnabled := true;
      phase := Alive;
    }

    /** A frame of dt seconds: the suspended coroutine resumes, running the
        reborn half, once the time it waits for is used up. */
    method Tick(dt: real)
      requires Valid()
      modifies this
      ensures Valid()
      ensures phase == TickPhase(old(phase), dt)
      ensures old(phase).Waiting? && phase == Alive ==>
                position == initialPosition &&
                |animTriggers| >= 2 &&
                animTriggers == old(animTriggers) + ["reborn"] &&
                animTriggers[|animTriggers| - 2] == "die" &&
                colliderEnabled && cameraEnabled &&
                velocity == old(velocity) && deathSounds == old(deathSounds) && impulses == old(impulses)
      ensures !(old(phase).Waiting? && phase == Alive) ==>
                position == old(position) && colliderEnabled == old(colliderEnabled) &&
                cameraEnabled == old(cameraEnabled) && animTriggers == old(animTriggers) &&
                velocity == old(velocity) && deathSounds == old(deathSounds) && impulses == old(impulses)
    {
      match phase
      case Alive =>
      case Waiting(r) =>
        if dt >= r {
          Reborn();
        } else {
          phase := Waiting(r - dt);
        }
    }
  }
}
