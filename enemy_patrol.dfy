/** The enemy patrol of Assets/Scripts/EnemySimpleMove.cs: a horizontal walk
    that reverses direction and mirrors the sprite each time the distance
    walked in the current direction reaches maxDistance. */
module EnemyPatrol {
  import opened Geometry

  /** The values one Update reads and writes: the transform position (x, y),
      the direction multiplier, the distance accumulator and the sprite's flipX. */
  datatype Patrol = Patrol(x: real, y: real, direction: real, distanceTravelled: real, flipX: bool)

  /** Start: direction is 1 when the enemy starts moving right and -1 otherwise. */
  function InitialDirection(moveRight: bool): (d: real)
    ensures d == 1.0 || d == -1.0
    ensures d > 0.0 <==> moveRight
  {
    if moveRight then 1.0 else -1.0
  }

  /** One Update with frame time dt. */
  function Step(speed: real, maxDistance: real, s: Patrol, dt: real): (r: Patrol)
    ensures r.y == s.y
    ensures r.direction == s.direction || r.direction == -s.direction
    ensures s.direction != 0.0 ==> ((r.direction != s.direction) <==> (r.flipX != s.flipX))
    ensures r.distanceTravelled == 0.0 || s.distanceTravelled <= r.distanceTravelled
  {
    var movement := speed * dt * s.direction;
    var travelled := s.distanceTravelled + Abs(movement);
    if travelled >= maxDistance then
      Patrol(s.x + movement, s.y, s.direction * -1.0, 0.0, !s.flipX)
    else
      Patrol(s.x + movement, s.y, s.direction, travelled, s.flipX)
  }

  /** Whether the Update with frame time dt reaches maxDistance and turns round.
      For a direction of 1 or -1 and a non-negative speed and frame time, this
      is the accumulator plus the frame's distance reaching maxDistance. */
  predicate Turns(speed: real, maxDistance: real, s: Patrol, dt: real)
    ensures (s.direction == 1.0 || s.direction == -1.0) && 0.0 <= speed && 0.0 <= dt ==>
              (Turns(speed, maxDistance, s, dt) <==> s.distanceTravelled + speed * dt >= maxDistance)
  {
    MovedDistance(speed, s.direction, dt);
    s.distanceTravelled + Abs(speed * dt * s.direction) >= maxDistance
  }

  /** A frame's movement along a direction of 1 or -1 covers speed * dt. */
  lemma MovedDistance(speed: real, direction: real, dt: real)
    ensures (direction == 1.0 || direction == -1.0) && 0.0 <= speed && 0.0 <= dt ==>
              Abs(speed * dt * direction) == speed * dt &&
              speed * dt * direction == direction * (speed * dt)
  {
  }

  /** The patrol invariant: the direction set {1, -1} is closed, and the
      accumulator is non-negative and, for a positive maxDistance, below it. */
  predicate Inv(maxDistance: real, s: Patrol)
  {
    (s.direction == 1.0 || s.direction == -1.0) &&
    0.0 <= s.distanceTravelled &&
    (maxDistance > 0.0 ==> s.distanceTravelled < maxDistance)
  }

  /** One Update keeps the invariant, whatever the speed and frame time: the
      accumulator only ever grows by an absolute value, and is reset in the
      frame that reaches maxDistance. */
  lemma StepKeepsInv(speed: real, maxDistance: real, s: Patrol, dt: real)
    requires Inv(maxDistance, s)
    ensures Inv(maxDistance, Step(speed, maxDistance, s, dt))
  {
  }

  /** A run of Updates, one per frame time in dts. */
  function Run(speed: real, maxDistance: real, s: Patrol, dts: seq<real>): (r: Patrol)
    ensures r.y == s.y
    ensures r.direction == s.direction || r.direction == -s.direction
    decreases |dts|
  {
    if dts == [] then s else Run(speed, maxDistance, Step(speed, maxDistance, s, dts[0]), dts[1..])
  }

  /** The number of Updates in the run that turn round: at most one per frame. */
  function Reversals(speed: real, maxDistance: real, s: Patrol, dts: seq<real>): (n: nat)
    ensures n <= |dts|
    decreases |dts|
  {
    if dts == [] then 0
    else
      (if Turns(speed, maxDistance, s, dts[0]) then 1 else 0) +
      Reversals(speed, maxDistance, Step(speed, maxDistance, s, dts[0]), dts[1..])
  }

  predicate NonNegative(dts: seq<real>)
  {
    forall i :: 0 <= i < |dts| ==> 0.0 <= dts[i]
  }

  /** The invariant holds after any run of Updates. */
  lemma {:induction false} RunKeepsInv(speed: real, maxDistance: real, s: Patrol, dts: seq<real>)
    requires Inv(maxDistance, s)
    ensures Inv(maxDistance, Run(speed, maxDistance, s, dts))
    decreases |dts|
  {
    if dts != [] {
      StepKeepsInv(speed, maxDistance, s, dts[0]);
      RunKeepsInv(speed, maxDistance, Step(speed, maxDistance, s, dts[0]), dts[1..]);
    }
  }

  /** Within one patrol leg (a run with no reversal), with a non-negative speed
      and frame times, the enemy keeps its direction and the accumulator
      measures exactly the distance walked since the leg's start: x has moved
      by the accumulator's growth, in the walking direction. */
  lemma {:induction false} LegDisplacement(speed: real, maxDistance: real, s: Patrol, dts: seq<real>)
    requires 0.0 <= speed && NonNegative(dts)
    requires s.direction == 1.0 || s.direction == -1.0
    requires Reversals(speed, maxDistance, s, dts) == 0
    ensures var r := Run(speed, maxDistance, s, dts);
            r.direction == s.direction &&
            r.x == s.x + s.direction * (r.distanceTravelled - s.distanceTravelled)
    decreases |dts|
  {
    if dts != [] {
      var dt := dts[0];
      var t := Step(speed, maxDistance, s, dt);
      assert !Turns(speed, maxDistance, s, dt);
      MovedDistance(speed, s.direction, dt);
      var m := speed * dt;
      assert t.direction == s.direction;
      assert t.distanceTravelled == s.distanceTravelled + m;
      assert t.x == s.x + s.direction * m;
      assert NonNegative(dts[1..]);
      LegDisplacement(speed, maxDistance, t, dts[1..]);
      var r := Run(speed, maxDistance, t, dts[1..]);
      assert r.x == t.x + s.direction * (r.distanceTravelled - t.distanceTravelled);
      assert s.direction * (r.distanceTravelled - t.distanceTravelled) + s.direction * m
          == s.direction * (r.distanceTravelled - s.distanceTravelled);
    }
  }

  /** Direction reversals and sprite flips stay in lockstep: after any run,
      the direction is the initial one negated once per reversal, and flipX is
      the initial flag XOR the parity of the reversals. */
  lemma {:induction false} RunParity(speed: real, maxDistance: real, s: Patrol, dts: seq<real>)
    ensures var n := Reversals(speed, maxDistance, s, dts);
            var r := Run(speed, maxDistance, s, dts);
            r.direction == (if n % 2 == 0 then s.direction else -s.direction) &&
            r.flipX == (s.flipX != (n % 2 == 1))
    decreases |dts|
  {
    if dts != [] {
      RunParity(speed, maxDistance, Step(speed, maxDistance, s, dts[0]), dts[1..]);
    }
  }

  /** Corollary: with a direction in {1, -1}, the sprite is mirrored relative to
      its start exactly when the enemy walks the other way. */
  lemma FlipMatchesDirection(speed: real, maxDistance: real, s: Patrol, dts: seq<real>)
    requires s.direction == 1.0 || s.direction == -1.0
    ensures var r := Run(speed, maxDistance, s, dts);
            (r.flipX != s.flipX) <==> (r.direction != s.direction)
  {
    RunParity(speed, maxDistance, s, dts);
  }

  /** EnemySimpleMove: the configuration (speed, maxDistance, moveRight), the
      x coordinate saved by Start, and the state Update changes. */
  class EnemySimpleMove {
    const speed: real
    const maxDistance: real
    const moveRight: bool
    /** Written once, by Start; a const, so no later code can change it. */
    const initialPosition: real

    var x: real
    var y: real
    var direction: real
    var distanceTravelled: real
    var flipX: bool

    ghost function State(): Patrol
      reads this
    {
      Patrol(x, y, direction, distanceTravelled, flipX)
    }

    ghost predicate Valid()
      reads this
    {
      Inv(maxDistance, State())
    }

    /** Start, on an enemy placed at (x, y) whose sprite has the given flipX. */
    constructor Start(speed: real, maxDistance: real, moveRight: bool, x: real, y: real, flipX: bool)
      ensures this.speed == speed && this.maxDistance == maxDistance && this.moveRight == moveRight
      ensures initialPosition == x
      ensures State() == Patrol(x, y, InitialDirection(moveRight), 0.0, flipX)
      ensures Valid()
    {
      this.speed := speed;
      this.maxDistance := maxDistance;
      this.moveRight := moveRight;
      this.x := x;
      this.y := y;
      this.flipX := flipX;
      initialPosition := x;
      direction := if moveRight then 1.0 else -1.0;
      distanceTravelled := 0.0;
    }

    /** Update with frame time dt (Time.deltaTime). */
    method Update(dt: real)
      requires Valid()
      modifies this
      ensures State() == Step(speed, maxDistance, old(State()), dt)
      ensures Valid()
    {
      var movement := speed * dt * direction;
      x := x + movement;
      distanceTravelled := distanceTravelled + Abs(movement);
      if distanceTravelled >= maxDistance {
        direction := direction * -1.0;
        distanceTravelled := 0.0;
        flipX := !flipX;
      }
      StepKeepsInv(speed, maxDistance, old(State()), dt);
    }
  }
}
