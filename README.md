# Sunny platformer scripts, modelled in Dafny

This project models the four Unity MonoBehaviour scripts of the Sunny 2D
platformer that hold control logic:

- **EnemySimpleMove**: the enemy patrol. Each frame the enemy moves
  `speed * dt * direction` along x and adds the distance to an accumulator.
  When the accumulator reaches `maxDistance`, the same frame negates the
  direction, resets the accumulator and toggles the sprite's `flipX`.
- **GameController**: the level countdown. It computes
  `max(0, totalSeconds - (int)elapsedTime)` and shows it and the gem count as
  text. While no gems remain or no seconds remain, every frame asks for a
  delayed reload of scene 0.
- **PlayerInteractions**: the death/respawn coroutine. A "Trap" or "Enemy"
  collision runs the death half. That half zeroes the velocity, plays the death
  sound, fires "die", disables the camera, requests an upward impulse of 10 and
  disables the collider. After 3 seconds the reborn half moves the player to
  the spawn point, fires "reborn" and re-enables the collider and the camera.
- **PlayerController**: player locomotion. `Update` latches the axis and the
  jump request. `FixedUpdate` runs `Run` (replace vx, keep vy), then `Flip`
  (face the sign of vx unless it is negligible), then `Jump` (clear the latch,
  and add `jumpSpeed` to vy only when grounded).

Each script is a class (`geometry.dfy` holds the shared vector types; then
`enemy_patrol.dfy`, `level_timer.dfy`, `respawn.dfy`, `locomotion.dfy`). The
fields stand in for the engine objects the script writes: the transform, the
rigid body's velocity, the collider and camera enable flags, the sprite flip
flag, the UI texts, and logs of animator triggers, sounds, impulses and
restart/scene-load requests. Engine inputs are method parameters: frame time,
axis value, button press, the ground test, the collision tag, the gem count,
and `Mathf.Epsilon` as `eps`. Floats are exact `real`s.

The enemy's `Update`, the timer's per-frame end test, the coroutine's
resumption and the four `PlayerController` steps are specified through pure
functions of the old state. `OnCollisionEnter2D` and the two halves of the
death sequence state their effects field by field. The properties are proved
as lemmas, and as contracts of the pure functions, over arbitrary sequences of
frames:

- patrol invariant, reversal/flip parity, and the accumulator measuring the distance walked in the current leg;
- the countdown never rising, and a restart request on every frame after time is up;
- the respawn happening exactly when the frame times add up to 3 seconds;
- a jump never happening without its own press.

Points about the code that the model makes explicit:

- The `(int)` cast truncates the elapsed time toward zero. For non-negative time this is the floor.
- The end test is not guarded, and `Invoke` is called on every frame while it holds. `RequestEveryFrameOnceTimeIsUp` states that one restart request is added per such frame.
- `OnCollisionEnter2D` has no phase guard. A second death sequence cannot start while one is pending only because the engine delivers collisions to enabled colliders, and the death half disables the collider before it waits.
- The patrol accumulator is reset in the same frame that reaches `maxDistance`, so after every frame it is strictly below `maxDistance` (for a positive `maxDistance`). This holds for any sign of `speed` and frame time, because the accumulator grows by an absolute value.
- `Flip` writes a `Vector2` into the `Vector3` local scale, so the scale's z becomes 0.

## Model

| member | source | states |
|---|---|---|
| Geometry.Abs | Assets/Scripts/EnemySimpleMove.cs:70 | the absolute value is non-negative and equals the argument or its negation |
| EnemyPatrol.InitialDirection | Assets/Scripts/EnemySimpleMove.cs:54 | the starting direction is 1 or -1, and positive exactly when `moveRight` |
| EnemyPatrol.Step | Assets/Scripts/EnemySimpleMove.cs:65-81 | one frame never moves y; the direction stays or is negated; for a non-zero direction, the direction changes exactly when `flipX` toggles; the accumulator either resets to 0 or does not shrink |
| EnemyPatrol.Turns | Assets/Scripts/EnemySimpleMove.cs:70-73 | for a direction of 1 or -1 and non-negative speed and frame time, the frame turns exactly when the accumulator plus `speed*dt` reaches `maxDistance` |
| EnemyPatrol.StepKeepsInv | Assets/Scripts/EnemySimpleMove.cs:70-78 | for any speed and frame time, one frame keeps direction in {1,-1}, the accumulator non-negative and, for positive `maxDistance`, strictly below it |
| EnemyPatrol.Run | Assets/Scripts/EnemySimpleMove.cs:62-82 | any sequence of frames leaves y unchanged and the direction equal to the initial one or its negation |
| EnemyPatrol.Reversals | Assets/Scripts/EnemySimpleMove.cs:73-76 | a sequence of frames turns round at most once per frame |
| EnemyPatrol.RunKeepsInv | Assets/Scripts/EnemySimpleMove.cs:62-82 | the same invariant holds after any sequence of frames |
| EnemyPatrol.LegDisplacement | Assets/Scripts/EnemySimpleMove.cs:65-70 | within one leg (no reversal), with non-negative speed and frame times, the direction is kept and x has moved, in that direction, by exactly the growth of the accumulator |
| EnemyPatrol.RunParity | Assets/Scripts/EnemySimpleMove.cs:73-81 | after any frames, the direction is the initial one negated once per reversal, and `flipX` is the initial flag XOR the parity of the reversals |
| EnemyPatrol.FlipMatchesDirection | Assets/Scripts/EnemySimpleMove.cs:76-80 | the sprite is mirrored relative to its start exactly when the enemy walks the other way |
| EnemyPatrol.EnemySimpleMove.Start | Assets/Scripts/EnemySimpleMove.cs:45-55 | Start saves the start x as the immutable `initialPosition`, sets the direction from `moveRight`, starts the accumulator at 0 and establishes the invariant |
| EnemyPatrol.EnemySimpleMove.Update | Assets/Scripts/EnemySimpleMove.cs:62-82 | x moves by `speed*dt*direction`, and the new position, direction, accumulator and `flipX` are one patrol step of the old ones; the invariant is preserved |
| LevelTimer.Trunc | Assets/Scripts/GameController.cs:42 | the `(int)` cast truncates toward zero: for non-negative time it is the largest integer not above it, for negative time the smallest not below it |
| LevelTimer.TruncMonotone | Assets/Scripts/GameController.cs:42 | truncation is monotone |
| LevelTimer.SecondsLeft | Assets/Scripts/GameController.cs:42-43 | the countdown is never negative, is 0 exactly when the truncated elapsed time reaches `totalSeconds`, is otherwise `totalSeconds - trunc(elapsed)`, and never exceeds `totalSeconds` for non-negative inputs |
| LevelTimer.SecondsLeftNonIncreasing | Assets/Scripts/GameController.cs:40-43 | a later elapsed time never shows more seconds left |
| LevelTimer.LevelOver | Assets/Scripts/GameController.cs:42-53 | with non-negative elapsed time, the level is over exactly when no gems remain or the elapsed time has reached `totalSeconds` |
| LevelTimer.DecimalString | Assets/Scripts/GameController.cs:45 | `ToString` of a non-negative count is a non-empty string of decimal digits without a leading zero |
| LevelTimer.ParseDecimalString | Assets/Scripts/GameController.cs:45-50 | the text shown reads back as exactly the number it renders |
| LevelTimer.Elapsed | Assets/Scripts/GameController.cs:40 | with non-negative frame times, the elapsed time never decreases over any frames |
| LevelTimer.Requests | Assets/Scripts/GameController.cs:53-56 | frames issue at most one restart request each |
| LevelTimer.RequestEveryFrameOnceTimeIsUp | Assets/Scripts/GameController.cs:42-56 | once the countdown is 0, every later frame with non-negative time issues one more restart request, whatever the gem count |
| LevelTimer.GameController.constructor | Assets/Scripts/GameController.cs:30 | the elapsed time starts at 0, with no requests issued |
| LevelTimer.GameController.Update | Assets/Scripts/GameController.cs:37-57 | elapsed time grows by dt; the timer text is the decimal text of the clamped countdown; the items text is that of the gem count; one restart request is added exactly when the level is over; no scene load happens |
| LevelTimer.GameController.RestartGame | Assets/Scripts/GameController.cs:64-68 | records one request to load scene 0 |
| Respawn.TickPhase | Assets/Scripts/PlayerInteractions.cs:97 | a frame never starts a wait, and a wait still pending after the frame has positive time left |
| Respawn.RunPhase | Assets/Scripts/PlayerInteractions.cs:97 | frame times alone never start a death sequence: a run of frames ends waiting only if it started waiting |
| Respawn.WaitEndsAfterItsTime | Assets/Scripts/PlayerInteractions.cs:97 | a positive wait is over exactly when the frame times add up to it, and until then the remaining time is the wait less the elapsed time |
| Respawn.RebornExactlyAfterDelay | Assets/Scripts/PlayerInteractions.cs:97-106 | after a death, the coroutine resumes exactly when the frames add up to 3 seconds |
| Respawn.PlayerInteractions.Start | Assets/Scripts/PlayerInteractions.cs:42-51 | the spawn point is the start position, kept in an immutable field; no sequence is running |
| Respawn.PlayerInteractions.OnCollisionEnter2D | Assets/Scripts/PlayerInteractions.cs:58-65 | a non-hazard tag changes nothing; a "Trap" or "Enemy" tag zeroes the velocity, plays the death sound at the current position, fires "die", disables the camera, requests the impulse (0, 10), disables the collider and starts a 3-second wait |
| Respawn.PlayerInteractions.Die | Assets/Scripts/PlayerInteractions.cs:80-94 | the death half has exactly those effects: velocity zero, death sound at the old position, "die" logged, camera and collider off, impulse (0, 10) requested; afterwards the wait is pending with the collider and camera off and "die" as the last trigger |
| Respawn.PlayerInteractions.Reborn | Assets/Scripts/PlayerInteractions.cs:100-106 | the reborn half puts the player at the spawn point, fires "reborn" and re-enables the collider and the camera |
| Respawn.PlayerInteractions.Tick | Assets/Scripts/PlayerInteractions.cs:97-106 | a frame counts the wait down; the frame that uses it up runs the reborn half, with "die" immediately before "reborn" in the trigger log; any other frame changes nothing but the remaining time, so collider and camera stay off while the wait is pending |
| Locomotion.Sign | Assets/Scripts/PlayerController.cs:111 | `Mathf.Sign` is 1 or -1, is 1 exactly for non-negative values, and times its argument gives the absolute value |
| Locomotion.Latch | Assets/Scripts/PlayerController.cs:77-80 | the latch is never cleared by `Update`, is set by a press, and is set only if it was set already or the button was pressed |
| Locomotion.RunVelocity | Assets/Scripts/PlayerController.cs:91-92 | the vertical velocity is kept; with a positive speed and step, vx has the sign of the axis input, and is 0 when the axis is released |
| Locomotion.FlipScale | Assets/Scripts/PlayerController.cs:105-111 | the scale is kept when abs(vx) < eps; otherwise scale.x is +1 or -1 with the sign of vx, and scale.y is 1 |
| Locomotion.JumpVelocity | Assets/Scripts/PlayerController.cs:122-133 | vy rises by exactly `jumpSpeed` if and only if the latch was set and the player is grounded; otherwise the velocity is unchanged; vx is always kept |
| Locomotion.JumpsNeedPresses | Assets/Scripts/PlayerController.cs:77-125 | over any interleaving of Update and FixedUpdate, jumps plus a still-pending latch never exceed presses plus the latch set at the start |
| Locomotion.AtMostOneJumpPerPress | Assets/Scripts/PlayerController.cs:77-125 | starting from a cleared latch, there are never more jumps than presses |
| Locomotion.PlayerController.Start | Assets/Scripts/PlayerController.cs:37-40 | the input fields start at their defaults (`moveX` 0, latch clear) |
| Locomotion.PlayerController.Update | Assets/Scripts/PlayerController.cs:72-81 | `moveX` becomes the axis value; the latch is updated as `Latch` says: set by a press, never cleared here |
| Locomotion.PlayerController.Run | Assets/Scripts/PlayerController.cs:88-96 | vx becomes `moveX*speed*fixedDt` and vy is kept; `isRunning` is true exactly when abs(vx) > eps |
| Locomotion.PlayerController.Flip | Assets/Scripts/PlayerController.cs:103-112 | the scale becomes the flip of the old one for the current vx |
| Locomotion.PlayerController.Jump | Assets/Scripts/PlayerController.cs:119-137 | the latch is always clear afterwards; the velocity gains `jumpSpeed` vertically and "isJumping" fires only if the latch was set and the player is grounded |
| Locomotion.PlayerController.FixedUpdate | Assets/Scripts/PlayerController.cs:60-65 | Run, then Flip on the velocity Run wrote, then Jump on that velocity |

## Left out

- Parallax.cs, GemController.cs, KillEnemy.cs and ItemCollectAnim.cs: they only make engine calls after a tag test, with no logic to state. They are not part of this model.
- Unity physics: gravity, the integration of `AddForce`, and `IsTouchingLayers`. The impulse is a logged request and "grounded" is a boolean input. Because of this, the model's velocity and position change only where a script writes them.
- Input polling and `FindGameObjectsWithTag`. Their results are method parameters.
- Animator, audio, Cinemachine, text rendering and `SceneManager.LoadScene`. They appear only as flags, logs and counters, without their effects.
- Coroutine and `Invoke` scheduling. The coroutine becomes an explicit phase with a remaining time and a `Tick(dt)`. `Invoke("RestartGame", 1f)` is counted as a request, and the one-second delay before `RestartGame` runs is not simulated. There is no concurrency.
- The interaction between scripts on the same player is not modelled. While the death wait is pending, `PlayerController` still writes velocity.
- IEEE single-precision rounding. All arithmetic is exact `real` arithmetic, an idealisation.
- LevelTimer.Trunc: the model does not capture C#'s unspecified result when the elapsed time is beyond the 32-bit `int` range, nor 32-bit overflow of `totalSeconds - (int)elapsedTime`. Both need a level that runs for billions of seconds.
- EnemyPatrol.EnemySimpleMove.Update: `Transform.Translate` moves in local space. The model assumes an unrotated enemy, so the translation is along world x.
- Locomotion.PlayerController.Start: Unity's `Start` only fetches components. The constructor instead takes the body's starting velocity and scale as parameters.
