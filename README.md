# Player, enemy and projectile logic of a Cocos Creator game, in Dafny

The game has three scripts, and this project models the logic each one runs
on top of the engine:

- **Player** (`engine.dfy`, `player.dfy`, module `PlayerComponent`).
  - Held keys become a movement direction: D minus A on x, W minus S on y, then normalised.
  - Space starts an attack. It can only begin from idle, and it ends only when the attack clip's FINISHED event fires.
  - Each frame moves the node along the direction by speed × dt and clamps it into an axis-aligned move rectangle. No movement happens while attacking.
- **Enemy** (`enemy.dfy`, module `EnemyComponent`).
  - It has the same attack state machine, driven by a timer tick.
  - A wander tick picks a random point of its move rectangle.
  - It tweens to that point at `moveSpeed`. An `isMoving` guard refuses a new move while one is in flight or while attacking.
- **Projectile** (`player_skill.dfy`, module `PlayerSkillComponent`).
  - Each frame it ages by dt, and it is destroyed once its age reaches its lifetime.
  - Otherwise it flies right by `flySpeed` × dt.
  - It is destroyed once it lies strictly outside the visible screen, widened by half the node's size.

Each script's component is a `class` whose fields are the script's fields.
Each engine callback is a method of that class:
- `OnKeyDown` and `OnKeyUp` are the key handlers;
- `OnAnimationFinished` is the one-shot FINISHED listener;
- `OnTweenComplete` is the tween's completion callback;
- `RandomMoveTick` and `AttackTick` are the timer bodies;
- `Update` is the engine's per-frame call.

The pure parts of each script are module-level functions, with lemmas about
them. These are the direction, the clamp, the random sample, the off-screen
test and the one-frame steps `Advance` and `UpdateStep`.

Some methods' `ensures` tie the new state to those functions:
- `Player.Update` to `Advance`;
- `OnKeyDown` and `OnKeyUp` to `MoveDirection`, through `Valid()`;
- `Player.Start` and `SetInitialPosition` to `RangeCenter`;
- `RandomMoveTick` to `GetRandomPosition`;
- `PlayerSkill.Update` to `UpdateStep`.

The other methods state their new fields directly. These are the animation
and tween callbacks, `OnDestroy`, `DestroySkill` and the setters.

Frame sequences are modelled by `Replay` (for the player) and `Run` (for the
projectile). Induction lemmas over them prove two invariants: the player never
leaves its rectangle, and the projectile expires by its lifetime.

Engine state is modelled as plain fields:
- A played animation is a `clips` log of clip names.
- A registered one-shot listener is the `finishedListener` flag.
- A running tween is `tween: Option<Tween>`.
- A destroyed node is the `destroyed` flag.
- Registered key handlers are `listening`, and scheduled timers are `scheduled`.

Numbers are `real`.

## Model

| member | source | states |
|---|---|---|
| `PlayerComponent.RawDirection` | assets/Script/Player.ts:90-105 | Before normalisation, x is 1 exactly when D is held without A, -1 exactly when A is held without D, and 0 exactly when both or neither are held. y works the same way with W and S. z is 0. A key missing from the map counts as not held. |
| `PlayerComponent.KeyLength` | assets/Script/Player.ts:108 | The `length()` of a WASD direction is non-negative, and zero exactly when neither axis is held. Its square is proved in `KeyLengthSquares`. |
| `PlayerComponent.KeyLengthSquared` | assets/Script/Player.ts:90-105 | A WASD direction's squared length is the number of axes held (0, 1 or 2). It is zero only for the zero vector. |
| `PlayerComponent.KeyLengthSquares` | assets/Script/Player.ts:108 | The `length()` used for a WASD direction (0, 1 or √2) is non-negative, squares to the squared length, and is zero exactly for the zero vector. |
| `PlayerComponent.DiagonalKeyLength` | assets/Script/Player.ts:108 | With both axes held, the length squares to 2, the squared length of the direction. |
| `PlayerComponent.StraightKeyLength` | assets/Script/Player.ts:108 | With exactly one axis held, the length squares to 1, the squared length of the direction. |
| `PlayerComponent.NormalizedIsUnit` | assets/Script/Player.ts:108-110 | Dividing a vector by its positive length gives a vector of length 1. |
| `PlayerComponent.MoveDirection` | assets/Script/Player.ts:90-111 | The direction `updateMoveDirection` leaves lies in the xy-plane, and it is the zero vector when the keys give no raw direction. |
| `PlayerComponent.NormalizedKeyDirectionIsUnit` | assets/Script/Player.ts:107-110 | A non-zero WASD direction divided by its length has length 1. |
| `PlayerComponent.MoveDirectionIsUnit` | assets/Script/Player.ts:107-110 | After normalisation the direction is the zero vector when no axis is held (including opposite keys on both axes). Otherwise it has length exactly 1, so a diagonal is no longer than a straight line. It lies in the xy-plane. |
| `PlayerComponent.MoveDirectionSigns` | assets/Script/Player.ts:107-110 | Normalisation keeps the sign of each axis of the raw key direction. |
| `PlayerComponent.StepLength` | assets/Script/Player.ts:165-171 | The unclamped step `dir * moveDistance` has length \|moveDistance\| whenever a direction is held, and is the zero vector otherwise. Diagonal input is no faster. |
| `PlayerComponent.IsPositionInRange` | assets/Script/Player.ts:141-146 | A point is in the closed rectangle exactly when the rectangle's width and height are ≥ 0 and each of x and y is already its own nearest in-range value. A rectangle with a negative extent holds no point. |
| `Engine.Max` | assets/Script/Player.ts:153-154 | `Math.max` returns one of its two arguments, and it is at least as large as both. |
| `Engine.Min` | assets/Script/Player.ts:153-154 | `Math.min` returns one of its two arguments, and it is at most as large as both. |
| `PlayerComponent.ClampPositionToRange` | assets/Script/Player.ts:151-156 | z is copied from the input. For a rectangle with width and height ≥ 0, the result is in range and each coordinate is the nearest in-range value. A point already in range is returned unchanged. A negative width or height pins that coordinate to the rectangle's origin. |
| `PlayerComponent.ClampIdempotent` | assets/Script/Player.ts:151-156 | Clamping twice equals clamping once, for every rectangle, including one with a negative width or height. |
| `PlayerComponent.RangeCenter` | assets/Script/Player.ts:51-55 | The initial position is equidistant from opposite edges, at z = 0, and in range when width and height are ≥ 0. |
| `PlayerComponent.Advance` | assets/Script/Player.ts:158-177 | One frame leaves the position unchanged while attacking or with a zero direction. Otherwise, for a rectangle with width and height ≥ 0, the result is in range. A position in range stays in range. When pos + dir·speed·dt is in range, the result is exactly that point. z is kept for a planar direction. |
| `PlayerComponent.AdvanceWithKeys` | assets/Script/Player.ts:158-177 | With the direction the held keys give, a frame does not move the player while attacking or when no direction is held. Otherwise the player ends in range. z never changes. |
| `PlayerComponent.ReplayStaysInRange` | assets/Script/Player.ts:158-177 | A player placed in its rectangle (width and height ≥ 0) is still in it after any sequence of frames. |
| `PlayerComponent.ReplayWhileAttacking` | assets/Script/Player.ts:160-162 | Frames spent attacking never move the player. |
| `PlayerComponent.Player.constructor` | assets/Script/Player.ts:7-30 | The editor defaults: range (50, 50, 700, 400) and speed 200. The component starts not attacking, with a zero direction, an empty key map and no clip played. |
| `PlayerComponent.Player.Start` | assets/Script/Player.ts:32-46 | Without an animation, nothing changes. Otherwise the idle clip is played, the key handlers are registered and the player is put at the range centre. |
| `PlayerComponent.Player.SetInitialPosition` | assets/Script/Player.ts:51-55 | The position becomes the range centre, which is in range when width and height are ≥ 0. |
| `PlayerComponent.Player.OnKeyDown` | assets/Script/Player.ts:68-77 | The key is recorded as held. Space from idle (with an animation) enters the attack and plays the attack clip, and nothing else does. The direction is recomputed from the keys. |
| `PlayerComponent.Player.OnKeyUp` | assets/Script/Player.ts:82-85 | The key is recorded as released, and the direction is recomputed from the keys. |
| `PlayerComponent.Player.UpdateMoveDirection` | assets/Script/Player.ts:90-111 | Resetting and then incrementing the direction per held key, followed by normalisation, leaves exactly `MoveDirection` of the key map. That value is zero or of length 1 by `MoveDirectionIsUnit`. |
| `PlayerComponent.Player.PlayIdleAnimation` | assets/Script/Player.ts:116-120 | The idle clip is played only when there is an animation and no attack is running. Otherwise nothing happens. |
| `PlayerComponent.Player.PlayAttackAnimation` | assets/Script/Player.ts:125-136 | While attacking, or without an animation, nothing changes. From idle it sets `isAttacking`, plays the attack clip once and registers the one-shot FINISHED listener. |
| `PlayerComponent.Player.OnAnimationFinished` | assets/Script/Player.ts:131-134 | The listener clears `isAttacking`, unregisters itself and plays idle. With no listener registered, the event changes nothing. |
| `PlayerComponent.Player.Update` | assets/Script/Player.ts:158-177 | The new position is `Advance` of the old one with the current direction, attack flag and speed. |
| `PlayerComponent.Player.OnDestroy` | assets/Script/Player.ts:182-185 | The key handlers are unregistered. |
| `EnemyComponent.Sample` | assets/Script/Enemy.ts:81-82 | `lo + r * extent` with r in [0, 1) lies in [lo, lo + extent] for extent ≥ 0, and strictly below lo + extent for extent > 0. |
| `EnemyComponent.GetRandomPosition` | assets/Script/Enemy.ts:80-84 | Given draws in [0, 1), the point lies in [X, X+W) × [Y, Y+H) (closed on the upper side when that extent is 0) and has z = 0. |
| `EnemyComponent.DrawForOffset` | assets/Script/Enemy.ts:81-82 | Every offset in [0, extent) is produced by a draw in [0, 1). |
| `EnemyComponent.RandomPositionCoversRange` | assets/Script/Enemy.ts:80-84 | Every point of [X, X+W) × [Y, Y+H) at z = 0 is the result for some pair of draws in [0, 1). |
| `EnemyComponent.Enemy.constructor` | assets/Script/Enemy.ts:7-34 | The editor defaults: range (0, 365, 170, 170), speed 50, attack interval 3 s and move interval 2 s. The enemy starts neither attacking nor moving. |
| `EnemyComponent.Enemy.Start` | assets/Script/Enemy.ts:36-50 | Without an animation, nothing changes. Otherwise the idle clip is played and both timers are scheduled. |
| `EnemyComponent.Enemy.PlayIdleAnimation` | assets/Script/Enemy.ts:55-59 | The idle clip is played only when there is an animation and no attack is running. |
| `EnemyComponent.Enemy.PlayAttackAnimation` | assets/Script/Enemy.ts:64-75 | While attacking, or without an animation, nothing changes. From idle it sets `isAttacking`, plays the attack clip and registers the one-shot FINISHED listener. |
| `EnemyComponent.Enemy.OnAnimationFinished` | assets/Script/Enemy.ts:70-73 | The listener clears `isAttacking`, unregisters itself and plays idle. With no listener registered, nothing changes. |
| `EnemyComponent.Enemy.MoveToPosition` | assets/Script/Enemy.ts:89-105 | While moving or attacking, nothing changes. Otherwise `isMoving` is set and a tween to the target starts, with duration = distance / moveSpeed, so duration × moveSpeed is the distance. |
| `EnemyComponent.Enemy.OnTweenComplete` | assets/Script/Enemy.ts:99-104 | At completion the node is at the tween's target, `isMoving` is cleared and no tween remains. |
| `EnemyComponent.Enemy.RandomMoveTick` | assets/Script/Enemy.ts:111-116 | While attacking or moving, no move is issued. Otherwise a tween starts toward `GetRandomPosition` of the move range. |
| `EnemyComponent.Enemy.AttackTick` | assets/Script/Enemy.ts:123-125 | The attack tick is `PlayAttackAnimation`. It does nothing while attacking. |
| `EnemyComponent.Enemy.OnDestroy` | assets/Script/Enemy.ts:131-133 | Both timers are cancelled. |
| `PlayerSkillComponent.IsOutOfScreen` | assets/Script/PlayerSkill.ts:70-92 | Culled exactly when \|x\| or \|y\| strictly exceeds the screen half-extent plus half the node size. The node size is the UITransform's content size, given by the helper `NodeSize` (lines 76-78). Without a UITransform the node size is 0, and the bounds are the screen half-extents. |
| `PlayerSkillComponent.CullBoundaryExclusive` | assets/Script/PlayerSkill.ts:80-91 | A node exactly on the right bound is kept. Any distance beyond it, it is culled. |
| `PlayerSkillComponent.UpdateStep` | assets/Script/PlayerSkill.ts:29-46 | The age grows by exactly dt. At or past the lifetime, the node is destroyed without moving. Otherwise x grows by flySpeed·dt, y and z are kept, and the node is destroyed exactly when the moved position is off screen. A destroyed node stays destroyed. |
| `PlayerSkillComponent.RunAccumulates` | assets/Script/PlayerSkill.ts:29-37 | A projectile still alive after some frames has aged by exactly the sum of their dt, and that age is below its lifetime. |
| `PlayerSkillComponent.ExpiresWithinLifetime` | assets/Script/PlayerSkill.ts:31-37 | Once the age plus the frame times reaches the lifetime, the projectile has been destroyed. |
| `PlayerSkillComponent.RunKeepsRow` | assets/Script/PlayerSkill.ts:60-65 | Across any frames the projectile's y and z never change. |
| `PlayerSkillComponent.PlayerSkill.constructor` | assets/Script/PlayerSkill.ts:6-17 | The defaults are flySpeed 800, lifeTime 3 s, age 0 and screen size 0 × 0. |
| `PlayerSkillComponent.PlayerSkill.Start` | assets/Script/PlayerSkill.ts:19-27 | The screen size becomes the visible size, and the age resets to 0. |
| `PlayerSkillComponent.PlayerSkill.Update` | assets/Script/PlayerSkill.ts:29-46 | The new age, position and destroyed flag are `UpdateStep` of the old ones. |
| `PlayerSkillComponent.PlayerSkill.MoveRight` | assets/Script/PlayerSkill.ts:60-65 | x grows by flySpeed·dt, and y and z are kept. |
| `PlayerSkillComponent.PlayerSkill.DestroySkill` | assets/Script/PlayerSkill.ts:97-99 | The node is destroyed. |
| `PlayerSkillComponent.PlayerSkill.SetStartPosition` | assets/Script/PlayerSkill.ts:104-107 | Only the position changes, to the given one. |
| `PlayerSkillComponent.PlayerSkill.SetFlySpeed` | assets/Script/PlayerSkill.ts:112-115 | Only `flySpeed` changes. |
| `PlayerSkillComponent.PlayerSkill.SetLifeTime` | assets/Script/PlayerSkill.ts:120-123 | Only `lifeTime` changes. |
| `PlayerSkillComponent.PlayerSkill.GetCurrentPosition` | assets/Script/PlayerSkill.ts:128-130 | It returns the node's position and changes nothing. |

## Left out

- Engine plumbing is foreign code, so it is replaced by fields:
  - the `input.on`/`off` registration is the `listening` flag;
  - `schedule`/`unscheduleAllCallbacks` is the `scheduled` flag, and the timer bodies are the tick methods the engine would call;
  - `animation.play` is an entry appended to `clips`;
  - `animation.once` is `finishedListener`, with `OnAnimationFinished` as the event;
  - `node.destroy` is the `destroyed` flag.
- The tween's interpolation over time is left out. Only its target, its duration and its completion callback are modelled. The node's position between start and completion is not.
- `view.getVisibleSize()` and the `UITransform` lookup are parameters: the visible size is a `Size`, and the node's content size is an `Option<Size>` that is `None` when the node has no UITransform.
- `Math.random()` draws are parameters in [0, 1).
- Floating point is modelled as exact `real` arithmetic. Rounding, NaN and infinities are not modelled.
- Dafny's reals have no square root, so `Math.sqrt` results are inputs:
  - `PlayerComponent.Player.constructor`: takes `sqrt2`, a positive number whose square is 2, as the length of a diagonal WASD direction. The other WASD lengths (0 and 1) are exact.
  - `EnemyComponent.Enemy.MoveToPosition`: takes `distance`, the engine's `Vec3.distance`, with the requirement that it is non-negative and squares to the squared distance. `RandomMoveTick` passes it on.
- `EnemyComponent.Enemy.MoveToPosition`: requires `moveSpeed > 0` only when it would start a tween, that is, when the enemy is neither moving nor attacking. `RandomMoveTick`, which calls it, has the same requirement. This keeps the duration a division by a non-zero number. The script divides by `moveSpeed` unguarded at that point. In JavaScript a zero speed gives an infinite duration for a positive distance, and NaN for a zero distance. The model does not cover either case. While moving or attacking, both methods return before the division, and the model admits any speed there. Nothing in the script changes `moveSpeed` from its default of 50. No other enemy method depends on the speed.
- The `console.error` on a missing Animation is left out. Only its early return is modelled, with `hasAnimation` as the component's fixed wiring.
- Values the editor may set in place of the `@property` defaults are not modelled beyond the defaults the constructors set. Apart from the two moving methods above, which need a positive speed when they start a tween, every method works on whatever the fields hold.
- `KeyCode` has only the keys the scripts test (A, D, W, S, Space). Every other key is `OtherKey(code)`, which is recorded in the key map and otherwise ignored.
