/**
 * The player script: WASD keys give a movement direction (normalised, so
 * diagonal input is no faster), Space starts an attack that locks movement
 * until the attack clip finishes, and each frame moves the node by
 * direction * speed * dt, clamped to an axis-aligned move rectangle.
 */
module PlayerComponent {
  import opened Engine

  const IdleClip: string := "Player_Idle"
  const AttackClip: string := "Player_Attack"

  /** The keys the script reacts to; every other key is only recorded in the key map. */
  datatype KeyCode = KeyA | KeyD | KeyW | KeyS | Space | OtherKey(code: nat)

  /**
   * A key counts as held when the key map says `true`; a key never seen reads as
   * `undefined`, which is falsy.
   */
  predicate Pressed(keys: map<KeyCode, bool>, k: KeyCode)
  {
    k in keys && keys[k]
  }

  function Bit(b: bool): real
  {
    if b then 1.0 else 0.0
  }

  /** The direction before normalisation: D minus A on x, W minus S on y, nothing on z. */
  function RawDirection(keys: map<KeyCode, bool>): (d: Vec3)
    ensures d.z == 0.0
    ensures d.x == 1.0 <==> Pressed(keys, KeyD) && !Pressed(keys, KeyA)
    ensures d.x == -1.0 <==> Pressed(keys, KeyA) && !Pressed(keys, KeyD)
    ensures d.x == 0.0 <==> Pressed(keys, KeyA) == Pressed(keys, KeyD)
    ensures d.y == 1.0 <==> Pressed(keys, KeyW) && !Pressed(keys, KeyS)
    ensures d.y == -1.0 <==> Pressed(keys, KeyS) && !Pressed(keys, KeyW)
    ensures d.y == 0.0 <==> Pressed(keys, KeyW) == Pressed(keys, KeyS)
  {
    Vec3(Bit(Pressed(keys, KeyD)) - Bit(Pressed(keys, KeyA)),
         Bit(Pressed(keys, KeyW)) - Bit(Pressed(keys, KeyS)),
         0.0)
  }

  /** What one axis of a WASD direction can be before normalisation: -1, 0 or 1. */
  predicate IsAxisStep(a: real)
  {
    a == -1.0 || a == 0.0 || a == 1.0
  }

  /** A direction WASD input can produce before normalisation. */
  predicate IsKeyDirection(v: Vec3)
  {
    IsAxisStep(v.x) && IsAxisStep(v.y) && v.z == 0.0
  }

  /**
   * The square root of two, as the engine's `Math.sqrt(2)` gives it. Dafny's
   * reals have no square root, so a player is built with this number supplied.
   */
  predicate IsSqrt2(s: real)
  {
    s > 0.0 && s * s == 2.0
  }

  /** 1 for a held axis, 0 for an idle one. */
  function HeldAxis(a: real): real
  {
    if a == 0.0 then 0.0 else 1.0
  }

  lemma AxisStepSquare(a: real)
    requires IsAxisStep(a)
    ensures a * a == HeldAxis(a)
  {
    if a == -1.0 {
      assert a * a == (-1.0) * (-1.0);
    }
  }

  /** The squared length of a WASD direction counts its held axes: 0, 1 or 2. */
  lemma KeyLengthSquared(v: Vec3)
    requires IsKeyDirection(v)
    ensures LengthSquared(v) == HeldAxis(v.x) + HeldAxis(v.y)
    ensures LengthSquared(v) == 0.0 <==> v == Zero
  {
    AxisStepSquare(v.x);
    AxisStepSquare(v.y);
  }

  /**
   * The engine's `length()` of a WASD direction: the square root of 0, 1 or 2,
   * which is exact here.
   */
  function KeyLength(v: Vec3, sqrt2: real): (len: real)
    ensures IsSqrt2(sqrt2) ==> len >= 0.0 && (len == 0.0 <==> v.x == 0.0 && v.y == 0.0)
  {
    if v.x != 0.0 && v.y != 0.0 then sqrt2
    else if v.x != 0.0 || v.y != 0.0 then 1.0
    else 0.0
  }

  /** KeyLength is the length of a WASD direction, and is zero only for the zero vector. */
  lemma KeyLengthSquares(v: Vec3, sqrt2: real)
    requires IsKeyDirection(v) && IsSqrt2(sqrt2)
    ensures KeyLength(v, sqrt2) >= 0.0
    ensures KeyLength(v, sqrt2) * KeyLength(v, sqrt2) == LengthSquared(v)
    ensures KeyLength(v, sqrt2) == 0.0 <==> v == Zero
  {
    if v.x != 0.0 && v.y != 0.0 {
      DiagonalKeyLength(v, sqrt2);
    } else if v.x != 0.0 || v.y != 0.0 {
      StraightKeyLength(v, sqrt2);
    } else {
      assert v == Zero;
    }
  }

  /** Two held axes: the length is the square root of two. */
  lemma DiagonalKeyLength(v: Vec3, sqrt2: real)
    requires IsKeyDirection(v) && IsSqrt2(sqrt2) && v.x != 0.0 && v.y != 0.0
    ensures KeyLength(v, sqrt2) * KeyLength(v, sqrt2) == LengthSquared(v)
  {
    assert LengthSquared(v) == 2.0 by {
      KeyLengthSquared(v);
    }
    assert KeyLength(v, sqrt2) == sqrt2;
  }

  /** One held axis: the length is one. */
  lemma StraightKeyLength(v: Vec3, sqrt2: real)
    requires IsKeyDirection(v) && (v.x != 0.0 || v.y != 0.0) && !(v.x != 0.0 && v.y != 0.0)
    ensures KeyLength(v, sqrt2) * KeyLength(v, sqrt2) == LengthSquared(v)
  {
    assert LengthSquared(v) == 1.0 by {
      KeyLengthSquared(v);
    }
    assert KeyLength(v, sqrt2) == 1.0;
  }

  /** Scaling a non-zero vector by the inverse of its length gives a unit vector. */
  lemma NormalizedIsUnit(v: Vec3, len: real)
    requires len > 0.0 && len * len == LengthSquared(v)
    ensures LengthSquared(Scale(v, 1.0 / len)) == 1.0
  {
    ScaleLengthSquared(v, 1.0 / len);
    assert (1.0 / len) * (1.0 / len) * (len * len) == 1.0 by {
      assert (1.0 / len) * len == 1.0;
    }
  }

  /**
   * The direction `updateMoveDirection` leaves: the raw direction, normalised
   * when it is not zero (exactly when its length is positive).
   */
  function MoveDirection(keys: map<KeyCode, bool>, sqrt2: real): (d: Vec3)
    requires IsSqrt2(sqrt2)
    ensures d.z == 0.0
    ensures RawDirection(keys) == Zero ==> d == Zero
  {
    var raw := RawDirection(keys);
    if raw != Zero then Scale(raw, 1.0 / KeyLength(raw, sqrt2)) else raw
  }

  /**
   * After `updateMoveDirection` the direction is the zero vector (no key, or
   * opposite keys on both axes) or has length one, so diagonal input is no
   * longer than straight input; it lies in the xy-plane.
   */
  lemma MoveDirectionIsUnit(keys: map<KeyCode, bool>, sqrt2: real)
    requires IsSqrt2(sqrt2)
    ensures RawDirection(keys) == Zero ==> MoveDirection(keys, sqrt2) == Zero
    ensures RawDirection(keys) != Zero ==> LengthSquared(MoveDirection(keys, sqrt2)) == 1.0
    ensures MoveDirection(keys, sqrt2).z == 0.0
  {
    var raw := RawDirection(keys);
    if raw != Zero {
      NormalizedKeyDirectionIsUnit(raw, sqrt2);
    }
  }

  /** A non-zero WASD direction divided by its `KeyLength` has length one. */
  lemma NormalizedKeyDirectionIsUnit(raw: Vec3, sqrt2: real)
    requires IsKeyDirection(raw) && IsSqrt2(sqrt2) && raw != Zero
    ensures LengthSquared(Scale(raw, 1.0 / KeyLength(raw, sqrt2))) == 1.0
  {
    KeyLengthSquares(raw, sqrt2);
    NormalizedIsUnit(raw, KeyLength(raw, sqrt2));
  }

  /** Normalising keeps the sign of the raw direction on each axis. */
  lemma MoveDirectionSigns(keys: map<KeyCode, bool>, sqrt2: real)
    requires IsSqrt2(sqrt2)
    ensures var d, raw := MoveDirection(keys, sqrt2), RawDirection(keys);
      (d.x > 0.0 <==> raw.x > 0.0) && (d.x < 0.0 <==> raw.x < 0.0) &&
      (d.y > 0.0 <==> raw.y > 0.0) && (d.y < 0.0 <==> raw.y < 0.0)
  {
    var raw := RawDirection(keys);
    if raw != Zero {
      var len := KeyLength(raw, sqrt2);
      assert len > 0.0 by {
        KeyLengthSquares(raw, sqrt2);
      }
      var k := 1.0 / len;
      assert MoveDirection(keys, sqrt2) == Scale(raw, k) by {
        KeyLengthSquared(raw);
      }
      SignOfProduct(raw.x, k);
      SignOfProduct(raw.y, k);
    }
  }

  /**
   * Diagonal input is no faster: the displacement of one unclamped step, the
   * direction scaled by `moveDistance` (speed * dt), has length |moveDistance|
   * whenever any direction is held.
   */
  lemma StepLength(keys: map<KeyCode, bool>, sqrt2: real, moveDistance: real)
    requires IsSqrt2(sqrt2)
    ensures RawDirection(keys) != Zero ==>
      LengthSquared(Scale(MoveDirection(keys, sqrt2), moveDistance)) == moveDistance * moveDistance
    ensures RawDirection(keys) == Zero ==>
      Scale(MoveDirection(keys, sqrt2), moveDistance) == Zero
  {
    var d, k := MoveDirection(keys, sqrt2), moveDistance;
    if RawDirection(keys) != Zero {
      assert LengthSquared(d) == 1.0 by {
        MoveDirectionIsUnit(keys, sqrt2);
      }
      ScaleUnitLength(d, k);
    } else {
      assert d == Zero by {
        MoveDirectionIsUnit(keys, sqrt2);
      }
    }
  }

  /**
   * `isPositionInRange`: inside the closed rectangle. Only a rectangle with
   * non-negative extents holds any point, and the points it holds are exactly
   * those every axis already at its nearest in-range value.
   */
  predicate IsPositionInRange(r: Rect, pos: Vec3): (b: bool)
    ensures b <==> NonNegative(r) && Nearest(pos.x, r.x, r.width) == pos.x && Nearest(pos.y, r.y, r.height) == pos.y
  {
    pos.x >= r.x && pos.x <= r.x + r.width &&
    pos.y >= r.y && pos.y <= r.y + r.height
  }

  predicate NonNegative(r: Rect)
  {
    r.width >= 0.0 && r.height >= 0.0
  }

  /** The nearest in-range value on one axis, for an interval [lo, lo + extent] with extent >= 0. */
  function Nearest(a: real, lo: real, extent: real): real
  {
    if a < lo then lo else if a > lo + extent then lo + extent else a
  }

  /**
   * `clampPositionToRange`: x and y pulled into the rectangle with Math.max and
   * Math.min, z copied. For a non-negative rectangle the result is the nearest
   * point of the rectangle, hence in range, and a point already in range is left
   * alone; with a negative width (or height) the coordinate is pinned to the
   * rectangle's origin.
   */
  function ClampPositionToRange(r: Rect, pos: Vec3): (c: Vec3)
    ensures c.z == pos.z
    ensures NonNegative(r) ==> IsPositionInRange(r, c)
    ensures IsPositionInRange(r, pos) ==> c == pos
    ensures r.width >= 0.0 ==> c.x == Nearest(pos.x, r.x, r.width)
    ensures r.height >= 0.0 ==> c.y == Nearest(pos.y, r.y, r.height)
    ensures r.width < 0.0 ==> c.x == r.x
    ensures r.height < 0.0 ==> c.y == r.y
  {
    pos.(x := Max(r.x, Min(r.x + r.width, pos.x)),
         y := Max(r.y, Min(r.y + r.height, pos.y)))
  }

  /** Clamping twice is clamping once. */
  lemma ClampIdempotent(r: Rect, pos: Vec3)
    ensures ClampPositionToRange(r, ClampPositionToRange(r, pos)) == ClampPositionToRange(r, pos)
  {
  }

  /** `setInitialPosition`: the centre of the rectangle, at z = 0. */
  function RangeCenter(r: Rect): (c: Vec3)
    ensures c.z == 0.0
    ensures c.x - r.x == r.x + r.width - c.x && c.y - r.y == r.y + r.height - c.y
    ensures NonNegative(r) ==> IsPositionInRange(r, c)
  {
    Vec3(r.x + r.width / 2.0, r.y + r.height / 2.0, 0.0)
  }

  /**
   * The position after one `update(dt)`: unchanged while attacking or with no
   * direction held, otherwise pos + dir * (speed * dt) clamped to the range.
   */
  function Advance(r: Rect, speed: real, pos: Vec3, dir: Vec3, attacking: bool, dt: real): (next: Vec3)
    ensures attacking || dir == Zero ==> next == pos
    ensures !attacking && LengthSquared(dir) > 0.0 && NonNegative(r) ==> IsPositionInRange(r, next)
    ensures NonNegative(r) && IsPositionInRange(r, pos) ==> IsPositionInRange(r, next)
    ensures !attacking && LengthSquared(dir) > 0.0 && IsPositionInRange(r, Add(pos, Scale(dir, speed * dt))) ==>
      next == Add(pos, Scale(dir, speed * dt))
    ensures dir.z == 0.0 ==> next.z == pos.z
  {
    if !attacking && LengthSquared(dir) > 0.0 then ClampPositionToRange(r, Add(pos, Scale(dir, speed * dt)))
    else pos
  }

  /**
   * One frame with the direction the held keys give: no movement while
   * attacking or when no direction is held (including opposite keys); otherwise
   * the player ends in range, at the same z, and exactly at pos + dir * speed * dt
   * when that point is in range.
   */
  lemma AdvanceWithKeys(r: Rect, speed: real, pos: Vec3, keys: map<KeyCode, bool>, sqrt2: real, attacking: bool, dt: real)
    requires IsSqrt2(sqrt2)
    ensures var next := Advance(r, speed, pos, MoveDirection(keys, sqrt2), attacking, dt);
      && (attacking || RawDirection(keys) == Zero ==> next == pos)
      && (!attacking && RawDirection(keys) != Zero && NonNegative(r) ==> IsPositionInRange(r, next))
      && next.z == pos.z
  {
    var d := MoveDirection(keys, sqrt2);
    assert d.z == 0.0 && (RawDirection(keys) == Zero ==> d == Zero) &&
      (RawDirection(keys) != Zero ==> LengthSquared(d) > 0.0) by {
      MoveDirectionIsUnit(keys, sqrt2);
    }
  }

  /** What one frame feeds `update`: the held direction, the attack flag and the frame time. */
  datatype Frame = Frame(dir: Vec3, attacking: bool, dt: real)

  /** The position after the engine has called `update` once per frame, in order. */
  function Replay(r: Rect, speed: real, pos: Vec3, frames: seq<Frame>): Vec3
    decreases |frames|
  {
    if frames == [] then pos
    else
      var f := frames[0];
      Replay(r, speed, Advance(r, speed, pos, f.dir, f.attacking, f.dt), frames[1..])
  }

  /** A player placed in range stays in range, whatever the frames. */
  lemma {:induction false} ReplayStaysInRange(r: Rect, speed: real, pos: Vec3, frames: seq<Frame>)
    requires NonNegative(r) && IsPositionInRange(r, pos)
    ensures IsPositionInRange(r, Replay(r, speed, pos, frames))
    decreases |frames|
  {
    if frames != [] {
      var f := frames[0];
      ReplayStaysInRange(r, speed, Advance(r, speed, pos, f.dir, f.attacking, f.dt), frames[1..]);
    }
  }

  /** Frames spent attacking never move the player. */
  lemma {:induction false} ReplayWhileAttacking(r: Rect, speed: real, pos: Vec3, frames: seq<Frame>)
    requires forall i :: 0 <= i < |frames| ==> frames[i].attacking
    ensures Replay(r, speed, pos, frames) == pos
    decreases |frames|
  {
    if frames != [] {
      ReplayWhileAttacking(r, speed, pos, frames[1..]);
    }
  }

  /** The player component: its editor properties, its flags and its node position. */
  class Player {
    var moveRangeX: real
    var moveRangeY: real
    var moveRangeWidth: real
    var moveRangeHeight: real
    var moveSpeed: real

    /** Whether an Animation component is attached; without one nothing is played. */
    const hasAnimation: bool
    const sqrt2: real

    var isAttacking: bool
    var moveDirection: Vec3
    var keyStates: map<KeyCode, bool>
    /** The node's position. */
    var position: Vec3
    /** Every clip name handed to the animation, in order. */
    var clips: seq<string>
    /** Whether a one-shot FINISHED listener is registered on the animation. */
    var finishedListener: bool
    /** Whether the key-down and key-up handlers are registered. */
    var listening: bool

    /**
     * The attack flag is set exactly while the one-shot FINISHED listener is
     * registered, and the direction is the one the held keys give.
     */
    ghost predicate Valid()
      reads this
    {
      && (isAttacking <==> finishedListener)
      && (isAttacking ==> hasAnimation)
      && DirectionMatchesKeys()
    }

    ghost predicate DirectionMatchesKeys()
      reads this`keyStates, this`moveDirection
    {
      IsSqrt2(sqrt2) && moveDirection == MoveDirection(keyStates, sqrt2)
    }

    function MoveRange(): Rect
      reads this
    {
      Rect(moveRangeX, moveRangeY, moveRangeWidth, moveRangeHeight)
    }

    constructor (hasAnimation: bool, sqrt2: real)
      requires IsSqrt2(sqrt2)
      ensures Valid()
      ensures this.hasAnimation == hasAnimation && this.sqrt2 == sqrt2
      ensures MoveRange() == Rect(50.0, 50.0, 700.0, 400.0) && moveSpeed == 200.0
      ensures !isAttacking && moveDirection == Zero && keyStates == map[]
      ensures position == Zero && clips == [] && !listening
    {
      this.hasAnimation := hasAnimation;
      this.sqrt2 := sqrt2;
      moveRangeX, moveRangeY := 50.0, 50.0;
      moveRangeWidth, moveRangeHeight := 700.0, 400.0;
      moveSpeed := 200.0;
      isAttacking := false;
      moveDirection := Zero;
      keyStates := map[];
      position := Zero;
      clips := [];
      finishedListener := false;
      listening := false;
    }

    /**
     * `start`: without an animation it stops at once; otherwise it plays idle,
     * registers the key handlers and puts the player at the range centre.
     */
    method Start()
      requires Valid()
      modifies this`clips, this`listening, this`position
      ensures Valid()
      ensures !hasAnimation ==> clips == old(clips) && listening == old(listening) && position == old(position)
      ensures hasAnimation ==> listening && position == RangeCenter(MoveRange())
      ensures hasAnimation ==> clips == old(clips) + (if isAttacking then [] else [IdleClip])
    {
      if !hasAnimation {
        return;
      }
      PlayIdleAnimation();
      listening := true;
      SetInitialPosition();
    }

    method SetInitialPosition()
      modifies this`position
      ensures position == RangeCenter(MoveRange())
      ensures NonNegative(MoveRange()) ==> IsPositionInRange(MoveRange(), position)
    {
      var centerX := moveRangeX + moveRangeWidth / 2.0;
      var centerY := moveRangeY + moveRangeHeight / 2.0;
      position := Vec3(centerX, centerY, 0.0);
    }

    /** Records the key as held; Space also requests an attack. */
    method OnKeyDown(key: KeyCode)
      requires Valid()
      modifies this`keyStates, this`isAttacking, this`clips, this`finishedListener, this`moveDirection
      ensures Valid()
      ensures keyStates == old(keyStates)[key := true]
      ensures isAttacking == (old(isAttacking) || (key == Space && hasAnimation))
      ensures clips == old(clips) + (if key == Space && hasAnimation && !old(isAttacking) then [AttackClip] else [])
    {
      keyStates := keyStates[key := true];
      if key == Space {
        PlayAttackAnimation();
      }
      UpdateMoveDirection();
    }

    /** Records the key as released. */
    method OnKeyUp(key: KeyCode)
      requires Valid()
      modifies this`keyStates, this`moveDirection
      ensures Valid()
      ensures keyStates == old(keyStates)[key := false]
    {
      keyStates := keyStates[key := false];
      UpdateMoveDirection();
    }

    /** Resets the direction, adds one unit per held key, then normalises. */
    method UpdateMoveDirection()
      requires IsSqrt2(sqrt2)
      modifies this`moveDirection
      ensures moveDirection == MoveDirection(keyStates, sqrt2)
    {
      moveDirection := Zero;
      if Pressed(keyStates, KeyA) {
        moveDirection := moveDirection.(x := moveDirection.x - 1.0);
      }
      if Pressed(keyStates, KeyD) {
        moveDirection := moveDirection.(x := moveDirection.x + 1.0);
      }
      if Pressed(keyStates, KeyW) {
        moveDirection := moveDirection.(y := moveDirection.y + 1.0);
      }
      if Pressed(keyStates, KeyS) {
        moveDirection := moveDirection.(y := moveDirection.y - 1.0);
      }
      assert moveDirection == RawDirection(keyStates);
      KeyLengthSquared(moveDirection);
      if LengthSquared(moveDirection) > 0.0 {
        var len := KeyLength(moveDirection, sqrt2);
        moveDirection := Scale(moveDirection, 1.0 / len);
      }
    }

    /** Plays the idle clip, unless there is no animation or an attack is running. */
    method PlayIdleAnimation()
      modifies this`clips
      ensures clips == old(clips) + (if hasAnimation && !isAttacking then [IdleClip] else [])
    {
      if hasAnimation && !isAttacking {
        clips := clips + [IdleClip];
      }
    }

    /**
     * From idle, enters the attack: sets the flag, plays the attack clip and
     * registers a one-shot FINISHED listener. While attacking it does nothing.
     */
    method PlayAttackAnimation()
      requires Valid()
      modifies this`isAttacking, this`clips, this`finishedListener
      ensures Valid()
      ensures old(isAttacking) || !hasAnimation ==>
        isAttacking == old(isAttacking) && clips == old(clips) && finishedListener == old(finishedListener)
      ensures !old(isAttacking) && hasAnimation ==>
        isAttacking && finishedListener && clips == old(clips) + [AttackClip]
    {
      if hasAnimation && !isAttacking {
        isAttacking := true;
        clips := clips + [AttackClip];
        finishedListener := true;
      }
    }

    /**
     * The animation's FINISHED event. A registered listener runs once: it leaves
     * the attack and plays idle. Without a listener nothing happens.
     */
    method OnAnimationFinished()
      requires Valid()
      modifies this`isAttacking, this`clips, this`finishedListener
      ensures Valid()
      ensures !isAttacking && !finishedListener
      ensures old(isAttacking) ==> clips == old(clips) + [IdleClip]
      ensures !old(isAttacking) ==> clips == old(clips)
    {
      if finishedListener {
        finishedListener := false;
        isAttacking := false;
        PlayIdleAnimation();
      }
    }

    /** One frame: moves along the held direction unless attacking, clamped to the range. */
    method Update(dt: real)
      modifies this`position
      ensures position == Advance(MoveRange(), moveSpeed, old(position), moveDirection, isAttacking, dt)
    {
      if isAttacking {
        return;
      }
      if LengthSquared(moveDirection) > 0.0 {
        var currentPos := position;
        var moveDistance := moveSpeed * dt;
        var newPos := Add(currentPos, Scale(moveDirection, moveDistance));
        var clampedPos := ClampPositionToRange(MoveRange(), newPos);
        position := clampedPos;
      }
    }

    /** `onDestroy`: unregisters the key handlers. */
    method OnDestroy()
      modifies this`listening
      ensures !listening
    {
      listening := false;
    }
  }
}
