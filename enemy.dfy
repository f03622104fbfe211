/**
 * The enemy script: it idles, attacks on a timer (the attack is left only when
 * the attack clip finishes), and on another timer wanders to a random point of
 * its move rectangle with a tween, ignoring new targets while one move is in
 * flight or while attacking.
 */
module EnemyComponent {
  import opened Engine

  const IdleClip: string := "Enemy_Idle"
  const AttackClip: string := "Enemy_Attack"

  /** A tween in flight: the node is being moved to `target` over `duration` seconds. */
  datatype Tween = Tween(target: Vec3, duration: real)

  /** What `Math.random()` returns: a number in [0, 1). */
  predicate IsDraw(r: real)
  {
    0.0 <= r < 1.0
  }

  /**
   * One coordinate of a random point: lo + r * extent, which lies in
   * [lo, lo + extent] for a non-negative extent and below lo + extent for a
   * positive one.
   */
  function Sample(lo: real, extent: real, r: real): (v: real)
    requires IsDraw(r)
    ensures extent >= 0.0 ==> lo <= v <= lo + extent
    ensures extent > 0.0 ==> v < lo + extent
  {
    assert extent >= 0.0 ==> r * extent >= 0.0;
    assert extent > 0.0 ==> r * extent < extent by {
      if extent > 0.0 {
        assert extent - r * extent == (1.0 - r) * extent;
      }
    }
    lo + r * extent
  }

  /**
   * `getRandomPosition` with the two `Math.random()` draws passed in: a point of
   * the half-open rectangle [x, x + width) x [y, y + height) at z = 0 (a zero
   * extent pins that coordinate to the origin).
   */
  function GetRandomPosition(range: Rect, r1: real, r2: real): (p: Vec3)
    requires IsDraw(r1) && IsDraw(r2)
    ensures p.z == 0.0
    ensures range.width >= 0.0 ==> range.x <= p.x <= range.x + range.width
    ensures range.width > 0.0 ==> p.x < range.x + range.width
    ensures range.height >= 0.0 ==> range.y <= p.y <= range.y + range.height
    ensures range.height > 0.0 ==> p.y < range.y + range.height
  {
    Vec3(Sample(range.x, range.width, r1), Sample(range.y, range.height, r2), 0.0)
  }

  /** The draw that lands on offset a of an interval of positive extent lies in [0, 1). */
  lemma DrawForOffset(a: real, extent: real)
    requires extent > 0.0 && 0.0 <= a < extent
    ensures IsDraw(a / extent) && (a / extent) * extent == a
  {
    var q := a / extent;
    assert q * extent == a;
    assert (1.0 - q) * extent == extent - a;
    SignOfProduct(q, extent);
    SignOfProduct(1.0 - q, extent);
  }

  /**
   * Every point of the half-open rectangle can be drawn: the draws
   * (p.x - x) / width and (p.y - y) / height lie in [0, 1) and give p.
   */
  lemma RandomPositionCoversRange(range: Rect, p: Vec3)
    requires range.width > 0.0 && range.height > 0.0
    requires range.x <= p.x < range.x + range.width && range.y <= p.y < range.y + range.height
    requires p.z == 0.0
    ensures IsDraw((p.x - range.x) / range.width) && IsDraw((p.y - range.y) / range.height)
    ensures GetRandomPosition(range, (p.x - range.x) / range.width, (p.y - range.y) / range.height) == p
  {
    DrawForOffset(p.x - range.x, range.width);
    DrawForOffset(p.y - range.y, range.height);
  }

  /** The enemy component: its editor properties, its two flags, its node position and its tween. */
  class Enemy {
    var moveRangeX: real
    var moveRangeY: real
    var moveRangeWidth: real
    var moveRangeHeight: real
    var moveSpeed: real
    /** Seconds between attack ticks and between wander ticks; the timers themselves are engine code. */
    var attackInterval: real
    var moveInterval: real

    /** Whether an Animation component is attached; without one nothing is played. */
    const hasAnimation: bool

    var isAttacking: bool
    var isMoving: bool
    /** The node's position. */
    var position: Vec3
    /** Every clip name handed to the animation, in order. */
    var clips: seq<string>
    /** Whether a one-shot FINISHED listener is registered on the animation. */
    var finishedListener: bool
    /** The move tween in flight, if any. */
    var tween: Option<Tween>
    /** Whether the wander and attack timers are scheduled. */
    var scheduled: bool

    /**
     * The attack flag is set exactly while the FINISHED listener is registered,
     * and the moving flag exactly while a tween is in flight.
     */
    ghost predicate Valid()
      reads this
    {
      && (isAttacking <==> finishedListener)
      && (isAttacking ==> hasAnimation)
      && (isMoving <==> tween.Some?)
    }

    function MoveRange(): Rect
      reads this
    {
      Rect(moveRangeX, moveRangeY, moveRangeWidth, moveRangeHeight)
    }

    constructor (hasAnimation: bool)
      ensures Valid()
      ensures this.hasAnimation == hasAnimation
      ensures MoveRange() == Rect(0.0, 365.0, 170.0, 170.0) && moveSpeed == 50.0
      ensures attackInterval == 3.0 && moveInterval == 2.0
      ensures !isAttacking && !isMoving && tween == None
      ensures position == Zero && clips == [] && !scheduled
    {
      this.hasAnimation := hasAnimation;
      moveRangeX, moveRangeY := 0.0, 365.0;
      moveRangeWidth, moveRangeHeight := 170.0, 170.0;
      moveSpeed := 50.0;
      attackInterval, moveInterval := 3.0, 2.0;
      isAttacking, isMoving := false, false;
      position := Zero;
      clips := [];
      finishedListener := false;
      tween := None;
      scheduled := false;
    }

    /** `start`: without an animation it stops at once; otherwise it plays idle and starts both timers. */
    method Start()
      requires Valid()
      modifies this`clips, this`scheduled
      ensures Valid()
      ensures !hasAnimation ==> clips == old(clips) && scheduled == old(scheduled)
      ensures hasAnimation ==> scheduled && clips == old(clips) + (if isAttacking then [] else [IdleClip])
    {
      if !hasAnimation {
        return;
      }
      PlayIdleAnimation();
      scheduled := true;
    }

    /** Plays the idle clip, unless there is no animation or an attack is running. */
    method PlayIdleAnimation()
      modifies this`clips
      ensures clips == old(clips) + (if hasAnimation && !isAttacking then [IdleClip] else [])
    {
      if hasAnimation && !isAttacking {
        clips := clips + [IdleClip];
      }
    }

    /**
     * From idle, enters the attack: sets the flag, plays the attack clip and
     * registers a one-shot FINISHED listener. While attacking it does nothing.
     */
    method PlayAttackAnimation()
      requires Valid()
      modifies this`isAttacking, this`clips, this`finishedListener
      ensures Valid()
      ensures old(isAttacking) || !hasAnimation ==>
        isAttacking == old(isAttacking) && clips == old(clips) && finishedListener == old(finishedListener)
      ensures !old(isAttacking) && hasAnimation ==>
        isAttacking && finishedListener && clips == old(clips) + [AttackClip]
    {
      if hasAnimation && !isAttacking {
        isAttacking := true;
        clips := clips + [AttackClip];
        finishedListener := true;
      }
    }

    /**
     * The animation's FINISHED event. A registered listener runs once: it leaves
     * the attack and plays idle. Without a listener nothing happens.
     */
    method OnAnimationFinished()
      requires Valid()
      modifies this`isAttacking, this`clips, this`finishedListener
      ensures Valid()
      ensures !isAttacking && !finishedListener
      ensures old(isAttacking) ==> clips == old(clips) + [IdleClip]
      ensures !old(isAttacking) ==> clips == old(clips)
    {
      if finishedListener {
        finishedListener := false;
        isAttacking := false;
        PlayIdleAnimation();
      }
    }

    /**
     * `moveToPosition`, with `distance` the engine's `Vec3.distance` from the
     * node to the target. Ignored while moving or attacking; otherwise it sets
     * the moving flag and starts a tween to the target lasting distance / speed,
     * so the node travels at `moveSpeed`.
     */
    method MoveToPosition(targetPos: Vec3, distance: real)
      requires Valid() && (!isMoving && !isAttacking ==> moveSpeed > 0.0)
      requires distance >= 0.0 && distance * distance == DistanceSquared(position, targetPos)
      modifies this`isMoving, this`tween
      ensures Valid()
      ensures old(isMoving) || isAttacking ==> isMoving == old(isMoving) && tween == old(tween)
      ensures !old(isMoving) && !isAttacking ==>
        isMoving && tween == Some(Tween(targetPos, distance / moveSpeed))
      ensures !old(isMoving) && !isAttacking ==> tween.value.duration * moveSpeed == distance
    {
      if isMoving || isAttacking {
        return;
      }
      isMoving := true;
      var duration := distance / moveSpeed;
      tween := Some(Tween(targetPos, duration));
    }

    /** The tween's completion callback: the node is at the target and may move again. */
    method OnTweenComplete()
      requires Valid()
      modifies this`position, this`isMoving, this`tween
      ensures Valid()
      ensures !isMoving && tween == None
      ensures old(tween).Some? ==> position == old(tween).value.target
      ensures old(tween).None? ==> position == old(position)
    {
      if tween.Some? {
        position := tween.value.target;
        isMoving := false;
        tween := None;
      }
    }

    /**
     * The wander timer's tick, with the two `Math.random()` draws and the
     * distance to the drawn point passed in: nothing while attacking; otherwise
     * a move to a random point of the move rectangle is requested.
     */
    method RandomMoveTick(r1: real, r2: real, distance: real)
      requires Valid() && (!isMoving && !isAttacking ==> moveSpeed > 0.0) && IsDraw(r1) && IsDraw(r2)
      requires distance >= 0.0 && distance * distance == DistanceSquared(position, GetRandomPosition(MoveRange(), r1, r2))
      modifies this`isMoving, this`tween
      ensures Valid()
      ensures old(isMoving) || isAttacking ==> isMoving == old(isMoving) && tween == old(tween)
      ensures !old(isMoving) && !isAttacking ==>
        isMoving && tween == Some(Tween(GetRandomPosition(MoveRange(), r1, r2), distance / moveSpeed))
    {
      if !isAttacking {
        var randomPos := GetRandomPosition(MoveRange(), r1, r2);
        MoveToPosition(randomPos, distance);
      }
    }

    /** The attack timer's tick. */
    method AttackTick()
      requires Valid()
      modifies this`isAttacking, this`clips, this`finishedListener
      ensures Valid()
      ensures old(isAttacking) || !hasAnimation ==>
        isAttacking == old(isAttacking) && clips == old(clips) && finishedListener == old(finishedListener)
      ensures !old(isAttacking) && hasAnimation ==>
        isAttacking && finishedListener && clips == old(clips) + [AttackClip]
    {
      PlayAttackAnimation();
    }

    /** `onDestroy`: cancels both timers. */
    method OnDestroy()
      modifies this`scheduled
      ensures !scheduled
    {
      scheduled := false;
    }
  }
}
