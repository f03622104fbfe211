/**
 * The player's projectile: each frame it ages by the frame time and is
 * destroyed once its age reaches its lifetime; otherwise it flies right and is
 * destroyed once it is wholly outside the visible screen, whose centre is the
 * origin.
 */
module PlayerSkillComponent {
  import opened Engine

  /** The node's content size from its UITransform, or 0 x 0 when it has none. */
  function NodeSize(uiTransform: Option<Size>): Size
  {
    if uiTransform.Some? then uiTransform.value else Size(0.0, 0.0)
  }

  /**
   * `isOutOfScreen`: the position is strictly beyond one of the four bounds,
   * each the screen's half-extent widened by half the node's size. In terms of
   * distance from the screen centre: culled exactly when |x| or |y| exceeds
   * that half-extent, so a node touching a bound is kept. Without a
   * UITransform the bounds are the screen's own half-extents.
   */
  function IsOutOfScreen(pos: Vec3, screen: Size, uiTransform: Option<Size>): (out: bool)
    ensures out <==>
      Abs(pos.x) > screen.width / 2.0 + NodeSize(uiTransform).width / 2.0 ||
      Abs(pos.y) > screen.height / 2.0 + NodeSize(uiTransform).height / 2.0
    ensures uiTransform.None? ==>
      (out <==> Abs(pos.x) > screen.width / 2.0 || Abs(pos.y) > screen.height / 2.0)
  {
    var halfScreenWidth := screen.width / 2.0;
    var halfScreenHeight := screen.height / 2.0;
    var nodeWidth := NodeSize(uiTransform).width;
    var nodeHeight := NodeSize(uiTransform).height;
    var rightBound := halfScreenWidth + nodeWidth / 2.0;
    var leftBound := -halfScreenWidth - nodeWidth / 2.0;
    var topBound := halfScreenHeight + nodeHeight / 2.0;
    var bottomBound := -halfScreenHeight - nodeHeight / 2.0;
    pos.x > rightBound || pos.x < leftBound || pos.y > topBound || pos.y < bottomBound
  }

  /**
   * The bounds are exclusive: on the right bound (with y inside) the node is
   * kept, and any distance further right it is culled.
   */
  lemma CullBoundaryExclusive(screen: Size, uiTransform: Option<Size>, y: real, z: real, beyond: real)
    requires Abs(y) <= screen.height / 2.0 + NodeSize(uiTransform).height / 2.0
    requires screen.width + NodeSize(uiTransform).width >= 0.0
    requires beyond > 0.0
    ensures var bound := screen.width / 2.0 + NodeSize(uiTransform).width / 2.0;
      && !IsOutOfScreen(Vec3(bound, y, z), screen, uiTransform)
      && IsOutOfScreen(Vec3(bound + beyond, y, z), screen, uiTransform)
  {
  }

  /** The state one frame changes: the age, the node position and whether the node is destroyed. */
  datatype SkillState = SkillState(currentLifeTime: real, position: Vec3, destroyed: bool)

  /**
   * One `update(deltaTime)`: the age grows by exactly deltaTime; at or past the
   * lifetime the node is destroyed where it stands; otherwise it moves right by
   * flySpeed * deltaTime and is destroyed exactly when the moved position is off
   * screen. A destroyed node stays destroyed.
   */
  function UpdateStep(s: SkillState, flySpeed: real, lifeTime: real, screen: Size,
                      uiTransform: Option<Size>, deltaTime: real): (r: SkillState)
    ensures r.currentLifeTime == s.currentLifeTime + deltaTime
    ensures r.currentLifeTime >= lifeTime ==> r.destroyed && r.position == s.position
    ensures r.currentLifeTime < lifeTime ==>
      && r.position == Vec3(s.position.x + flySpeed * deltaTime, s.position.y, s.position.z)
      && (r.destroyed <==> s.destroyed || IsOutOfScreen(r.position, screen, uiTransform))
    ensures s.destroyed ==> r.destroyed
  {
    var age := s.currentLifeTime + deltaTime;
    if age >= lifeTime then
      SkillState(age, s.position, true)
    else
      var moved := s.position.(x := s.position.x + flySpeed * deltaTime);
      SkillState(age, moved, s.destroyed || IsOutOfScreen(moved, screen, uiTransform))
  }

  function Sum(dts: seq<real>): real
  {
    if dts == [] then 0.0 else dts[0] + Sum(dts[1..])
  }

  /** The engine's frames: `update` once per frame until the node is destroyed. */
  function Run(s: SkillState, flySpeed: real, lifeTime: real, screen: Size,
               uiTransform: Option<Size>, dts: seq<real>): SkillState
    decreases |dts|
  {
    if dts == [] || s.destroyed then s
    else Run(UpdateStep(s, flySpeed, lifeTime, screen, uiTransform, dts[0]),
             flySpeed, lifeTime, screen, uiTransform, dts[1..])
  }

  /**
   * A skill still alive after some frames has aged by exactly the sum of their
   * frame times, and that age is below its lifetime when there was a frame.
   */
  lemma {:induction false} RunAccumulates(s: SkillState, flySpeed: real, lifeTime: real, screen: Size,
                                          uiTransform: Option<Size>, dts: seq<real>)
    ensures var r := Run(s, flySpeed, lifeTime, screen, uiTransform, dts);
      !r.destroyed ==> r.currentLifeTime == s.currentLifeTime + Sum(dts)
    ensures var r := Run(s, flySpeed, lifeTime, screen, uiTransform, dts);
      !r.destroyed && dts != [] ==> r.currentLifeTime < lifeTime
    decreases |dts|
  {
    if dts != [] && !s.destroyed {
      var next := UpdateStep(s, flySpeed, lifeTime, screen, uiTransform, dts[0]);
      RunAccumulates(next, flySpeed, lifeTime, screen, uiTransform, dts[1..]);
    }
  }

  /**
   * Lifetime expiry: a skill whose age plus the frame times reaches its
   * lifetime has been destroyed by the end of those frames (for a skill just
   * started the age is 0, so the frame times alone must reach the lifetime).
   */
  lemma ExpiresWithinLifetime(s: SkillState, flySpeed: real, lifeTime: real, screen: Size,
                              uiTransform: Option<Size>, dts: seq<real>)
    requires dts != [] && s.currentLifeTime + Sum(dts) >= lifeTime
    ensures Run(s, flySpeed, lifeTime, screen, uiTransform, dts).destroyed
  {
    RunAccumulates(s, flySpeed, lifeTime, screen, uiTransform, dts);
  }

  /** The skill flies along its row: the frames never change y or z. */
  lemma {:induction false} RunKeepsRow(s: SkillState, flySpeed: real, lifeTime: real, screen: Size,
                                       uiTransform: Option<Size>, dts: seq<real>)
    ensures var r := Run(s, flySpeed, lifeTime, screen, uiTransform, dts);
      r.position.y == s.position.y && r.position.z == s.position.z
    decreases |dts|
  {
    if dts != [] && !s.destroyed {
      var next := UpdateStep(s, flySpeed, lifeTime, screen, uiTransform, dts[0]);
      RunKeepsRow(next, flySpeed, lifeTime, screen, uiTransform, dts[1..]);
    }
  }

  /** The skill component: its two editor properties, its age, the screen size and its node. */
  class PlayerSkill {
    var flySpeed: real
    var lifeTime: real
    var currentLifeTime: real
    var screenBounds: Size
    /** The node's position. */
    var position: Vec3
    /** Whether `destroy` has been called on the node. */
    var destroyed: bool

    function State(): SkillState
      reads this
    {
      SkillState(currentLifeTime, position, destroyed)
    }

    constructor ()
      ensures flySpeed == 800.0 && lifeTime == 3.0
      ensures currentLifeTime == 0.0 && screenBounds == Size(0.0, 0.0)
      ensures position == Zero && !destroyed
    {
      flySpeed, lifeTime := 800.0, 3.0;
      currentLifeTime := 0.0;
      screenBounds := Size(0.0, 0.0);
      position := Zero;
      destroyed := false;
    }

    /** `start`: reads the visible size (passed in) and resets the age. */
    method Start(visibleSize: Size)
      modifies this`screenBounds, this`currentLifeTime
      ensures screenBounds == visibleSize && currentLifeTime == 0.0
    {
      screenBounds := Size(visibleSize.width, visibleSize.height);
      currentLifeTime := 0.0;
    }

    /** One frame, with the node's UITransform size (if any) passed in. */
    method Update(deltaTime: real, uiTransform: Option<Size>)
      modifies this`currentLifeTime, this`position, this`destroyed
      ensures State() == UpdateStep(old(State()), flySpeed, lifeTime, screenBounds, uiTransform, deltaTime)
    {
      currentLifeTime := currentLifeTime + deltaTime;
      if currentLifeTime >= lifeTime {
        DestroySkill();
        return;
      }
      MoveRight(deltaTime);
      if IsOutOfScreen(position, screenBounds, uiTransform) {
        DestroySkill();
      }
    }

    /** Moves the node right by flySpeed * deltaTime; y and z are kept. */
    method MoveRight(deltaTime: real)
      modifies this`position
      ensures position == Vec3(old(position).x + flySpeed * deltaTime, old(position).y, old(position).z)
    {
      var currentPos := position;
      var newX := currentPos.x + flySpeed * deltaTime;
      position := Vec3(newX, currentPos.y, currentPos.z);
    }

    method DestroySkill()
      modifies this`destroyed
      ensures destroyed
    {
      destroyed := true;
    }

    method SetStartPosition(p: Vec3)
      modifies this`position
      ensures position == p
    {
      position := p;
    }

    method SetFlySpeed(speed: real)
      modifies this`flySpeed
      ensures flySpeed == speed
    {
      flySpeed := speed;
    }

    method SetLifeTime(time: real)
      modifies this`lifeTime
      ensures lifeTime == time
    {
      lifeTime := time;
    }

    method GetCurrentPosition() returns (p: Vec3)
      ensures p == position
    {
      p := position;
    }
  }
}
