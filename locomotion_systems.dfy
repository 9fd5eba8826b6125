/**
  The movement policies (ILocomotionSystem and its Directional, Follow and
  Rotation variants). One class holds the fields of the base class and of
  every variant; `kind`, fixed at construction, says which variant an
  instance is, as the object's runtime type does in the source.

  A policy reads the orchestrator's tuning and momentum through a `Context`
  and writes the driver's velocity and rotation. The geometry the engine
  computes during a step arrives in a `Frame`.
*/
module LocomotionSystems {
  import opened Vectors
  import opened Options
  import opened LocomotionRules
  import opened Drivers

  datatype SystemKind = Directional | Follow | RotationSystem

  /** What a policy reads from its CharacterLocomotion during a step. */
  datatype Context = Context(
    cfg: LocomotionConfig,
    constraint: AnimConstraint,
    momentum: Vec3,
    verticalSpeed: real,
    terrainNormal: Vec3)

  /** The direction Directional hands to UpdateRotation: the requested one,
      or the last movement direction when none is requested. */
  function SteerDirection(desired: Vec3, movementDirection: Vec3): Vec3
  {
    if desired == Zero then movementDirection else desired
  }

  /** Directional's planar speed for this step: the ramp toward the turn-damped
      speed, or toward zero when no direction is requested. */
  function DirectionalSpeed(cfg: LocomotionConfig, desired: Vec3, planarSpeed: real, f: Frame): (s: real)
    ensures desired == Zero ==>
      s == CalculateAccelerationFromSpeed(planarSpeed, 0.0, cfg.acceleration, cfg.deceleration, f.fixedDeltaTime)
    ensures desired != Zero ==>
      s == CalculateAccelerationFromSpeed(planarSpeed, CalculateSpeed(cfg, desired, f.turnAngle),
                                          cfg.acceleration, cfg.deceleration, f.fixedDeltaTime)
  {
    var targetSpeed := CalculateSpeed(cfg, desired, f.turnAngle);
    var targetSpeed := if desired == Zero then 0.0 else targetSpeed;
    CalculateAccelerationFromSpeed(planarSpeed, targetSpeed, cfg.acceleration, cfg.deceleration, f.fixedDeltaTime)
  }

  /** With no direction requested the character slows toward a stop: the
      speed never rises and never goes negative, and a stopped character
      stays stopped. */
  lemma ReleasedSlowsDown(cfg: LocomotionConfig, planarSpeed: real, f: Frame)
    requires planarSpeed >= 0.0 && cfg.deceleration * f.fixedDeltaTime >= 0.0
    ensures 0.0 <= DirectionalSpeed(cfg, Zero, planarSpeed, f) <= planarSpeed
    ensures planarSpeed == 0.0 ==> DirectionalSpeed(cfg, Zero, planarSpeed, f) == 0.0
  {
  }

  /** The direction, rotation and speed a policy writes, and the face-direction
      outcome it stored. */
  datatype Move = Move(velocity: Vec3, rotation: Rotation, facing: Facing)

  /** What Directional's Update computes after the dash update: the driver
      velocity in the fixed precedence dash, then slide plus momentum, then
      speed-scaled direction plus momentum. */
  function DirectionalTick(ctx: Context, desired: Vec3, movementDirection: Vec3, dash: DashState,
                           slope: Slide, planarSpeed: real, f: Frame, current: Rotation): (t: Move)
    ensures t.facing == UpdateRotation(ctx.cfg, SteerDirection(desired, movementDirection), f, current)
    ensures dash.isDashing ==> t.velocity == dash.velocity && t.rotation == current
    ensures !dash.isDashing && slope.isSliding ==> t.velocity == Add(slope.direction, ctx.momentum)
    ensures !dash.isDashing ==>
      var steer := UpdateAnimationConstraints(ctx.constraint,
                     Steering(SteerDirection(desired, movementDirection), t.facing.rotation), f.forward, current);
      && t.rotation == steer.rotation
      && (!slope.isSliding ==>
            t.velocity == Add(Scale(steer.direction, DirectionalSpeed(ctx.cfg, desired, planarSpeed, f)), ctx.momentum))
  {
    var targetDirection := SteerDirection(desired, movementDirection);
    var speed := DirectionalSpeed(ctx.cfg, desired, planarSpeed, f);
    var facing := UpdateRotation(ctx.cfg, targetDirection, f, current);
    var steer := UpdateAnimationConstraints(ctx.constraint, Steering(targetDirection, facing.rotation), f.forward, current);
    var scaled := Scale(steer.direction, speed);
    var withSlide := if slope.isSliding then slope.direction else scaled;
    var withMomentum := Add(withSlide, ctx.momentum);
    if dash.isDashing then Move(dash.velocity, current, facing)
    else Move(withMomentum, steer.rotation, facing)
  }

  /** Under KEEP_POSITION, and neither dashing nor sliding, Directional holds
      the rotation and moves by momentum alone. */
  lemma KeepPositionMovesByMomentumOnly(ctx: Context, desired: Vec3, movementDirection: Vec3, dash: DashState,
                                        slope: Slide, planarSpeed: real, f: Frame, current: Rotation)
    requires ctx.constraint == KeepPosition && !dash.isDashing && !slope.isSliding
    ensures DirectionalTick(ctx, desired, movementDirection, dash, slope, planarSpeed, f, current)
            == Move(ctx.momentum, current,
                    UpdateRotation(ctx.cfg, SteerDirection(desired, movementDirection), f, current))
  {
    var t := DirectionalTick(ctx, desired, movementDirection, dash, slope, planarSpeed, f, current);
    assert Scale(Zero, DirectionalSpeed(ctx.cfg, desired, planarSpeed, f)) == Zero;
    assert Add(Zero, ctx.momentum) == ctx.momentum;
  }

  /** Momentum passes straight into the velocity unless a dash overrides it. */
  lemma MomentumAddsThrough(ctx: Context, extra: Vec3, desired: Vec3, movementDirection: Vec3, dash: DashState,
                            slope: Slide, planarSpeed: real, f: Frame, current: Rotation)
    requires !dash.isDashing
    ensures DirectionalTick(ctx.(momentum := Add(ctx.momentum, extra)), desired, movementDirection, dash,
                            slope, planarSpeed, f, current).velocity
            == Add(DirectionalTick(ctx, desired, movementDirection, dash, slope, planarSpeed, f, current).velocity, extra)
  {
  }

  /** Follow steers along the horizontal offset to the target, normalised:
      a unit vector in the ground plane, or zero when the target is straight
      above or below. */
  lemma FollowDirectionIsFlat(f: Frame)
    requires WellFormed(f)
    ensures f.followDirection.y == 0.0
    ensures f.flatDistance > NormalizeEpsilon ==> IsMagnitude(f.followDirection, 1.0)
    ensures f.flatDistance <= NormalizeEpsilon ==> f.followDirection == Zero
  {
    NormalizedIsUnit(FlatOffset(f), f.flatDistance);
  }

  /** What Follow's Update writes while moving without the navigation mesh:
      the turn-damped speed along the steered direction, flattened, with the
      orchestrator's vertical speed on top. */
  function FollowTick(ctx: Context, f: Frame, current: Rotation): (t: Move)
    ensures t.facing == UpdateRotation(ctx.cfg, f.followDirection, f, current)
    ensures var steer := UpdateAnimationConstraints(ctx.constraint,
                           Steering(f.followDirection, t.facing.rotation), f.forward, current);
            && t.rotation == steer.rotation
            && Horizontal(t.velocity) == Scale(Horizontal(steer.direction), CalculateSpeed(ctx.cfg, f.followDirection, f.turnAngle))
            && t.velocity.y == ctx.verticalSpeed
  {
    var targetDirection := f.followDirection;
    var speed := CalculateSpeed(ctx.cfg, targetDirection, f.turnAngle);
    var facing := UpdateRotation(ctx.cfg, targetDirection, f, current);
    var steer := UpdateAnimationConstraints(ctx.constraint, Steering(targetDirection, facing.rotation), f.forward, current);
    var h := Scale(Horizontal(steer.direction), speed);
    var v := Vec3(h.x, ctx.verticalSpeed, h.z);
    assert Horizontal(v) == h;
    Move(v, steer.rotation, facing)
  }

  /** With no animation constraint and a non-negative run speed, the
      horizontal velocity Follow writes never points away from the target. */
  lemma FollowHeadsToTarget(ctx: Context, f: Frame, current: Rotation)
    requires f.followDirection == Normalized(FlatOffset(f), f.flatDistance)
    requires ctx.constraint == NoConstraint && ctx.cfg.runSpeed >= 0.0
    ensures Dot(Horizontal(FollowTick(ctx, f, current).velocity), FlatOffset(f)) >= 0.0
  {
    var o := FlatOffset(f);
    var d := f.followDirection;
    var speed := CalculateSpeed(ctx.cfg, d, f.turnAngle);
    CalculateSpeedBounds(ctx.cfg, d, f.turnAngle);
    var t := FollowTick(ctx, f, current);
    var steer := UpdateAnimationConstraints(ctx.constraint, Steering(d, t.facing.rotation), f.forward, current);
    assert steer.direction == d;
    var h := Horizontal(t.velocity);
    assert h == Scale(Horizontal(d), speed);
    if f.flatDistance > NormalizeEpsilon {
      assert d.y == 0.0;
      assert Horizontal(d) == d;
      NormalizedAligns(o, f.flatDistance, speed);
      assert Dot(h, o) >= 0.0;
    } else {
      assert Horizontal(d) == Zero;
      ScaleZero(speed);
      DotZero(o);
      assert h == Zero;
    }
  }

  /** What Rotation's Update writes: zero velocity and the face-direction
      rotation. */
  function RotationTick(cfg: LocomotionConfig, desired: Vec3, f: Frame, current: Rotation): (t: Move)
    ensures t.velocity == Zero
    ensures t.facing == UpdateRotation(cfg, desired, f, current)
    ensures t.rotation == t.facing.rotation
  {
    var facing := UpdateRotation(cfg, desired, f, current);
    Move(Zero, facing.rotation, facing)
  }

  class LocomotionSystem {
    const kind: SystemKind
    var aimDirection: Vec3
    var movementDirection: Vec3
    var pivotSpeed: real
    var isSliding: bool
    var slideDirection: Vec3
    /** isDashing, dashVelocity, dashStartTime, dashDuration, dashDrag */
    var dash: DashState
    /** Directional and Rotation: `desiredDirection`. */
    var desiredDirection: Vec3
    /** Follow: `isFollowing`, `usingNavmesh`, `targetTransform` (an id, None
        for null), `minRadius`, `maxRadius`. */
    var isFollowing: bool
    var usingNavmesh: bool
    var followTarget: Option<nat>
    var minRadius: real
    var maxRadius: real
    /** How many times OnDestroy ran; the overrides have empty bodies. */
    ghost var teardowns: nat

    ghost predicate Valid()
      reads this
    {
      dash.drag >= 0.0
    }

    /** The field initialisers of a fresh instance. */
    ghost predicate Initial()
      reads this
    {
      && aimDirection == Zero && movementDirection == Zero && pivotSpeed == 0.0
      && !isSliding && slideDirection == Zero && dash == InitialDash
      && desiredDirection == Zero && !isFollowing && !usingNavmesh && followTarget == None
      && minRadius == 0.0 && maxRadius == 0.0 && teardowns == 0
    }

    /** `new TLS()` followed by `Setup(characterLocomotion)`; the model hands
        the orchestrator to each call instead of storing it. */
    constructor (kind: SystemKind)
      ensures this.kind == kind && Initial() && Valid()
    {
      this.kind := kind;
      aimDirection := Zero;
      movementDirection := Zero;
      pivotSpeed := 0.0;
      isSliding := false;
      slideDirection := Zero;
      dash := InitialDash;
      desiredDirection := Zero;
      isFollowing := false;
      usingNavmesh := false;
      followTarget := None;
      minRadius := 0.0;
      maxRadius := 0.0;
      teardowns := 0;
    }

    /** Start a dash at `time`. `magnitude` is the length of `direction` and
        `dashSpeed` the impulse speed the source derives from impulse, drag
        and the fixed step. */
    method Dash(direction: Vec3, magnitude: real, dashSpeed: real, duration: real, drag: real, time: real)
      requires drag >= 0.0
      modifies this
      ensures dash == DashState(true, DashVelocity(direction, magnitude, dashSpeed), time, duration, drag)
      ensures Valid()
      ensures aimDirection == old(aimDirection) && movementDirection == old(movementDirection)
      ensures pivotSpeed == old(pivotSpeed) && isSliding == old(isSliding) && slideDirection == old(slideDirection)
      ensures desiredDirection == old(desiredDirection) && isFollowing == old(isFollowing)
      ensures usingNavmesh == old(usingNavmesh) && followTarget == old(followTarget)
      ensures minRadius == old(minRadius) && maxRadius == old(maxRadius) && teardowns == old(teardowns)
    {
      var velocity := DashVelocity(direction, magnitude, dashSpeed);
      dash := DashState(true, velocity, time, duration, drag);
    }

    /** The base class's Update: the dash update. */
    method BaseUpdate(runSpeed: real, f: Frame) returns (backend: LocomotionBackend)
      requires Valid() && f.fixedDeltaTime >= 0.0
      modifies this
      ensures backend == UseLocomotionDriver
      ensures dash == DashTick(old(dash), runSpeed, f.time, f.fixedDeltaTime)
      ensures Valid()
      ensures KeepsAllButDash()
    {
      if dash.isDashing {
        if f.time >= dash.startTime + dash.duration {
          dash := dash.(velocity := DashDecay(dash.velocity, dash.drag, f.fixedDeltaTime));
        }
        if MagnitudeBelow(dash.velocity, runSpeed) {
          dash := dash.(isDashing := false);
        }
      }
      return UseLocomotionDriver;
    }

    /** Every field except the dash fields is as it was. */
    twostate predicate KeepsAllButDash()
      reads this
    {
      KeepsAllButDashAndTeardowns() && teardowns == old(teardowns)
    }

    /** The field writes of UpdateRotation; the rotation is the result. */
    method ApplyRotation(cfg: LocomotionConfig, targetDirection: Vec3, f: Frame, current: Rotation)
      returns (rotation: Rotation)
      modifies this
      ensures var r := UpdateRotation(cfg, targetDirection, f, current);
              rotation == r.rotation && aimDirection == r.aim && movementDirection == r.movement
      ensures pivotSpeed == old(pivotSpeed) && isSliding == old(isSliding) && slideDirection == old(slideDirection)
      ensures dash == old(dash) && desiredDirection == old(desiredDirection) && isFollowing == old(isFollowing)
      ensures usingNavmesh == old(usingNavmesh) && followTarget == old(followTarget)
      ensures minRadius == old(minRadius) && maxRadius == old(maxRadius) && teardowns == old(teardowns)
    {
      var r := UpdateRotation(cfg, targetDirection, f, current);
      aimDirection := r.aim;
      movementDirection := r.movement;
      rotation := r.rotation;
    }

    /** UpdateSliding against the driver's slope limit. */
    method ApplySliding(slopeLimit: real, ctx: Context, f: Frame)
      modifies this
      ensures Slide(isSliding, slideDirection)
              == UpdateSliding(f.characterGrounded, f.slopeAngle, slopeLimit, ctx.terrainNormal, ctx.cfg.runSpeed)
      ensures aimDirection == old(aimDirection) && movementDirection == old(movementDirection)
      ensures pivotSpeed == old(pivotSpeed) && dash == old(dash) && desiredDirection == old(desiredDirection)
      ensures isFollowing == old(isFollowing) && usingNavmesh == old(usingNavmesh) && followTarget == old(followTarget)
      ensures minRadius == old(minRadius) && maxRadius == old(maxRadius) && teardowns == old(teardowns)
    {
      isSliding := f.characterGrounded && f.slopeAngle > slopeLimit;
      if isSliding {
        slideDirection := Scale(Reflect(Down, ctx.terrainNormal), ctx.cfg.runSpeed);
      } else {
        slideDirection := Zero;
      }
    }

    /** LocomotionSystemDirectional.Update. */
    method DirectionalUpdate(ctx: Context, driver: LocomotionDriver, f: Frame) returns (backend: LocomotionBackend)
      requires kind == Directional && Valid() && f.fixedDeltaTime >= 0.0
      requires IsMagnitude(Horizontal(driver.GetVelocity()), f.planarSpeed)
      modifies this, driver
      ensures dash == DashTick(old(dash), ctx.cfg.runSpeed, f.time, f.fixedDeltaTime)
      ensures DirectionalStepped(driver, ctx, f) && backend == UseLocomotionDriver
      ensures Valid()
    {
      var _ := BaseUpdate(ctx.cfg.runSpeed, f);
      backend := DirectionalStep(ctx, driver, f);
    }

    /** Directional's Update after the dash update. */
    method DirectionalStep(ctx: Context, driver: LocomotionDriver, f: Frame) returns (backend: LocomotionBackend)
      requires IsMagnitude(Horizontal(driver.GetVelocity()), f.planarSpeed)
      modifies this, driver
      ensures DirectionalStepped(driver, ctx, f) && backend == UseLocomotionDriver && dash == old(dash)
    {
      var targetDirection := desiredDirection;
      var targetSpeed := CalculateSpeed(ctx.cfg, targetDirection, f.turnAngle);
      if targetDirection == Zero {
        targetDirection := movementDirection;
        targetSpeed := 0.0;
      }
      var speed := CalculateAccelerationFromSpeed(f.planarSpeed, targetSpeed, ctx.cfg.acceleration,
                                                  ctx.cfg.deceleration, f.fixedDeltaTime);
      var targetRotation := ApplyRotation(ctx.cfg, targetDirection, f, driver.rotation);
      var steer := UpdateAnimationConstraints(ctx.constraint, Steering(targetDirection, targetRotation),
                                              f.forward, driver.rotation);
      targetDirection := Scale(steer.direction, speed);
      targetRotation := steer.rotation;
      ApplySliding(driver.GetSlopeAngleLimit(), ctx, f);
      if isSliding {
        targetDirection := slideDirection;
      }
      targetDirection := Add(targetDirection, ctx.momentum);
      if dash.isDashing {
        targetDirection := dash.velocity;
        targetRotation := driver.rotation;
      }
      driver.SetVelocity(targetDirection);
      driver.rotation := targetRotation;
      return UseLocomotionDriver;
    }

    /** The effect of a Directional step, given the dash state the dash
        update left. */
    twostate predicate DirectionalStepped(driver: LocomotionDriver, ctx: Context, f: Frame)
      reads this, driver
    {
      && Slide(isSliding, slideDirection) == UpdateSliding(f.characterGrounded, f.slopeAngle,
           old(driver.GetSlopeAngleLimit()), ctx.terrainNormal, ctx.cfg.runSpeed)
      && (var t := DirectionalTick(ctx, old(desiredDirection), old(movementDirection), dash,
                     Slide(isSliding, slideDirection), f.planarSpeed, f, old(driver.rotation));
          && aimDirection == t.facing.aim && movementDirection == t.facing.movement
          && WroteVelocity(driver, t.velocity) && driver.rotation == t.rotation)
      && pivotSpeed == old(pivotSpeed) && desiredDirection == old(desiredDirection)
      && isFollowing == old(isFollowing) && usingNavmesh == old(usingNavmesh) && followTarget == old(followTarget)
      && minRadius == old(minRadius) && maxRadius == old(maxRadius) && teardowns == old(teardowns)
    }

    /** LocomotionSystemFollow.Update. The navigation-mesh agent's own state
        is not modelled: with `usingNavmesh` only the returned back-end and
        the policy's fields are. */
    method FollowUpdate(ctx: Context, driver: LocomotionDriver, f: Frame) returns (backend: LocomotionBackend)
      requires kind == Follow && Valid() && f.fixedDeltaTime >= 0.0
      modifies this, driver
      ensures dash == DashTick(old(dash), ctx.cfg.runSpeed, f.time, f.fixedDeltaTime)
      ensures FollowStepped(driver, ctx, f, backend)
      ensures Valid()
    {
      var _ := BaseUpdate(ctx.cfg.runSpeed, f);
      backend := FollowStep(ctx, driver, f);
    }

    /** Follow's Update after the dash update. */
    method FollowStep(ctx: Context, driver: LocomotionDriver, f: Frame) returns (backend: LocomotionBackend)
      modifies this, driver
      ensures FollowStepped(driver, ctx, f, backend) && dash == old(dash)
    {
      var distance := if followTarget.Some? then f.targetDistance else -1.0;
      var stopConditions := followTarget.None?;
      stopConditions := stopConditions || (isFollowing && distance <= minRadius);
      stopConditions := stopConditions || (!isFollowing && distance <= maxRadius);
      if stopConditions {
        isFollowing := false;
        if !usingNavmesh {
          driver.SetVelocity(Scale(Up, ctx.verticalSpeed));
        }
        return if usingNavmesh then UseNavigationMeshAgent else UseLocomotionDriver;
      }
      isFollowing := true;
      if usingNavmesh {
        return UseNavigationMeshAgent;
      }
      FollowMove(ctx, driver, f);
      return UseLocomotionDriver;
    }

    /** The moving branch of Follow's Update without the navigation mesh. */
    method FollowMove(ctx: Context, driver: LocomotionDriver, f: Frame)
      modifies this, driver
      ensures var t := FollowTick(ctx, f, old(driver.rotation));
              && WroteVelocity(driver, t.velocity) && driver.rotation == t.rotation
              && aimDirection == t.facing.aim && movementDirection == t.facing.movement
      ensures pivotSpeed == old(pivotSpeed) && isSliding == old(isSliding) && slideDirection == old(slideDirection)
      ensures dash == old(dash) && desiredDirection == old(desiredDirection) && isFollowing == old(isFollowing)
      ensures usingNavmesh == old(usingNavmesh) && followTarget == old(followTarget)
      ensures minRadius == old(minRadius) && maxRadius == old(maxRadius) && teardowns == old(teardowns)
    {
      ghost var t := FollowTick(ctx, f, driver.rotation);
      var targetDirection := f.followDirection;
      var speed := CalculateSpeed(ctx.cfg, targetDirection, f.turnAngle);
      var targetRotation := ApplyRotation(ctx.cfg, targetDirection, f, driver.rotation);
      assert targetRotation == t.facing.rotation;
      var steer := UpdateAnimationConstraints(ctx.constraint, Steering(targetDirection, targetRotation),
                                              f.forward, driver.rotation);
      targetDirection := Scale(Horizontal(steer.direction), speed);
      targetDirection := Vec3(targetDirection.x, ctx.verticalSpeed, targetDirection.z);
      assert targetDirection == t.velocity by {
        assert Horizontal(targetDirection) == Horizontal(t.velocity);
      }
      driver.SetVelocity(targetDirection);
      driver.rotation := steer.rotation;
    }

    /** The effect of a Follow step on everything but the dash. */
    twostate predicate FollowStepped(driver: LocomotionDriver, ctx: Context, f: Frame, backend: LocomotionBackend)
      reads this, driver
    {
      var stop := FollowStops(old(followTarget).Some?, old(isFollowing), f.targetDistance, minRadius, maxRadius);
      && isFollowing == !stop
      && (backend == UseNavigationMeshAgent <==> usingNavmesh)
      && (usingNavmesh ==> unchanged(driver))
      && (stop && !usingNavmesh ==>
            WroteVelocity(driver, Scale(Up, ctx.verticalSpeed)) && driver.rotation == old(driver.rotation)
            && aimDirection == old(aimDirection) && movementDirection == old(movementDirection))
      && (!stop && !usingNavmesh ==>
            var t := FollowTick(ctx, f, old(driver.rotation));
            && WroteVelocity(driver, t.velocity) && driver.rotation == t.rotation
            && aimDirection == t.facing.aim && movementDirection == t.facing.movement)
      && (usingNavmesh ==> aimDirection == old(aimDirection) && movementDirection == old(movementDirection))
      && pivotSpeed == old(pivotSpeed) && isSliding == old(isSliding) && slideDirection == old(slideDirection)
      && desiredDirection == old(desiredDirection) && usingNavmesh == old(usingNavmesh)
      && followTarget == old(followTarget) && minRadius == old(minRadius) && maxRadius == old(maxRadius)
      && teardowns == old(teardowns)
    }

    /** LocomotionSystemRotation.Update. */
    method RotationUpdate(ctx: Context, driver: LocomotionDriver, f: Frame) returns (backend: LocomotionBackend)
      requires kind == RotationSystem && Valid() && f.fixedDeltaTime >= 0.0
      modifies this, driver
      ensures dash == DashTick(old(dash), ctx.cfg.runSpeed, f.time, f.fixedDeltaTime)
      ensures RotationStepped(driver, ctx, f) && backend == UseLocomotionDriver
      ensures Valid()
    {
      var _ := BaseUpdate(ctx.cfg.runSpeed, f);
      backend := RotationStep(ctx, driver, f);
    }

    /** Rotation's Update after the dash update. */
    method RotationStep(ctx: Context, driver: LocomotionDriver, f: Frame) returns (backend: LocomotionBackend)
      modifies this, driver
      ensures RotationStepped(driver, ctx, f) && backend == UseLocomotionDriver && dash == old(dash)
    {
      var targetRotation := ApplyRotation(ctx.cfg, desiredDirection, f, driver.rotation);
      ApplyPivot(f);
      driver.rotation := targetRotation;
      driver.SetVelocity(Zero);
      return UseLocomotionDriver;
    }

    /** Rotation's pivot speed from how far the desired direction lies
        ahead of, behind and to the right of the character. */
    method ApplyPivot(f: Frame)
      modifies this
      ensures pivotSpeed == PivotSpeed(Dot(f.forward, desiredDirection), Dot(f.right, desiredDirection))
      ensures aimDirection == old(aimDirection) && movementDirection == old(movementDirection)
      ensures isSliding == old(isSliding) && slideDirection == old(slideDirection)
      ensures dash == old(dash) && desiredDirection == old(desiredDirection) && isFollowing == old(isFollowing)
      ensures usingNavmesh == old(usingNavmesh) && followTarget == old(followTarget)
      ensures minRadius == old(minRadius) && maxRadius == old(maxRadius) && teardowns == old(teardowns)
    {
      var difference := Dot(f.forward, desiredDirection);
      var absolute := if difference < 0.0 then -difference else difference;
      if absolute < PivotDeadZone {
        pivotSpeed := 0.0;
      } else {
        pivotSpeed := Dot(f.right, desiredDirection);
        if difference < 0.0 {
          pivotSpeed := if pivotSpeed >= 0.0 then 1.0 else -1.0;
        }
      }
    }

    /** The effect of a Rotation step on everything but the dash. */
    twostate predicate RotationStepped(driver: LocomotionDriver, ctx: Context, f: Frame)
      reads this, driver
    {
      && pivotSpeed == PivotSpeed(Dot(f.forward, desiredDirection), Dot(f.right, desiredDirection))
      && (var t := RotationTick(ctx.cfg, old(desiredDirection), f, old(driver.rotation));
          && aimDirection == t.facing.aim && movementDirection == t.facing.movement
          && WroteVelocity(driver, t.velocity) && driver.rotation == t.rotation)
      && isSliding == old(isSliding) && slideDirection == old(slideDirection)
      && desiredDirection == old(desiredDirection) && isFollowing == old(isFollowing)
      && usingNavmesh == old(usingNavmesh) && followTarget == old(followTarget)
      && minRadius == old(minRadius) && maxRadius == old(maxRadius) && teardowns == old(teardowns)
    }

    /** The virtual Update, dispatched on the variant. */
    method Update(ctx: Context, driver: LocomotionDriver, f: Frame) returns (backend: LocomotionBackend)
      requires Valid() && f.fixedDeltaTime >= 0.0
      requires IsMagnitude(Horizontal(driver.GetVelocity()), f.planarSpeed)
      modifies this, driver
      ensures kind == Directional ==> DirectionalStepped(driver, ctx, f) && backend == UseLocomotionDriver
      ensures kind == Follow ==> FollowStepped(driver, ctx, f, backend)
      ensures kind == RotationSystem ==> RotationStepped(driver, ctx, f) && backend == UseLocomotionDriver
      ensures dash == DashTick(old(dash), ctx.cfg.runSpeed, f.time, f.fixedDeltaTime)
      ensures Valid()
    {
      match kind
      case Directional => backend := DirectionalUpdate(ctx, driver, f);
      case Follow => backend := FollowUpdate(ctx, driver, f);
      case RotationSystem => backend := RotationUpdate(ctx, driver, f);
    }

    /** OnDestroy: every variant's override returns at once. */
    method OnDestroy()
      modifies this
      ensures teardowns == old(teardowns) + 1
      ensures KeepsAllButTeardowns()
    {
      teardowns := teardowns + 1;
    }

    /** Every field except the teardown count is as it was. */
    twostate predicate KeepsAllButTeardowns()
      reads this
    {
      KeepsAllButDashAndTeardowns() && dash == old(dash)
    }

    /** Every field except the dash fields and the teardown count is as it
        was. */
    twostate predicate KeepsAllButDashAndTeardowns()
      reads this
    {
      && aimDirection == old(aimDirection) && movementDirection == old(movementDirection)
      && pivotSpeed == old(pivotSpeed) && isSliding == old(isSliding) && slideDirection == old(slideDirection)
      && desiredDirection == old(desiredDirection) && isFollowing == old(isFollowing)
      && usingNavmesh == old(usingNavmesh) && followTarget == old(followTarget)
      && minRadius == old(minRadius) && maxRadius == old(maxRadius)
    }

    /** Directional's and Rotation's SetDirection: store the direction; the
        rotation argument is ignored. */
    method SetDirection(direction: Vec3)
      requires kind == Directional || kind == RotationSystem
      modifies this
      ensures desiredDirection == direction
      ensures aimDirection == old(aimDirection) && movementDirection == old(movementDirection)
      ensures pivotSpeed == old(pivotSpeed) && isSliding == old(isSliding) && slideDirection == old(slideDirection)
      ensures dash == old(dash) && isFollowing == old(isFollowing) && usingNavmesh == old(usingNavmesh)
      ensures followTarget == old(followTarget) && minRadius == old(minRadius) && maxRadius == old(maxRadius)
      ensures teardowns == old(teardowns)
    {
      desiredDirection := direction;
    }

    /** Follow's SetFollow: a new target and band, not yet following, with
        the navigation-mesh choice sampled now. */
    method SetFollow(target: Option<nat>, minRadius: real, maxRadius: real, canUseNavigationMesh: bool)
      requires kind == Follow
      modifies this
      ensures usingNavmesh == canUseNavigationMesh && followTarget == target
      ensures this.minRadius == minRadius && this.maxRadius == maxRadius && !isFollowing
      ensures aimDirection == old(aimDirection) && movementDirection == old(movementDirection)
      ensures pivotSpeed == old(pivotSpeed) && isSliding == old(isSliding) && slideDirection == old(slideDirection)
      ensures dash == old(dash) && desiredDirection == old(desiredDirection) && teardowns == old(teardowns)
    {
      usingNavmesh := canUseNavigationMesh;
      followTarget := target;
      this.minRadius := minRadius;
      this.maxRadius := maxRadius;
      isFollowing := false;
    }
  }
}
