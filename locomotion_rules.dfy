/**
  The configuration, the per-step engine inputs and the side-effect-free rules
  shared by the locomotion systems (ILocomotionSystem): face-direction
  precedence, speed with turn damping, the acceleration ramp, slope sliding,
  the animation-constraint overrides, dash decay, and the Follow and Rotation
  decision rules.
*/
module LocomotionRules {
  import opened Vectors

  datatype AnimConstraint = NoConstraint | KeepMovement | KeepPosition

  /** CharacterLocomotion.LOCOMOTION_SYSTEM: which back-end moved the character. */
  datatype LocomotionBackend = UseLocomotionDriver | UseNavigationMeshAgent

  datatype FaceDirection = MovementDirection | CameraDirection | Target | GroundPlaneCursor

  /** OVERRIDE_FACE_DIRECTION: None, or one of the FACE_DIRECTION values,
      with which its members share their numbers. */
  datatype OverrideFaceDirection = NoOverride | OverrideWith(direction: FaceDirection)

  /** A configured TargetPosition; resolving it to a point is engine work. */
  datatype TargetPosition = TargetPosition(id: nat)

  datatype DirectionData = DirectionData(direction: FaceDirection, target: TargetPosition)

  /** ILocomotionSystem.TargetRotation. */
  datatype TargetRotation = TargetRotation(hasRotation: bool, rotation: Rotation)

  const IdentityRotation: Rotation := Rotation(1.0, 0.0, 0.0, 0.0)

  /** The TargetRotation constructor; `look` is Quaternion.LookRotation(direction). */
  function MakeTargetRotation(hasRotation: bool, look: Rotation): (t: TargetRotation)
    ensures t.hasRotation == hasRotation
    ensures !hasRotation ==> t.rotation == IdentityRotation
    ensures hasRotation ==> t.rotation == look
  {
    TargetRotation(hasRotation, if hasRotation then look else IdentityRotation)
  }

  /** The public tuning fields of CharacterLocomotion. */
  datatype LocomotionConfig = LocomotionConfig(
    runSpeed: real,
    acceleration: real,
    deceleration: real,
    angularSpeed: real,
    gravity: real,
    maxFallSpeed: real,
    canRun: bool,
    canJump: bool,
    jumpForce: real,
    jumpTimes: int,
    timeBetweenJumps: real,
    overrideFaceDirection: OverrideFaceDirection,
    overrideFaceDirectionTarget: TargetPosition,
    faceDirection: FaceDirection,
    faceDirectionTarget: TargetPosition,
    canUseNavigationMesh: bool)

  /** The field initialisers of CharacterLocomotion. */
  const DefaultConfig: LocomotionConfig := LocomotionConfig(
    4.0, 10.0, 4.0, 540.0, -9.81, -100.0, true, true, 6.0, 1, 0.5,
    NoOverride, TargetPosition(0), MovementDirection, TargetPosition(0), false)

  /**
    What the engine supplies during one fixed step. The locomotion code reads
    these from Time, the transforms, the quaternion library and the
    character; the model takes them as given.
  */
  datatype Frame = Frame(
    /** Time.time */
    time: real,
    /** Time.fixedDeltaTime */
    fixedDeltaTime: real,
    /** Character.IsGrounded() */
    characterGrounded: bool,
    /** The driver transform's forward and right axes before this step's rotation write. */
    forward: Vec3,
    right: Vec3,
    /** Quaternion.Angle between the facing and LookRotation of the direction handed to CalculateSpeed, in degrees. */
    turnAngle: real,
    /** The RotateTowards result of the face-direction policy in effect. */
    turned: Rotation,
    /** The aim direction that policy computes. */
    aim: Vec3,
    /** HookCamera.Instance != null */
    cameraPresent: bool,
    /** The cursor ray hit the character's ground plane. */
    cursorHit: bool,
    /** Vector3.Angle(up, terrainNormal), in degrees. */
    slopeAngle: real,
    /** The magnitude of the horizontal part of the driver velocity; the
        locomotion systems' Update requires exactly that. */
    planarSpeed: real,
    /** `targetDirection.normalized` for the direction the policy hands to UpdateRotation. */
    normalized: Vec3,
    /** The character position and the followed transform's position. */
    position: Vec3,
    targetPosition: Vec3,
    /** Vector3.Distance(position, targetPosition) */
    targetDistance: real,
    /** The magnitude of the horizontal offset from position to targetPosition,
        and that offset normalised. */
    flatDistance: real,
    followDirection: Vec3,
    /** NavMeshAgent.isOnOffMeshLink */
    onOffMeshLink: bool)

  /** The offset Follow steers along: the target raised or lowered to the
      character's height, minus the character's position. */
  function FlatOffset(f: Frame): (o: Vec3)
    ensures o.y == 0.0
    ensures o == Horizontal(Sub(f.targetPosition, f.position))
  {
    Sub(Add(Horizontal(f.targetPosition), Scale(Up, f.position.y)), f.position)
  }

  /** The engine's guarantees about a frame: a positive fixed step and the
      magnitudes matching their vectors. */
  ghost predicate WellFormed(f: Frame)
  {
    && f.fixedDeltaTime > 0.0
    && IsMagnitude(Sub(f.position, f.targetPosition), f.targetDistance)
    && IsMagnitude(FlatOffset(f), f.flatDistance)
    && f.followDirection == Normalized(FlatOffset(f), f.flatDistance)
  }

  // ---------------------------------------------------------------------------
  // Face direction

  /** GetFaceDirection: an override other than None wins, with its own target. */
  function GetFaceDirection(cfg: LocomotionConfig): (d: DirectionData)
    ensures cfg.overrideFaceDirection.OverrideWith? ==>
      d == DirectionData(cfg.overrideFaceDirection.direction, cfg.overrideFaceDirectionTarget)
    ensures cfg.overrideFaceDirection.NoOverride? ==>
      d == DirectionData(cfg.faceDirection, cfg.faceDirectionTarget)
  {
    var direction := cfg.faceDirection;
    var target := cfg.faceDirectionTarget;
    match cfg.overrideFaceDirection
    case NoOverride => DirectionData(direction, target)
    case OverrideWith(o) => DirectionData(o, cfg.overrideFaceDirectionTarget)
  }

  /** The branch of UpdateRotation that turns the character this step. */
  predicate TurnApplies(face: FaceDirection, targetDirection: Vec3, f: Frame)
  {
    match face
    case MovementDirection => targetDirection != Zero
    case CameraDirection => f.cameraPresent
    case Target => true
    case GroundPlaneCursor => f.cursorHit
  }

  datatype Facing = Facing(rotation: Rotation, aim: Vec3, movement: Vec3)

  /** UpdateRotation: the rotation to write, and the new aim and movement
      directions. The frame carries `targetDirection.normalized`. */
  function UpdateRotation(cfg: LocomotionConfig, targetDirection: Vec3, f: Frame, current: Rotation): (r: Facing)
    ensures targetDirection == Zero ==> r.movement == f.forward
    ensures targetDirection != Zero ==> r.movement == f.normalized
    ensures TurnApplies(GetFaceDirection(cfg).direction, targetDirection, f) ==>
      r.rotation == f.turned && r.aim == f.aim
    ensures !TurnApplies(GetFaceDirection(cfg).direction, targetDirection, f) ==>
      r.rotation == current && r.aim == f.forward
  {
    var movement := if targetDirection == Zero then f.forward else f.normalized;
    var face := GetFaceDirection(cfg).direction;
    if face == MovementDirection && targetDirection != Zero then Facing(f.turned, f.aim, movement)
    else if face == CameraDirection && f.cameraPresent then Facing(f.turned, f.aim, movement)
    else if face == Target then Facing(f.turned, f.aim, movement)
    else if face == GroundPlaneCursor && f.cursorHit then Facing(f.turned, f.aim, movement)
    else Facing(current, f.forward, movement)
  }

  /** The movement direction has unit length, or is zero when the requested
      direction is too short to normalise, provided the forward axis has
      unit length. */
  lemma MovementDirectionIsUnit(cfg: LocomotionConfig, targetDirection: Vec3, m: real, f: Frame, current: Rotation)
    requires IsMagnitude(targetDirection, m) && f.normalized == Normalized(targetDirection, m)
    requires NormSq(f.forward) == 1.0
    ensures var r := UpdateRotation(cfg, targetDirection, f, current);
            IsMagnitude(r.movement, 1.0) || (r.movement == Zero && targetDirection != Zero)
  {
    var r := UpdateRotation(cfg, targetDirection, f, current);
    if targetDirection == Zero {
      assert r.movement == f.forward;
    } else if m > NormalizeEpsilon {
      NormalizedIsUnit(targetDirection, m);
      assert r.movement == f.normalized;
    } else {
      assert r.movement == Zero;
    }
  }

  // ---------------------------------------------------------------------------
  // Speed

  /** Full speed when running is allowed, half otherwise. */
  function BaseSpeed(cfg: LocomotionConfig): (s: real)
    ensures cfg.canRun ==> s == cfg.runSpeed
    ensures !cfg.canRun ==> s * 2.0 == cfg.runSpeed
    ensures cfg.runSpeed >= 0.0 ==> 0.0 <= s <= cfg.runSpeed
  {
    if cfg.canRun then cfg.runSpeed else cfg.runSpeed / 2.0
  }

  function Clamp(v: real, lo: real, hi: real): (r: real)
    requires lo <= hi
    ensures lo <= r <= hi
    ensures lo <= v <= hi ==> r == v
  {
    if v < lo then lo else if v > hi then hi else v
  }

  /** Mathf.Clamp(1 - angle / 180, 0.5, 1). */
  function SpeedDampening(turnAngle: real): (k: real)
    ensures 0.5 <= k <= 1.0
    ensures 0.0 <= turnAngle <= 90.0 ==> k == 1.0 - turnAngle / 180.0
  {
    Clamp(1.0 - turnAngle / 180.0, 0.5, 1.0)
  }

  /** Turn damping applies only when facing the movement direction and a
      direction is requested. */
  predicate DampsSpeed(cfg: LocomotionConfig, targetDirection: Vec3)
  {
    GetFaceDirection(cfg).direction == MovementDirection && targetDirection != Zero
  }

  /** CalculateSpeed. */
  function CalculateSpeed(cfg: LocomotionConfig, targetDirection: Vec3, turnAngle: real): (s: real)
    ensures !DampsSpeed(cfg, targetDirection) ==> s == BaseSpeed(cfg)
  {
    var targetSpeed := BaseSpeed(cfg);
    if DampsSpeed(cfg, targetDirection) then targetSpeed * SpeedDampening(turnAngle)
    else targetSpeed
  }

  /** The speed lies between half the base speed and the base speed; the
      damping factor is the clamped turn ratio. */
  lemma CalculateSpeedBounds(cfg: LocomotionConfig, targetDirection: Vec3, turnAngle: real)
    requires cfg.runSpeed >= 0.0
    ensures BaseSpeed(cfg) / 2.0 <= CalculateSpeed(cfg, targetDirection, turnAngle) <= BaseSpeed(cfg)
    ensures DampsSpeed(cfg, targetDirection) ==>
      CalculateSpeed(cfg, targetDirection, turnAngle) == BaseSpeed(cfg) * SpeedDampening(turnAngle)
  {
    var targetSpeed := BaseSpeed(cfg);
    var k := SpeedDampening(turnAngle);
    assert targetSpeed >= 0.0;
    if DampsSpeed(cfg, targetDirection) {
      assert CalculateSpeed(cfg, targetDirection, turnAngle) == targetSpeed * k;
      assert targetSpeed * 0.5 <= targetSpeed * k;
      assert targetSpeed * k <= targetSpeed * 1.0;
    } else {
      assert CalculateSpeed(cfg, targetDirection, turnAngle) == targetSpeed;
      assert targetSpeed / 2.0 <= targetSpeed;
    }
  }

  /** A sharper turn never gives a higher speed factor. */
  lemma DampeningMonotone(a: real, b: real)
    requires a <= b
    ensures SpeedDampening(b) <= SpeedDampening(a)
  {
  }

  /** CalculateAccelerationFromSpeed: the planar speed moves toward the target
      by at most acceleration*dt upward, clamped at the target, or by
      deceleration*dt downward, clamped at zero. */
  function CalculateAccelerationFromSpeed(speed: real, targetSpeed: real, acceleration: real,
                                          deceleration: real, dt: real): (r: real)
    ensures speed == targetSpeed ==> r == speed
    ensures speed < targetSpeed && acceleration * dt >= 0.0 ==> speed <= r <= targetSpeed
    ensures speed < targetSpeed ==> r == targetSpeed || r == speed + acceleration * dt
    ensures speed > targetSpeed ==> 0.0 <= r
    ensures speed > targetSpeed && deceleration * dt >= 0.0 && speed >= 0.0 ==> r <= speed
    ensures speed > targetSpeed ==> r == 0.0 || r == speed - deceleration * dt
    ensures speed < targetSpeed && speed + acceleration * dt <= targetSpeed ==> r == speed + acceleration * dt
    ensures speed < targetSpeed && speed + acceleration * dt > targetSpeed ==> r == targetSpeed
    ensures speed > targetSpeed && speed - deceleration * dt >= 0.0 ==> r == speed - deceleration * dt
    ensures speed > targetSpeed && speed - deceleration * dt < 0.0 ==> r == 0.0
  {
    var increment := acceleration * dt;
    var decrement := deceleration * dt;
    if speed < targetSpeed then Min(targetSpeed, speed + increment)
    else if speed > targetSpeed then Max(0.0, speed - decrement)
    else speed
  }

  function Min(a: real, b: real): real { if a <= b then a else b }

  function Max(a: real, b: real): real { if a >= b then a else b }

  /** The ramp applied `n` times with a fixed target. */
  function Ramp(speed: real, targetSpeed: real, acceleration: real, deceleration: real,
                dt: real, n: nat): real
    decreases n
  {
    if n == 0 then speed
    else Ramp(CalculateAccelerationFromSpeed(speed, targetSpeed, acceleration, deceleration, dt),
              targetSpeed, acceleration, deceleration, dt, n - 1)
  }

  /** Speeding up from below, n steps reach min(target, speed + n*acceleration*dt):
      the ramp climbs at its full rate and stops exactly at the target. */
  lemma {:induction false} RampClimbs(speed: real, targetSpeed: real, acceleration: real,
                                     deceleration: real, dt: real, n: nat)
    requires speed <= targetSpeed && acceleration * dt >= 0.0
    ensures Ramp(speed, targetSpeed, acceleration, deceleration, dt, n)
            == Min(targetSpeed, speed + (n as real) * (acceleration * dt))
    decreases n
  {
    var inc := acceleration * dt;
    if n > 0 {
      var next := CalculateAccelerationFromSpeed(speed, targetSpeed, acceleration, deceleration, dt);
      assert next == Min(targetSpeed, speed + inc);
      RampClimbs(next, targetSpeed, acceleration, deceleration, dt, n - 1);
      var k := (n - 1) as real;
      assert (n as real) * inc == inc + k * inc;
      assert k * inc >= 0.0;
      if speed + inc <= targetSpeed {
        assert next == speed + inc;
      } else {
        assert next == targetSpeed;
      }
    }
  }

  /** Slowing down toward a non-negative target, n steps that never pass the
      target give exactly speed - n*deceleration*dt: the ramp descends at its
      full rate. */
  lemma RampDescends(speed: real, targetSpeed: real, acceleration: real,
                     deceleration: real, dt: real, n: nat)
    requires deceleration * dt >= 0.0 && targetSpeed >= 0.0
    requires speed - (n as real) * (deceleration * dt) >= targetSpeed
    ensures Ramp(speed, targetSpeed, acceleration, deceleration, dt, n)
            == speed - (n as real) * (deceleration * dt)
  {
    Repeated(n, deceleration * dt);
    RampDescendsBy(speed, targetSpeed, acceleration, deceleration, dt, n);
  }

  /** `d` added up `n` times. */
  function Repeat(n: nat, d: real): real
    decreases n
  {
    if n == 0 then 0.0 else d + Repeat(n - 1, d)
  }

  /** Adding `d` up `n` times is the product n*d. */
  lemma {:induction false} Repeated(n: nat, d: real)
    ensures Repeat(n, d) == (n as real) * d
    decreases n
  {
    if n > 0 {
      Repeated(n - 1, d);
      assert (n as real) * d == d + ((n - 1) as real) * d;
    }
  }

  /** A sum of non-negative steps is non-negative. */
  lemma {:induction false} RepeatNonNegative(n: nat, d: real)
    requires d >= 0.0
    ensures Repeat(n, d) >= 0.0
    decreases n
  {
    if n > 0 {
      RepeatNonNegative(n - 1, d);
    }
  }

  /** One step down that does not pass a non-negative target removes the
      whole decrement. */
  lemma StepDown(speed: real, targetSpeed: real, acceleration: real, deceleration: real, dt: real)
    requires deceleration * dt >= 0.0 && targetSpeed >= 0.0
    requires speed - deceleration * dt >= targetSpeed
    ensures CalculateAccelerationFromSpeed(speed, targetSpeed, acceleration, deceleration, dt)
            == speed - deceleration * dt
  {
  }

  /** RampDescends with the n steps added up rather than multiplied. */
  lemma {:induction false} RampDescendsBy(speed: real, targetSpeed: real, acceleration: real,
                                         deceleration: real, dt: real, n: nat)
    requires deceleration * dt >= 0.0 && targetSpeed >= 0.0
    requires speed - Repeat(n, deceleration * dt) >= targetSpeed
    ensures Ramp(speed, targetSpeed, acceleration, deceleration, dt, n)
            == speed - Repeat(n, deceleration * dt)
    decreases n
  {
    if n > 0 {
      var dec := deceleration * dt;
      RepeatNonNegative(n - 1, dec);
      StepDown(speed, targetSpeed, acceleration, deceleration, dt);
      var next := speed - dec;
      RampDescendsBy(next, targetSpeed, acceleration, deceleration, dt, n - 1);
    }
  }

  /** Slowing down, the ramp can drop below the target within one step: from
      1 toward 0.9 with a decrement of 0.5 it lands at 0.5. */
  lemma RampCanUndershoot()
    ensures CalculateAccelerationFromSpeed(1.0, 0.9, 10.0, 4.0, 0.125) == 0.5
  {
  }

  // ---------------------------------------------------------------------------
  // Animation constraints

  /** The direction and rotation a policy is about to apply. */
  datatype Steering = Steering(direction: Vec3, rotation: Rotation)

  /** UpdateAnimationConstraints: KEEP_MOVEMENT replaces only a zero direction,
      by the driver's forward axis; KEEP_POSITION cancels the movement and
      keeps the current rotation. */
  function UpdateAnimationConstraints(constraint: AnimConstraint, s: Steering, forward: Vec3,
                                      current: Rotation): (r: Steering)
    ensures constraint == KeepPosition ==> r == Steering(Zero, current)
    ensures constraint == KeepMovement ==> r.rotation == s.rotation
    ensures constraint == KeepMovement && s.direction != Zero ==> r.direction == s.direction
    ensures constraint == KeepMovement && s.direction == Zero ==> r.direction == forward
    ensures constraint == NoConstraint ==> r == s
  {
    var direction := if constraint == KeepMovement && s.direction == Zero then forward else s.direction;
    if constraint == KeepPosition then Steering(Zero, current)
    else Steering(direction, s.rotation)
  }

  /** Applying the constraint a second time changes nothing. */
  lemma ConstraintsIdempotent(constraint: AnimConstraint, s: Steering, forward: Vec3, current: Rotation)
    ensures var once := UpdateAnimationConstraints(constraint, s, forward, current);
            UpdateAnimationConstraints(constraint, once, forward, current) == once
  {
  }

  // ---------------------------------------------------------------------------
  // Sliding

  datatype Slide = Slide(isSliding: bool, direction: Vec3)

  /** UpdateSliding: slide iff grounded and the slope is steeper than the
      driver allows; the slide velocity is `down` reflected off the ground,
      at run speed, and zero when not sliding. */
  function UpdateSliding(grounded: bool, slopeAngle: real, slopeLimit: real,
                         terrainNormal: Vec3, runSpeed: real): (s: Slide)
    ensures s.isSliding <==> grounded && slopeAngle > slopeLimit
    ensures !s.isSliding ==> s.direction == Zero
    ensures s.isSliding ==> s.direction == Scale(Reflect(Down, terrainNormal), runSpeed)
  {
    var isSliding := grounded && slopeAngle > slopeLimit;
    Slide(isSliding, if isSliding then Scale(Reflect(Down, terrainNormal), runSpeed) else Zero)
  }

  /** On flat ground (normal = up) the reflected direction is straight up. */
  lemma ReflectOnFlatGround()
    ensures Reflect(Down, Up) == Up
  {
  }

  // ---------------------------------------------------------------------------
  // Dash

  /** The dash fields of ILocomotionSystem. */
  datatype DashState = DashState(isDashing: bool, velocity: Vec3, startTime: real,
                                 duration: real, drag: real)

  /** The field initialisers: not dashing, started long ago, drag 10. */
  const InitialDash: DashState := DashState(false, Zero, -100.0, 0.0, 10.0)

  /** The velocity the dash starts with: the normalised direction times the
      impulse speed. `magnitude` is the length of `direction`; `dashSpeed`
      stands for the source's `impulse * Log(1 / (dt * drag + 1)) / -dt`. */
  function DashVelocity(direction: Vec3, magnitude: real, dashSpeed: real): (v: Vec3)
    ensures magnitude <= NormalizeEpsilon ==> v == Zero
  {
    Scale(Normalized(direction, magnitude), dashSpeed)
  }

  /** The dash velocity is parallel to the direction, scaled by
      dashSpeed / magnitude. */
  lemma DashVelocityParallel(direction: Vec3, magnitude: real, dashSpeed: real)
    requires magnitude > NormalizeEpsilon
    ensures DashVelocity(direction, magnitude, dashSpeed) == Scale(direction, dashSpeed / magnitude)
  {
    var n := Normalized(direction, magnitude);
    assert n == Div(direction, magnitude);
    assert direction.x / magnitude * dashSpeed == direction.x * (dashSpeed / magnitude);
    assert direction.y / magnitude * dashSpeed == direction.y * (dashSpeed / magnitude);
    assert direction.z / magnitude * dashSpeed == direction.z * (dashSpeed / magnitude);
  }

  /** A dash along a non-degenerate direction moves at exactly `dashSpeed`. */
  lemma DashVelocityLength(direction: Vec3, magnitude: real, dashSpeed: real)
    requires IsMagnitude(direction, magnitude) && magnitude > NormalizeEpsilon
    ensures NormSq(DashVelocity(direction, magnitude, dashSpeed)) == dashSpeed * dashSpeed
  {
    var n := Normalized(direction, magnitude);
    NormalizedIsUnit(direction, magnitude);
    assert NormSq(n) == 1.0;
    var v := Scale(n, dashSpeed);
    assert NormSq(v) == NormSq(n) * (dashSpeed * dashSpeed) by {
      assert NormSq(v) == (n.x * n.x + n.y * n.y + n.z * n.z) * (dashSpeed * dashSpeed);
    }
  }

  /** One step of decay, `v /= 1 + drag*dt`: it undoes a scaling by
      `1 + drag*dt`, so it never lengthens the velocity. */
  function DashDecay(v: Vec3, drag: real, dt: real): (r: Vec3)
    requires drag >= 0.0 && dt >= 0.0
    ensures Scale(r, 1.0 + drag * dt) == v
    ensures NormSq(r) <= NormSq(v)
  {
    assert drag * dt >= 0.0;
    DivShrinks(v, 1.0 + drag * dt);
    Div(v, 1.0 + drag * dt)
  }

  /** The dash part of the base Update: past the nominal duration the
      velocity decays; dashing ends once its magnitude is below run speed. */
  function DashTick(d: DashState, runSpeed: real, time: real, dt: real): (r: DashState)
    requires d.drag >= 0.0 && dt >= 0.0
    ensures r.startTime == d.startTime && r.duration == d.duration && r.drag == d.drag
    ensures r.isDashing ==> d.isDashing
    ensures !d.isDashing ==> r == d
  {
    if !d.isDashing then d
    else
      var v := if time >= d.startTime + d.duration then DashDecay(d.velocity, d.drag, dt) else d.velocity;
      d.(velocity := v, isDashing := !MagnitudeBelow(v, runSpeed))
  }

  /** While dashing, the velocity is kept until the nominal duration is over
      and decays afterwards; the dash goes on exactly as long as the
      resulting speed is not below run speed. */
  lemma DashTickVelocity(d: DashState, runSpeed: real, time: real, dt: real)
    requires d.drag >= 0.0 && dt >= 0.0 && d.isDashing
    ensures var r := DashTick(d, runSpeed, time, dt);
            && (time < d.startTime + d.duration ==> r.velocity == d.velocity)
            && (time >= d.startTime + d.duration ==> r.velocity == DashDecay(d.velocity, d.drag, dt))
            && (r.isDashing <==> !MagnitudeBelow(r.velocity, runSpeed))
  {
  }

  /** For a velocity whose length is `m`, the dash continues exactly while
      `m` is at least run speed. */
  lemma DashEndsBelowRunSpeed(d: DashState, runSpeed: real, time: real, dt: real, m: real)
    requires d.drag >= 0.0 && dt >= 0.0 && d.isDashing
    requires IsMagnitude(DashTick(d, runSpeed, time, dt).velocity, m)
    ensures DashTick(d, runSpeed, time, dt).isDashing <==> m >= runSpeed
  {
    MagnitudeBelowIsExact(DashTick(d, runSpeed, time, dt).velocity, m, runSpeed);
  }

  /** One dash step never speeds the dash up. */
  lemma DashTickShrinks(d: DashState, runSpeed: real, time: real, dt: real)
    requires d.drag >= 0.0 && dt >= 0.0
    ensures NormSq(DashTick(d, runSpeed, time, dt).velocity) <= NormSq(d.velocity)
  {
  }

  /** The dash over a sequence of step times. */
  function DashRun(d: DashState, runSpeed: real, times: seq<real>, dt: real): DashState
    requires d.drag >= 0.0 && dt >= 0.0
    decreases |times|
  {
    if times == [] then d
    else
      var next := DashTick(d, runSpeed, times[0], dt);
      DashRun(next, runSpeed, times[1..], dt)
  }

  /** Over any run of steps the dash never speeds up, never keeps going once
      it has stopped, and keeps its parameters. */
  lemma {:induction false} DashRunDecays(d: DashState, runSpeed: real, times: seq<real>, dt: real)
    requires d.drag >= 0.0 && dt >= 0.0
    ensures NormSq(DashRun(d, runSpeed, times, dt).velocity) <= NormSq(d.velocity)
    ensures DashRun(d, runSpeed, times, dt).isDashing ==> d.isDashing
    ensures !d.isDashing ==> DashRun(d, runSpeed, times, dt) == d
    ensures DashRun(d, runSpeed, times, dt).drag == d.drag
    decreases |times|
  {
    if times != [] {
      var next := DashTick(d, runSpeed, times[0], dt);
      DashTickShrinks(d, runSpeed, times[0], dt);
      DashRunDecays(next, runSpeed, times[1..], dt);
    }
  }

  // ---------------------------------------------------------------------------
  // Follow

  /** The stop condition of LocomotionSystemFollow.Update. */
  function FollowStops(hasTarget: bool, isFollowing: bool, distance: real,
                       minRadius: real, maxRadius: real): (stop: bool)
    ensures !hasTarget ==> stop
    ensures hasTarget && isFollowing ==> (stop <==> distance <= minRadius)
    ensures hasTarget && !isFollowing ==> (stop <==> distance <= maxRadius)
  {
    var stopConditions := !hasTarget;
    var stopConditions := stopConditions || (isFollowing && distance <= minRadius);
    stopConditions || (!isFollowing && distance <= maxRadius)
  }

  /** The following flag after each distance in turn, for a present target. */
  function FollowRun(isFollowing: bool, distances: seq<real>, minRadius: real, maxRadius: real): bool
    decreases |distances|
  {
    if distances == [] then isFollowing
    else FollowRun(!FollowStops(true, isFollowing, distances[0], minRadius, maxRadius),
                   distances[1..], minRadius, maxRadius)
  }

  /** Hysteresis: a stopped follower stays stopped while the target is within
      maxRadius. */
  lemma {:induction false} StoppedStaysStopped(distances: seq<real>, minRadius: real, maxRadius: real)
    requires forall i :: 0 <= i < |distances| ==> distances[i] <= maxRadius
    ensures !FollowRun(false, distances, minRadius, maxRadius)
  {
    if distances != [] {
      StoppedStaysStopped(distances[1..], minRadius, maxRadius);
    }
  }

  /** Hysteresis: a moving follower keeps moving while the target is farther
      than minRadius. */
  lemma {:induction false} FollowingKeepsFollowing(distances: seq<real>, minRadius: real, maxRadius: real)
    requires forall i :: 0 <= i < |distances| ==> distances[i] > minRadius
    ensures FollowRun(true, distances, minRadius, maxRadius)
  {
    if distances != [] {
      FollowingKeepsFollowing(distances[1..], minRadius, maxRadius);
    }
  }

  /** The walk-up: target at 10 with band [2, 5] starts moving, stops on
      reaching 2, and does not resume at 4. */
  lemma FollowBandScenario()
    ensures FollowRun(false, [10.0], 2.0, 5.0)
    ensures FollowRun(false, [10.0, 4.0], 2.0, 5.0)
    ensures !FollowRun(false, [10.0, 4.0, 2.0], 2.0, 5.0)
    ensures !FollowRun(false, [10.0, 4.0, 2.0, 4.0], 2.0, 5.0)
  {
  }

  // ---------------------------------------------------------------------------
  // Rotation

  /** LocomotionSystemRotation.ERROR_MARGIN */
  const PivotDeadZone: real := 0.1

  /** The pivot-speed rule: zero inside the dead zone; the right-axis
      component otherwise, snapped to +1 or -1 when the direction is behind. */
  function PivotSpeed(forwardDot: real, rightDot: real): (p: real)
    ensures -PivotDeadZone < forwardDot < PivotDeadZone ==> p == 0.0
    ensures forwardDot >= PivotDeadZone ==> p == rightDot
    ensures forwardDot <= -PivotDeadZone && rightDot >= 0.0 ==> p == 1.0
    ensures forwardDot <= -PivotDeadZone && rightDot < 0.0 ==> p == -1.0
  {
    var difference := forwardDot;
    var absolute := if difference < 0.0 then -difference else difference;
    if absolute < PivotDeadZone then 0.0
    else if difference < 0.0 then (if rightDot >= 0.0 then 1.0 else -1.0)
    else rightDot
  }

  /** pivotSpeed lies in [-1, 1] when the right axis has unit length and the
      desired direction is no longer than one. */
  lemma PivotInUnitRange(forward: Vec3, right: Vec3, desired: Vec3)
    requires NormSq(right) == 1.0 && NormSq(desired) <= 1.0
    ensures -1.0 <= PivotSpeed(Dot(forward, desired), Dot(right, desired)) <= 1.0
  {
    var r := Dot(right, desired);
    DotBound(right, desired);
    assert r * r <= NormSq(desired) by {
      assert NormSq(right) * NormSq(desired) == NormSq(desired);
    }
  }
}
