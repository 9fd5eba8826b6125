/**
  CharacterLocomotion: the per-character orchestrator. Each step it runs the
  ground-contact state machine, integrates gravity into the momentum, lets
  the active locomotion system write the driver, and remembers the driver's
  velocity. It owns exactly one locomotion system at a time and replaces it
  (teardown, then a fresh instance) when a different kind is requested.

  Character.cs is not part of this model: the character's `characterState`
  record is held here, and `Character.IsGrounded()` arrives in the Frame.
*/
module Locomotion {
  import opened Vectors
  import opened Options
  import opened LocomotionRules
  import opened Drivers
  import opened LocomotionSystems

  // ---------------------------------------------------------------------------
  // Ground-contact state machine

  /** Character.LocomotionState; `OtherState` stands for any value the
      switch has no case for. */
  datatype LocomotionState = Grounded | Falling | Rising | OtherState

  /** Which ground-contact callback a step fires. */
  datatype GroundEdge = NoEdge | ContactLost | ContactRegained

  datatype GroundTransition = GroundTransition(next: LocomotionState, edge: GroundEdge)

  /** The vertical-momentum threshold of IsRisingOrFalling. */
  const RisingLimit: real := 0.001

  /** GROUND_TIME_OFFSET: the grace period after `lastGroundTime`. */
  const GroundTimeOffset: real := 0.1

  /** IsRisingOrFalling: the vertical part of the momentum is longer than the
      limit, in either direction. Both lengths are non-negative, so the test
      is made on squares. */
  function IsRisingOrFalling(momentum: Vec3): (b: bool)
    ensures b <==> momentum.y > RisingLimit || momentum.y < -RisingLimit
  {
    AboveLimitSquared(momentum.y);
    NormSq(Vertical(momentum)) > RisingLimit * RisingLimit
  }

  /** `isRising`: moving vertically, and upwards, which is exactly a vertical
      momentum above the limit. */
  function IsRising(momentum: Vec3): (b: bool)
    ensures b <==> momentum.y > RisingLimit
  {
    IsRisingOrFalling(momentum) && Dot(momentum, Up) > 0.0
  }

  /** Comparing squares with the limit's square is comparing the absolute
      value with the limit. */
  lemma AboveLimitSquared(y: real)
    ensures y * y > RisingLimit * RisingLimit <==> y > RisingLimit || y < -RisingLimit
  {
    var a := if y >= 0.0 then y else -y;
    assert a * a == y * y;
    if a > RisingLimit {
      assert a * a > RisingLimit * a;
      assert RisingLimit * a > RisingLimit * RisingLimit;
    } else {
      assert a * a <= RisingLimit * a;
      assert RisingLimit * a <= RisingLimit * RisingLimit;
    }
  }

  /** One pass of the state switch: rising wins over every other test; the
      driver's contact flag decides between Grounded and Falling; an
      unexpected state resets to Falling. */
  function GroundStep(s: LocomotionState, rising: bool, grounded: bool): (t: GroundTransition)
    ensures t.next != OtherState
    ensures t.next == Rising <==> s != OtherState && rising
    ensures t.next == Grounded <==> s != OtherState && !rising && grounded
    ensures t.next == Falling <==> s == OtherState || (!rising && !grounded)
    ensures t.edge == ContactLost <==> s == Grounded && !rising && !grounded
    ensures t.edge == ContactRegained <==> (s == Falling || s == Rising) && !rising && grounded
  {
    match s
    case Grounded =>
      if rising then GroundTransition(Rising, NoEdge)
      else if !grounded then GroundTransition(Falling, ContactLost)
      else GroundTransition(Grounded, NoEdge)
    case Falling =>
      if rising then GroundTransition(Rising, NoEdge)
      else if grounded then GroundTransition(Grounded, ContactRegained)
      else GroundTransition(Falling, NoEdge)
    case Rising =>
      if !rising then
        (if grounded then GroundTransition(Grounded, ContactRegained) else GroundTransition(Falling, NoEdge))
      else GroundTransition(Rising, NoEdge)
    case OtherState => GroundTransition(Falling, NoEdge)
  }

  /** Rising and contact as seen by one step. */
  datatype GroundInput = GroundInput(rising: bool, grounded: bool)

  /** The callbacks fired over a run of steps. */
  function Edges(s: LocomotionState, inputs: seq<GroundInput>): (e: seq<GroundEdge>)
    ensures |e| == |inputs|
    decreases |inputs|
  {
    if inputs == [] then []
    else
      var t := GroundStep(s, inputs[0].rising, inputs[0].grounded);
      [t.edge] + Edges(t.next, inputs[1..])
  }

  /** Away from the ground, contact can be lost again only after it has been
      regained: every ContactLost edge is preceded by a ContactRegained edge. */
  lemma {:induction false} NoLossBeforeRegain(s: LocomotionState, inputs: seq<GroundInput>, i: nat)
    requires s != Grounded
    requires i < |inputs| && Edges(s, inputs)[i] == ContactLost
    ensures exists k :: 0 <= k < i && Edges(s, inputs)[k] == ContactRegained
    decreases |inputs|
  {
    var t := GroundStep(s, inputs[0].rising, inputs[0].grounded);
    var e := Edges(s, inputs);
    assert e == [t.edge] + Edges(t.next, inputs[1..]);
    if t.edge == ContactRegained {
      assert i > 0;
      assert e[0] == ContactRegained;
    } else {
      assert t.edge == NoEdge && t.next != Grounded;
      assert i > 0;
      assert Edges(t.next, inputs[1..])[i - 1] == ContactLost;
      NoLossBeforeRegain(t.next, inputs[1..], i - 1);
      var k :| 0 <= k < i - 1 && Edges(t.next, inputs[1..])[k] == ContactRegained;
      assert e[k + 1] == ContactRegained;
    }
  }

  /** Between two ContactLost edges there is always a ContactRegained edge,
      so OnGroundContactLost never fires twice in a row. */
  lemma {:induction false} LossesSeparatedByRegain(s: LocomotionState, inputs: seq<GroundInput>, i: nat, j: nat)
    requires i < j < |inputs|
    requires Edges(s, inputs)[i] == ContactLost && Edges(s, inputs)[j] == ContactLost
    ensures exists k :: i < k < j && Edges(s, inputs)[k] == ContactRegained
    decreases |inputs|
  {
    var t := GroundStep(s, inputs[0].rising, inputs[0].grounded);
    var rest := Edges(t.next, inputs[1..]);
    var e := Edges(s, inputs);
    assert e == [t.edge] + rest;
    assert rest[j - 1] == ContactLost;
    if i == 0 {
      assert t.next == Falling;
      NoLossBeforeRegain(t.next, inputs[1..], j - 1);
      var k :| 0 <= k < j - 1 && rest[k] == ContactRegained;
      assert e[k + 1] == ContactRegained;
    } else {
      assert rest[i - 1] == ContactLost;
      LossesSeparatedByRegain(t.next, inputs[1..], i - 1, j - 1);
      var k :| i - 1 < k < j - 1 && rest[k] == ContactRegained;
      assert e[k + 1] == ContactRegained;
    }
  }

  // ---------------------------------------------------------------------------
  // Gravity

  /** What HandleGravity does to the momentum: the horizontal part is kept,
      the vertical part gains `gravity * dt` and is cleared on the ground. */
  function GravityStep(momentum: Vec3, gravity: real, dt: real, grounded: bool): (r: Vec3)
    ensures Horizontal(r) == Horizontal(momentum)
    ensures grounded ==> Vertical(r) == Zero
    ensures !grounded ==> Vertical(r) == Add(Vertical(momentum), Scale(Up, gravity * dt))
  {
    Vec3(momentum.x, if grounded then 0.0 else momentum.y + gravity * dt, momentum.z)
  }

  /** A run of grounded steps never changes the momentum again after the
      first; two airborne steps add `gravity * dt` twice. */
  lemma GravityOnGroundSettles(momentum: Vec3, gravity: real, dt: real)
    ensures var once := GravityStep(momentum, gravity, dt, true);
            GravityStep(once, gravity, dt, true) == once && once.y == 0.0
            && Horizontal(once) == Horizontal(momentum)
    ensures var twice := GravityStep(GravityStep(momentum, gravity, dt, false), gravity, dt, false);
            twice.y == momentum.y + 2.0 * (gravity * dt) && Horizontal(twice) == Horizontal(momentum)
  {
  }

  // ---------------------------------------------------------------------------
  // The state snapshot

  /** A flag of characterState: 1 for true, 0 for false. */
  function Flag(b: bool): (r: real)
    ensures r == 0.0 || r == 1.0
    ensures r == 1.0 <==> b
  {
    if b then 1.0 else 0.0
  }

  /** The part of Character.characterState the orchestrator writes and the
      model keeps: the ground state, the three flags, the pivot speed and
      the ground normal. */
  datatype CharacterState = CharacterState(
    locomotionState: LocomotionState,
    isGrounded: real,
    isSliding: real,
    isDashing: real,
    pivotSpeed: real,
    normal: Vec3)

  /** The snapshot's grounded test: the back-end's own contact test, or the
      grace period after `lastGroundTime`. */
  function SnapshotGrounded(backend: LocomotionBackend, driverGrounded: bool, onOffMeshLink: bool,
                            time: real, lastGroundTime: real): (g: bool)
    ensures time - lastGroundTime < GroundTimeOffset ==> g
    ensures backend == UseLocomotionDriver ==> (g <==> driverGrounded || time - lastGroundTime < GroundTimeOffset)
    ensures backend == UseNavigationMeshAgent ==> (g <==> !onOffMeshLink || time - lastGroundTime < GroundTimeOffset)
  {
    match backend
    case UseLocomotionDriver => driverGrounded || time - lastGroundTime < GroundTimeOffset
    case UseNavigationMeshAgent => !onOffMeshLink || time - lastGroundTime < GroundTimeOffset
  }

  /** With the driver back-end, a rigid-body character is always grounded in
      the snapshot, and a base-class driver is grounded only within the grace
      period after the last ground contact. */
  lemma SnapshotGroundedByDriver(d: LocomotionDriver, onOffMeshLink: bool, time: real, lastGroundTime: real)
    ensures d.kind == RigidBody ==>
              SnapshotGrounded(UseLocomotionDriver, d.IsGrounded(), onOffMeshLink, time, lastGroundTime)
    ensures d.kind == Generic ==>
              (SnapshotGrounded(UseLocomotionDriver, d.IsGrounded(), onOffMeshLink, time, lastGroundTime)
               <==> time - lastGroundTime < GroundTimeOffset)
    ensures d.kind == UnityController ==>
              (SnapshotGrounded(UseLocomotionDriver, d.IsGrounded(), onOffMeshLink, time, lastGroundTime)
               <==> d.cc.isGrounded || time - lastGroundTime < GroundTimeOffset)
  {
  }

  class CharacterLocomotion {
    /** The public tuning fields. */
    var config: LocomotionConfig
    var isControllable: bool
    var terrainNormal: Vec3
    var verticalSpeed: real
    var lastGroundTime: real
    var lastJumpTime: real
    var jumpChain: int
    var momentum: Vec3
    var lastSavedVelocity: Vec3
    var animatorConstraint: AnimConstraint
    const driver: LocomotionDriver
    var currentLocomotionType: LocomotionBackend
    var currentSystem: LocomotionSystem?
    /** Character.characterState, as far as it is modelled. */
    var characterState: CharacterState

    /** After Setup a system is installed and its dash drag is non-negative. */
    ghost predicate Valid()
      reads this, currentSystem
    {
      currentSystem != null && currentSystem.Valid()
    }

    /** The context a locomotion system reads during a step. */
    function Ctx(): Context
      reads this
    {
      Context(config, animatorConstraint, momentum, verticalSpeed, terrainNormal)
    }

    /** The field initialisers followed by Setup(character) at `time`: both
        timers start now, the driver back-end is selected and a Directional
        system with a zero direction is installed. */
    constructor Setup(driver: LocomotionDriver, config: LocomotionConfig, time: real, state: CharacterState)
      ensures Valid() && fresh(currentSystem)
      ensures currentSystem.kind == Directional && currentSystem.desiredDirection == Zero
      ensures this.driver == driver && this.config == config && characterState == state
      ensures lastGroundTime == time && lastJumpTime == time && currentLocomotionType == UseLocomotionDriver
      ensures isControllable && terrainNormal == Up && verticalSpeed == 0.0 && jumpChain == 0
      ensures momentum == Zero && lastSavedVelocity == Zero && animatorConstraint == NoConstraint
    {
      this.config := config;
      isControllable := true;
      terrainNormal := Up;
      verticalSpeed := 0.0;
      lastGroundTime := time;
      lastJumpTime := time;
      jumpChain := 0;
      momentum := Zero;
      lastSavedVelocity := Zero;
      animatorConstraint := NoConstraint;
      this.driver := driver;
      currentLocomotionType := UseLocomotionDriver;
      currentSystem := null;
      characterState := state;
      new;
      SetDirectionalDirection(Zero);
    }

    /** ChangeLocomotionSystem<TLS>: nothing happens when the active system
        already has the requested kind; otherwise the old one (if any) is torn
        down once and a fresh one is installed. */
    method ChangeLocomotionSystem(kind: SystemKind)
      modifies this, currentSystem
      ensures var same := old(currentSystem) != null && old(currentSystem.kind) == kind;
              && (same ==> currentSystem == old(currentSystem) && unchanged(currentSystem))
              && (!same ==> fresh(currentSystem) && currentSystem.kind == kind && currentSystem.Initial()
                            && currentSystem.Valid())
              && (!same && old(currentSystem) != null ==>
                    old(currentSystem).teardowns == old(currentSystem.teardowns) + 1
                    && old(currentSystem).dash == old(currentSystem.dash))
      ensures currentSystem != null
      ensures KeepsAllButSystem()
    {
      if currentSystem != null && currentSystem.kind == kind {
        return;
      }
      if currentSystem != null {
        currentSystem.OnDestroy();
      }
      currentSystem := new LocomotionSystem(kind);
    }

    /** SetDirectionalDirection: switch to Directional and store the
        direction. */
    method SetDirectionalDirection(direction: Vec3)
      modifies this, currentSystem
      ensures currentSystem != null && currentSystem.kind == Directional && currentSystem.desiredDirection == direction
      ensures old(currentSystem) != null && old(currentSystem.kind) == Directional ==>
                currentSystem == old(currentSystem)
      ensures old(currentSystem) == null || old(currentSystem.kind) != Directional ==> fresh(currentSystem)
      ensures old(currentSystem) != null && old(currentSystem.kind) != Directional ==>
                old(currentSystem).teardowns == old(currentSystem.teardowns) + 1
      ensures old(currentSystem) != null && old(currentSystem).Valid() ==> currentSystem.Valid()
      ensures currentSystem.dash == (if old(currentSystem) != null && old(currentSystem.kind) == Directional
                                     then old(currentSystem.dash) else InitialDash)
      ensures KeepsAllButSystem()
    {
      ChangeLocomotionSystem(Directional);
      currentSystem.SetDirection(direction);
    }

    /** FollowTarget: switch to Follow and hand it the target and band. */
    method FollowTarget(target: Option<nat>, minRadius: real, maxRadius: real)
      requires Valid()
      modifies this, currentSystem
      ensures Valid() && currentSystem.kind == Follow
      ensures currentSystem.followTarget == target && !currentSystem.isFollowing
      ensures currentSystem.minRadius == minRadius && currentSystem.maxRadius == maxRadius
      ensures currentSystem.usingNavmesh == config.canUseNavigationMesh
      ensures old(currentSystem.kind) == Follow ==> currentSystem == old(currentSystem)
      ensures old(currentSystem.kind) != Follow ==>
                fresh(currentSystem) && old(currentSystem).teardowns == old(currentSystem.teardowns) + 1
      ensures KeepsAllButSystem()
    {
      ChangeLocomotionSystem(Follow);
      currentSystem.SetFollow(target, minRadius, maxRadius, config.canUseNavigationMesh);
    }

    /** SetRotation: switch to Rotation and store the direction. */
    method SetRotation(direction: Vec3)
      requires Valid()
      modifies this, currentSystem
      ensures Valid() && currentSystem.kind == RotationSystem && currentSystem.desiredDirection == direction
      ensures old(currentSystem.kind) == RotationSystem ==> currentSystem == old(currentSystem)
      ensures old(currentSystem.kind) != RotationSystem ==>
                fresh(currentSystem) && old(currentSystem).teardowns == old(currentSystem.teardowns) + 1
      ensures KeepsAllButSystem()
    {
      ChangeLocomotionSystem(RotationSystem);
      currentSystem.SetDirection(direction);
    }

    /** Dash: switch to Directional with a zero direction, then start the dash
        there. */
    method Dash(direction: Vec3, magnitude: real, dashSpeed: real, duration: real, drag: real, time: real)
      requires Valid() && drag >= 0.0
      modifies this, currentSystem
      ensures Valid() && currentSystem.kind == Directional && currentSystem.desiredDirection == Zero
      ensures currentSystem.dash == DashState(true, DashVelocity(direction, magnitude, dashSpeed), time, duration, drag)
      ensures old(currentSystem.kind) == Directional ==> currentSystem == old(currentSystem)
      ensures old(currentSystem.kind) != Directional ==>
                fresh(currentSystem) && old(currentSystem).teardowns == old(currentSystem.teardowns) + 1
      ensures KeepsAllButSystem()
    {
      SetDirectionalDirection(Zero);
      currentSystem.Dash(direction, magnitude, dashSpeed, duration, drag, time);
    }

    /** AddMomentum. */
    method AddMomentum(value: Vec3)
      modifies this
      ensures momentum == Add(old(momentum), value) && KeepsAllButMomentum()
    {
      momentum := Add(momentum, value);
    }

    /** Jump(): the jump logic is disabled, so it reports -1 and changes
        nothing. */
    method Jump() returns (chain: int)
      ensures chain == -1
    {
      chain := JumpWith(config.jumpForce);
    }

    /** Jump(jumpForce). */
    method JumpWith(jumpForce: real) returns (chain: int)
      ensures chain == -1
    {
      return -1;
    }

    method SetAnimatorConstraint(constraint: AnimConstraint)
      modifies this
      ensures animatorConstraint == constraint
      ensures KeepsAllButConstraint()
    {
      animatorConstraint := constraint;
    }

    /** ChangeHeight: the driver's collider takes the height, centred at half
        of it; the agent's height is not modelled. */
    method ChangeHeight(height: real)
      modifies driver
      ensures driver.kind == RigidBody ==>
                driver.cd == old(driver.cd).(height := height, center := CenterForHeight(height))
                && driver.cc == old(driver.cc)
      ensures driver.kind == UnityController ==>
                driver.cc == old(driver.cc).(height := height, center := CenterForHeight(height))
                && driver.cd == old(driver.cd)
      ensures driver.kind == Generic ==> driver.cd == old(driver.cd) && driver.cc == old(driver.cc)
      ensures driver.rb == old(driver.rb) && driver.rotation == old(driver.rotation)
      ensures driver.slopeLimit == old(driver.slopeLimit) && driver.position == old(driver.position)
      ensures driver.kind != Generic ==> driver.GetHeight() == height && driver.GetCenter() == Vec3(0.0, height / 2.0, 0.0)
      ensures driver.kind == Generic ==> driver.GetHeight() == old(driver.GetHeight())
    {
      driver.SetHeight(height);
    }

    /** SetIsControllable: the same value changes nothing and fires nothing;
        otherwise the flag is stored, losing control switches to Directional
        with a zero direction, and onIsControllable fires with the new value. */
    method SetIsControllable(value: bool) returns (event: Option<bool>)
      requires Valid()
      modifies this, currentSystem
      ensures Valid()
      ensures value == old(isControllable) ==> (event == None && unchanged(this) && unchanged(currentSystem))
      ensures value != old(isControllable) ==> event == Some(value) && isControllable == value
      ensures !value && value != old(isControllable) ==> (currentSystem.kind == Directional && currentSystem.desiredDirection == Zero)
      ensures value && value != old(isControllable) ==> currentSystem == old(currentSystem) && unchanged(currentSystem)
      ensures KeepsAllButSystemAndControl()
    {
      if value == isControllable {
        return None;
      }
      isControllable := value;
      if !isControllable {
        SetDirectionalDirection(Zero);
      }
      return Some(isControllable);
    }

    /** The aim direction the active system computed in its last step. */
    function GetAimDirection(): (d: Vec3)
      requires currentSystem != null
      reads this, currentSystem
      ensures d == currentSystem.aimDirection
    {
      currentSystem.aimDirection
    }

    /** The movement direction the active system computed in its last step. */
    function GetMovementDirection(): (d: Vec3)
      requires currentSystem != null
      reads this, currentSystem
      ensures d == currentSystem.movementDirection
    {
      currentSystem.movementDirection
    }

    /** Every field but the momentum and the character state is as before. */
    twostate predicate KeepsAllButMomentumAndState()
      reads this
    {
      && config == old(config) && isControllable == old(isControllable) && terrainNormal == old(terrainNormal)
      && verticalSpeed == old(verticalSpeed) && lastGroundTime == old(lastGroundTime)
      && lastJumpTime == old(lastJumpTime) && jumpChain == old(jumpChain)
      && lastSavedVelocity == old(lastSavedVelocity) && animatorConstraint == old(animatorConstraint)
      && currentLocomotionType == old(currentLocomotionType) && currentSystem == old(currentSystem)
    }

    /** Every field but the active system and the controllable flag is as
        before. */
    twostate predicate KeepsAllButSystemAndControl()
      reads this
    {
      && config == old(config) && terrainNormal == old(terrainNormal)
      && verticalSpeed == old(verticalSpeed) && lastGroundTime == old(lastGroundTime)
      && lastJumpTime == old(lastJumpTime) && jumpChain == old(jumpChain) && momentum == old(momentum)
      && lastSavedVelocity == old(lastSavedVelocity) && animatorConstraint == old(animatorConstraint)
      && characterState == old(characterState) && currentLocomotionType == old(currentLocomotionType)
    }

    /** Every field but the active system is as before. */
    twostate predicate KeepsAllButSystem()
      reads this
    {
      KeepsAllButSystemAndControl() && isControllable == old(isControllable)
    }

    /** Every field but the animator constraint is as before. */
    twostate predicate KeepsAllButConstraint()
      reads this
    {
      && config == old(config) && isControllable == old(isControllable) && terrainNormal == old(terrainNormal)
      && verticalSpeed == old(verticalSpeed) && lastGroundTime == old(lastGroundTime)
      && lastJumpTime == old(lastJumpTime) && jumpChain == old(jumpChain) && momentum == old(momentum)
      && lastSavedVelocity == old(lastSavedVelocity) && characterState == old(characterState)
      && currentLocomotionType == old(currentLocomotionType) && currentSystem == old(currentSystem)
    }

    /** Every field but the momentum is as before. */
    twostate predicate KeepsAllButMomentum()
      reads this
    {
      KeepsAllButMomentumAndState() && characterState == old(characterState)
    }

    /** OnGroundContactLost: the momentum is cleared. The horizontal speed it
        derives from the last velocity is discarded by the source. */
    method OnGroundContactLost()
      modifies this
      ensures momentum == Zero && KeepsAllButMomentum()
    {
      momentum := Zero;
    }

    /** OnGroundContactRegained: onLand fires with the vertical momentum,
        then the momentum is cleared. */
    method OnGroundContactRegained() returns (onLand: real)
      modifies this
      ensures onLand == old(momentum).y && momentum == Zero && KeepsAllButMomentum()
    {
      onLand := momentum.y;
      momentum := Zero;
    }

    /** The state switch of UpdateCharacterState: the next ground state, the
        contact callbacks it fires and their effect on the momentum. `onLand`
        is the onLand payload when that event fires. */
    method SwitchGroundState() returns (onLand: Option<real>)
      modifies this
      ensures var t := GroundStep(old(characterState.locomotionState), IsRising(old(momentum)), driver.IsGrounded());
              && characterState == old(characterState).(locomotionState := t.next)
              && momentum == (if t.edge == NoEdge then old(momentum) else Zero)
              && onLand == (if t.edge == ContactRegained then Some(old(momentum).y) else None)
      ensures KeepsAllButMomentumAndState()
    {
      var isRising := IsRising(momentum);
      var state := characterState.locomotionState;
      onLand := None;
      match state {
        case Grounded =>
          if isRising {
            state := Rising;
          } else if !driver.IsGrounded() {
            state := Falling;
            OnGroundContactLost();
          }
        case Falling =>
          if isRising {
            state := Rising;
          } else if driver.IsGrounded() {
            state := Grounded;
            var y := OnGroundContactRegained();
            onLand := Some(y);
          }
        case Rising =>
          if !isRising {
            if driver.IsGrounded() {
              state := Grounded;
              var y := OnGroundContactRegained();
              onLand := Some(y);
            } else {
              state := Falling;
            }
          }
        case OtherState =>
          state := Falling;
      }
      characterState := characterState.(locomotionState := state);
    }

    /** The snapshot half of UpdateCharacterState: the three flags, the pivot
        speed and the ground normal are copied into the character state. */
    method TakeSnapshot(backend: LocomotionBackend, f: Frame)
      requires currentSystem != null
      modifies this
      ensures momentum == old(momentum) && KeepsAllButMomentumAndState()
      ensures characterState == CharacterState(
                old(characterState.locomotionState),
                Flag(SnapshotGrounded(backend, driver.IsGrounded(), f.onOffMeshLink, f.time, lastGroundTime)),
                Flag(currentSystem.isSliding), Flag(currentSystem.dash.isDashing),
                currentSystem.pivotSpeed, terrainNormal)
    {
      var isSliding := currentSystem.isSliding;
      var isGrounded := true;
      match backend {
        case UseLocomotionDriver =>
          isGrounded := driver.IsGrounded() || f.time - lastGroundTime < GroundTimeOffset;
        case UseNavigationMeshAgent =>
          isGrounded := !f.onOffMeshLink || f.time - lastGroundTime < GroundTimeOffset;
      }
      characterState := CharacterState(characterState.locomotionState, if isGrounded then 1.0 else 0.0,
                                       if isSliding then 1.0 else 0.0,
                                       if currentSystem.dash.isDashing then 1.0 else 0.0,
                                       currentSystem.pivotSpeed, terrainNormal);
    }

    /** UpdateCharacterState: the state switch, then the snapshot. */
    method UpdateCharacterState(backend: LocomotionBackend, f: Frame) returns (onLand: Option<real>)
      requires currentSystem != null
      modifies this
      ensures KeepsAllButMomentumAndState()
      ensures var t := GroundStep(old(characterState.locomotionState), IsRising(old(momentum)), driver.IsGrounded());
              && characterState == CharacterState(
                   t.next,
                   Flag(SnapshotGrounded(backend, driver.IsGrounded(), f.onOffMeshLink, f.time, lastGroundTime)),
                   Flag(currentSystem.isSliding), Flag(currentSystem.dash.isDashing),
                   currentSystem.pivotSpeed, terrainNormal)
              && momentum == (if t.edge == NoEdge then old(momentum) else Zero)
              && onLand == (if t.edge == ContactRegained then Some(old(momentum).y) else None)
    {
      onLand := SwitchGroundState();
      TakeSnapshot(backend, f);
    }

    /** HandleGravity: split the momentum along up, add this step's gravity to
        the vertical part, clear that part on the ground, and recombine. */
    method HandleGravity(f: Frame)
      modifies this
      ensures momentum == GravityStep(old(momentum), config.gravity, f.fixedDeltaTime, f.characterGrounded)
      ensures KeepsAllButMomentum()
    {
      var verticalMomentum := Zero;
      var horizontalMomentum := Zero;
      if momentum != Zero {
        verticalMomentum := Vertical(momentum);
        horizontalMomentum := Sub(momentum, verticalMomentum);
        SplitsAlongUp(momentum);
      }
      verticalMomentum := Add(verticalMomentum, Vec3(0.0, config.gravity * f.fixedDeltaTime, 0.0));
      if f.characterGrounded {
        verticalMomentum := Zero;
      }
      momentum := Add(horizontalMomentum, verticalMomentum);
    }

    /** Update: the state machine with last step's back-end, gravity, the
        active system's step, then the driver velocity is remembered. */
    method Update(f: Frame) returns (onLand: Option<real>)
      requires Valid() && f.fixedDeltaTime >= 0.0
      requires IsMagnitude(Horizontal(driver.GetVelocity()), f.planarSpeed)
      modifies this, currentSystem, driver
      ensures Valid() && currentSystem == old(currentSystem)
      ensures var t := GroundStep(old(characterState.locomotionState), IsRising(old(momentum)), old(driver.IsGrounded()));
              && characterState.locomotionState == t.next
              && onLand == (if t.edge == ContactRegained then Some(old(momentum).y) else None)
              && momentum == GravityStep(if t.edge == NoEdge then old(momentum) else Zero,
                                         config.gravity, f.fixedDeltaTime, f.characterGrounded)
      ensures currentSystem.dash == DashTick(old(currentSystem.dash), config.runSpeed, f.time, f.fixedDeltaTime)
      ensures currentSystem.kind == Follow ==>
                (currentLocomotionType == UseNavigationMeshAgent <==> currentSystem.usingNavmesh)
      ensures currentSystem.kind != Follow ==> currentLocomotionType == UseLocomotionDriver
      ensures characterState == CharacterState(
                characterState.locomotionState,
                Flag(SnapshotGrounded(old(currentLocomotionType), old(driver.IsGrounded()), f.onOffMeshLink,
                                      f.time, old(lastGroundTime))),
                Flag(old(currentSystem.isSliding)), Flag(old(currentSystem.dash.isDashing)),
                old(currentSystem.pivotSpeed), old(terrainNormal))
      ensures lastSavedVelocity == driver.GetVelocity()
      ensures config == old(config) && isControllable == old(isControllable)
      ensures animatorConstraint == old(animatorConstraint) && terrainNormal == old(terrainNormal)
      ensures verticalSpeed == old(verticalSpeed) && lastGroundTime == old(lastGroundTime)
      ensures lastJumpTime == old(lastJumpTime) && jumpChain == old(jumpChain)
    {
      onLand := UpdateCharacterState(currentLocomotionType, f);
      HandleGravity(f);
      var backend := currentSystem.Update(Ctx(), driver, f);
      currentLocomotionType := backend;
      lastSavedVelocity := driver.GetVelocity();
    }

    /** The accumulated momentum. */
    function GetMomentum(): (m: Vec3)
      reads this
      ensures m == momentum
    {
      momentum
    }
  }
}
