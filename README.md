# Character locomotion of a Game Creator project, modelled in Dafny

This project models how Game Creator moves a character.

**The orchestrator.** `CharacterLocomotion` (module `Locomotion`) runs the character each physics step:

- It keeps a four-state ground machine: Grounded, Falling, Rising and an unknown start state. The state changes fire the contact-lost and contact-regained events.
- It integrates gravity into an accumulated momentum.
- It takes a snapshot of the 0/1 animation flags.
- It delegates the actual movement to one of several locomotion systems.

**The locomotion systems.** `LocomotionSystems` models the Directional, Follow and Rotation systems. They share a base class (`ILocomotionSystem`) that owns:

- the dash timer and its drag decay;
- the face-direction policy;
- speed damping and the acceleration ramp;
- animator constraints;
- slope sliding.

The pure rules are functions in `LocomotionRules`; the per-step state changes are methods of the `LocomotionSystem` class.

**The drivers.** `Drivers` models the three locomotion drivers that talk to the physics engine: the base class's defaults, the rigid-body one and the character-controller one.

**Small components around the character.**

- the `TargetCharacter` and `TargetGameObject` selectors, including the character selector's one-entry cache;
- `TriggerArea`, a list of the rigidbodies inside a trigger volume;
- `CodeTrigger`, a latch that makes a trigger run once on the next update;
- `ActionCharacterMount`, which disables a character and its collisions.

**How the engine is represented.** Floating-point numbers are modelled as reals. Engine answers the model cannot compute are inputs:

- a per-step `Frame` carries the clock, the character's axes, the turn the quaternion maths produces, the slope under the character and the follow target's offset;
- a `Scene` value carries the hooks, the variables and the component lookups for the selectors.

`LocomotionRules.WellFormed` states what such a frame must satisfy for the geometric lemmas: a positive fixed step, and distances that are the lengths of their offsets. The step methods also require `planarSpeed` to be the length of the driver's horizontal velocity. World up is (0, 1, 0), and the character's own up axis is taken to be world up.

Three behaviours of the code worth noting:

- **Acceleration ramp.** The ramp toward a lower target speed can go below that target in one step. It subtracts the decrement and clamps only at zero (`LocomotionRules.RampCanUndershoot`); it does not stop at the target.
- **Rigid-body slope limit.** The rigid-body driver reports a slope limit of 45 whatever its own `slopeLimit` field holds (`Drivers.LocomotionDriver.GetSlopeAngleLimit`).
- **Move semantics differ by driver.** The rigid-body driver's `Move` passes its argument to `Rigidbody.MovePosition`, which takes a target position. The controller driver treats the same argument as a displacement (`Drivers.LocomotionDriver.Move`).

## Model

| member | source | states |
|---|---|---|
| Locomotion.GroundStep | Assets/Plugins/GameCreator/Characters/Mono/Characters/Navigation/CharacterLocomotion.cs:379-424 | The next state is never the unknown state. It is Rising iff rising from a known state. It is Grounded iff not rising and the driver reports contact. It is Falling iff the state was unknown or neither holds. ContactLost fires exactly on Grounded with no contact and not rising. ContactRegained fires exactly on Falling or Rising with contact and not rising. |
| Locomotion.IsRisingOrFalling | Assets/Plugins/GameCreator/Characters/Mono/Characters/Navigation/CharacterLocomotion.cs:268-274 | True exactly when the vertical momentum is above 0.001 or below -0.001. |
| Locomotion.IsRising | Assets/Plugins/GameCreator/Characters/Mono/Characters/Navigation/CharacterLocomotion.cs:377 | True exactly when the vertical momentum is above 0.001: moving vertically and upwards. |
| Locomotion.NoLossBeforeRegain | Assets/Plugins/GameCreator/Characters/Mono/Characters/Navigation/CharacterLocomotion.cs:381-424 | Starting away from the ground, every lost-contact edge in a run of steps is preceded by a regained-contact edge. |
| Locomotion.LossesSeparatedByRegain | Assets/Plugins/GameCreator/Characters/Mono/Characters/Navigation/CharacterLocomotion.cs:381-424 | Between any two lost-contact edges of a run there is a regained-contact edge: OnGroundContactLost never fires twice without a landing between. |
| Locomotion.GravityOnGroundSettles | Assets/Plugins/GameCreator/Characters/Mono/Characters/Navigation/CharacterLocomotion.cs:349-368 | A grounded gravity step clears the vertical momentum and keeps the horizontal part; a second grounded step changes nothing. Two airborne steps add gravity*dt twice and keep the horizontal part. |
| Locomotion.GravityStep | Assets/Plugins/GameCreator/Characters/Mono/Characters/Navigation/CharacterLocomotion.cs:349-368 | The horizontal part of the momentum is kept. The vertical part is cleared on the ground; otherwise it gains up*gravity*dt. |
| Locomotion.SnapshotGroundedByDriver | Assets/Plugins/GameCreator/Characters/Mono/Characters/Navigation/CharacterLocomotion.cs:431-451 | With the driver back-end, a rigid-body character is always grounded in the snapshot. A base-class driver is grounded only within 0.1 s of the last ground contact, and a controller when its controller is grounded or within that grace. |
| Locomotion.Flag | Assets/Plugins/GameCreator/Characters/Mono/Characters/Navigation/CharacterLocomotion.cs:460-462 | A snapshot flag is exactly 0 or 1, and 1 iff the condition holds. |
| Locomotion.CharacterLocomotion.Setup | Assets/Plugins/GameCreator/Characters/Mono/Characters/Navigation/CharacterLocomotion.cs:109-122 | Both timers start at the given time, the driver back-end is selected, and a fresh Directional system with a zero direction is installed. Every other field takes its initialiser. |
| Locomotion.CharacterLocomotion.Update | Assets/Plugins/GameCreator/Characters/Mono/Characters/Navigation/CharacterLocomotion.cs:126-134 | The frame's planarSpeed must be the driver's horizontal speed. The state machine runs on the momentum and contact from before the step. Momentum is cleared on an edge, then gravity is applied. The active system's dash advances by DashTick. The back-end matches the Follow navmesh choice, and the saved velocity is the driver's velocity afterwards. The snapshot holds the grounded test against the old contact and ground time, the system's sliding and dashing flags and pivot speed from before its step, and the normal. The controllable flag, animator constraint, normal, vertical speed, both timers and jumpChain stay the same. |
| Locomotion.CharacterLocomotion.UpdateCharacterState | Assets/Plugins/GameCreator/Characters/Mono/Characters/Navigation/CharacterLocomotion.cs:375-464 | The new ground state is GroundStep's, momentum is cleared on either edge, and onLand carries the old vertical momentum on a regained edge. The snapshot holds the 0/1 flags, the pivot speed and the terrain normal. |
| Locomotion.CharacterLocomotion.SwitchGroundState | Assets/Plugins/GameCreator/Characters/Mono/Characters/Navigation/CharacterLocomotion.cs:377-424 | The switch part alone: the state, momentum and onLand payload as GroundStep says, nothing else of the orchestrator changed. |
| Locomotion.CharacterLocomotion.TakeSnapshot | Assets/Plugins/GameCreator/Characters/Mono/Characters/Navigation/CharacterLocomotion.cs:426-463 | The snapshot part alone: the character state becomes the flags of SnapshotGrounded, isSliding and isDashing, with the system's pivot speed and the terrain normal. |
| Locomotion.CharacterLocomotion.HandleGravity | Assets/Plugins/GameCreator/Characters/Mono/Characters/Navigation/CharacterLocomotion.cs:349-368 | The momentum becomes GravityStep of the old one: horizontal part kept, vertical part plus gravity*dt, or zero when grounded; nothing else changes. |
| Locomotion.CharacterLocomotion.OnGroundContactLost | Assets/Plugins/GameCreator/Characters/Mono/Characters/Navigation/CharacterLocomotion.cs:227-256 | Momentum becomes zero and nothing else changes. |
| Locomotion.CharacterLocomotion.OnGroundContactRegained | Assets/Plugins/GameCreator/Characters/Mono/Characters/Navigation/CharacterLocomotion.cs:258-266 | onLand receives the vertical momentum before it is cleared, then momentum becomes zero. |
| Locomotion.CharacterLocomotion.AddMomentum | Assets/Plugins/GameCreator/Characters/Mono/Characters/Navigation/CharacterLocomotion.cs:138-141 | Momentum becomes the old momentum plus exactly the given vector; nothing else changes. |
| Locomotion.CharacterLocomotion.Jump | Assets/Plugins/GameCreator/Characters/Mono/Characters/Navigation/CharacterLocomotion.cs:149-152 | Returns -1 and modifies nothing. |
| Locomotion.CharacterLocomotion.JumpWith | Assets/Plugins/GameCreator/Characters/Mono/Characters/Navigation/CharacterLocomotion.cs:154-178 | Returns -1 and modifies nothing, whatever the force. |
| Locomotion.CharacterLocomotion.ChangeLocomotionSystem | Assets/Plugins/GameCreator/Characters/Mono/Characters/Navigation/CharacterLocomotion.cs:340-347 | Same kind: the same instance, untouched. Otherwise the old instance is torn down exactly once, with its dash state kept. A fresh instance of the requested kind is then installed in its initial state. No orchestrator field changes. |
| Locomotion.CharacterLocomotion.SetDirectionalDirection | Assets/Plugins/GameCreator/Characters/Mono/Characters/Navigation/CharacterLocomotion.cs:283-287 | Directional becomes active, reused if already active, else fresh after one teardown, and holds the given direction. No orchestrator field but the active system changes. |
| Locomotion.CharacterLocomotion.FollowTarget | Assets/Plugins/GameCreator/Characters/Mono/Characters/Navigation/CharacterLocomotion.cs:305-309 | Follow becomes active with the target and band, not yet following, and usingNavmesh is the configured canUseNavigationMesh. An already active Follow instance is reused, else a fresh one replaces the old after one teardown. No orchestrator field but the active system changes. |
| Locomotion.CharacterLocomotion.SetRotation | Assets/Plugins/GameCreator/Characters/Mono/Characters/Navigation/CharacterLocomotion.cs:317-321 | The Rotation system becomes active and holds the given direction, reusing an active Rotation instance or installing a fresh one after one teardown. No orchestrator field but the active system changes. |
| Locomotion.CharacterLocomotion.Dash | Assets/Plugins/GameCreator/Characters/Mono/Characters/Navigation/CharacterLocomotion.cs:143-147 | Directional becomes active with a zero direction, then the dash starts: dashing, with the dash velocity, start time, duration and drag stored. An active Directional instance is reused, else a fresh one after one teardown. No orchestrator field but the active system changes. |
| Locomotion.CharacterLocomotion.SetAnimatorConstraint | Assets/Plugins/GameCreator/Characters/Mono/Characters/Navigation/CharacterLocomotion.cs:190-193 | Stores the constraint; every other field of the orchestrator is unchanged. |
| Locomotion.CharacterLocomotion.ChangeHeight | Assets/Plugins/GameCreator/Characters/Mono/Characters/Navigation/CharacterLocomotion.cs:195-206 | The engine-backed drivers get the new height with the centre (0, v/2, 0) on their own collider; the other component, the body, rotation, slope field and position stay. The base driver changes nothing and keeps reporting height 1. |
| Locomotion.CharacterLocomotion.SetIsControllable | Assets/Plugins/GameCreator/Characters/Mono/Characters/Navigation/CharacterLocomotion.cs:208-215 | The current value: nothing changes and no event fires. A new value is stored and the event carries it. Losing control switches to Directional with a zero direction; gaining it leaves the system alone. No other orchestrator field changes. |
| Locomotion.CharacterLocomotion.GetAimDirection | Assets/Plugins/GameCreator/Characters/Mono/Characters/Navigation/CharacterLocomotion.cs:217-220 | The active system's aim direction. |
| Locomotion.CharacterLocomotion.GetMovementDirection | Assets/Plugins/GameCreator/Characters/Mono/Characters/Navigation/CharacterLocomotion.cs:222-225 | The active system's movement direction. |
| Locomotion.CharacterLocomotion.GetMomentum | Assets/Plugins/GameCreator/Characters/Mono/Characters/Navigation/CharacterLocomotion.cs:276-279 | The accumulated momentum. |
| LocomotionRules.MakeTargetRotation | Assets/Plugins/GameCreator/Characters/Mono/Characters/Navigation/LocomotionSystems/ILocomotionSystem.cs:18-22 | The flag is stored; the rotation is the look rotation when set, the identity otherwise. |
| LocomotionRules.GetFaceDirection | Assets/Plugins/GameCreator/Characters/Mono/Characters/Navigation/LocomotionSystems/ILocomotionSystem.cs:274-286 | Any override other than None wins, together with the override target; otherwise the configured direction and target. |
| LocomotionRules.UpdateRotation | Assets/Plugins/GameCreator/Characters/Mono/Characters/Navigation/LocomotionSystems/ILocomotionSystem.cs:103-196 | Movement direction is forward for a zero direction, else the direction normalised. When the face policy turns this step, the rotation and aim are the turned ones; otherwise the current rotation and the forward axis. |
| LocomotionRules.MovementDirectionIsUnit | Assets/Plugins/GameCreator/Characters/Mono/Characters/Navigation/LocomotionSystems/ILocomotionSystem.cs:107-110 | With a unit forward axis, the stored movement direction has unit length. Or it is zero for a non-zero request too short to normalise. |
| LocomotionRules.SpeedDampening | Assets/Plugins/GameCreator/Characters/Mono/Characters/Navigation/LocomotionSystems/ILocomotionSystem.cs:211-214 | The damping factor is in [0.5, 1] and, for turns up to 90 degrees, equals 1 - angle/180. |
| LocomotionRules.CalculateSpeed | Assets/Plugins/GameCreator/Characters/Mono/Characters/Navigation/LocomotionSystems/ILocomotionSystem.cs:198-218 | Without damping the speed is the base (run speed, halved when running is off). |
| LocomotionRules.CalculateSpeedBounds | Assets/Plugins/GameCreator/Characters/Mono/Characters/Navigation/LocomotionSystems/ILocomotionSystem.cs:198-218 | The speed lies in [base/2, base]; with damping it is base times the damping factor. |
| LocomotionRules.DampeningMonotone | Assets/Plugins/GameCreator/Characters/Mono/Characters/Navigation/LocomotionSystems/ILocomotionSystem.cs:212-213 | A sharper turn never yields a larger damping factor. |
| LocomotionRules.BaseSpeed | Assets/Plugins/GameCreator/Characters/Mono/Characters/Navigation/LocomotionSystems/ILocomotionSystem.cs:200-203 | The run speed when running is allowed, half of it otherwise; never above the run speed nor negative for a non-negative run speed. |
| LocomotionRules.CalculateAccelerationFromSpeed | Assets/Plugins/GameCreator/Characters/Mono/Characters/Navigation/LocomotionSystems/ILocomotionSystem.cs:220-234 | Equal speeds are kept. Below the target the result is min(target, speed + increment). Above it the result is max(0, speed - decrement): never negative, never rising, and exactly speed - decrement while that is not negative. |
| LocomotionRules.RampClimbs | Assets/Plugins/GameCreator/Characters/Mono/Characters/Navigation/LocomotionSystems/ILocomotionSystem.cs:227-230 | From at or below the target, n steps give exactly min(target, speed + n*increment). |
| LocomotionRules.RampDescends | Assets/Plugins/GameCreator/Characters/Mono/Characters/Navigation/LocomotionSystems/ILocomotionSystem.cs:228-231 | Toward a non-negative target, n steps that never pass the target give exactly speed - n*deceleration*dt. |
| LocomotionRules.RampCanUndershoot | Assets/Plugins/GameCreator/Characters/Mono/Characters/Navigation/LocomotionSystems/ILocomotionSystem.cs:231 | A concrete step from 1 toward 0.9 with decrement 0.5 lands at 0.5, below the target. |
| LocomotionRules.UpdateAnimationConstraints | Assets/Plugins/GameCreator/Characters/Mono/Characters/Navigation/LocomotionSystems/ILocomotionSystem.cs:236-251 | KEEP_POSITION: zero direction and current rotation. KEEP_MOVEMENT: only a zero direction is replaced, by forward, and the rotation is kept. No constraint: unchanged. |
| LocomotionRules.ConstraintsIdempotent | Assets/Plugins/GameCreator/Characters/Mono/Characters/Navigation/LocomotionSystems/ILocomotionSystem.cs:236-251 | Applying the constraint twice equals applying it once. |
| LocomotionRules.UpdateSliding | Assets/Plugins/GameCreator/Characters/Mono/Characters/Navigation/LocomotionSystems/ILocomotionSystem.cs:253-272 | Sliding iff grounded and the slope angle exceeds the limit. The slide direction is down reflected off the ground times run speed, and zero when not sliding. |
| LocomotionRules.ReflectOnFlatGround | Assets/Plugins/GameCreator/Characters/Mono/Characters/Navigation/LocomotionSystems/ILocomotionSystem.cs:264-266 | On flat ground the reflected direction is straight up. |
| LocomotionRules.DashVelocity | Assets/Plugins/GameCreator/Characters/Mono/Characters/Navigation/LocomotionSystems/ILocomotionSystem.cs:74-76 | A direction too short to normalise gives a zero dash velocity. |
| LocomotionRules.DashVelocityParallel | Assets/Plugins/GameCreator/Characters/Mono/Characters/Navigation/LocomotionSystems/ILocomotionSystem.cs:74-76 | For a non-degenerate direction the dash velocity is the direction scaled by dashSpeed/magnitude. |
| LocomotionRules.DashVelocityLength | Assets/Plugins/GameCreator/Characters/Mono/Characters/Navigation/LocomotionSystems/ILocomotionSystem.cs:74-76 | For a non-degenerate direction the dash velocity's length is exactly dashSpeed. |
| LocomotionRules.DashDecay | Assets/Plugins/GameCreator/Characters/Mono/Characters/Navigation/LocomotionSystems/ILocomotionSystem.cs:85-88 | The decay step divides by 1 + drag*dt: scaling back by that factor restores the velocity, and it never lengthens it. |
| LocomotionRules.DashTick | Assets/Plugins/GameCreator/Characters/Mono/Characters/Navigation/LocomotionSystems/ILocomotionSystem.cs:81-97 | Start, duration and drag are kept. The update never starts a dash, and changes nothing when not dashing. |
| LocomotionRules.DashTickVelocity | Assets/Plugins/GameCreator/Characters/Mono/Characters/Navigation/LocomotionSystems/ILocomotionSystem.cs:83-94 | While dashing, the velocity is unchanged before start+duration and decayed from then on. The dash continues exactly when the new speed is not below run speed. |
| LocomotionRules.DashEndsBelowRunSpeed | Assets/Plugins/GameCreator/Characters/Mono/Characters/Navigation/LocomotionSystems/ILocomotionSystem.cs:90-93 | For a dash velocity of length m after the step, the dash continues exactly when m is at least run speed. |
| LocomotionRules.DashTickShrinks | Assets/Plugins/GameCreator/Characters/Mono/Characters/Navigation/LocomotionSystems/ILocomotionSystem.cs:85-88 | An update never increases the dash speed. |
| LocomotionRules.DashRunDecays | Assets/Plugins/GameCreator/Characters/Mono/Characters/Navigation/LocomotionSystems/ILocomotionSystem.cs:81-97 | Over any sequence of steps the dash never speeds up, never restarts, is unchanged when not dashing, and keeps its drag. |
| LocomotionRules.FlatOffset | Assets/Plugins/GameCreator/Characters/Mono/Characters/Navigation/LocomotionSystems/LocomotionSystemFollow.cs:95-97 | The steering offset is flat and equals the horizontal part of target minus position. |
| LocomotionRules.FollowStops | Assets/Plugins/GameCreator/Characters/Mono/Characters/Navigation/LocomotionSystems/LocomotionSystemFollow.cs:30-41 | A missing target always stops. While following it stops iff the distance is at most minRadius. While not following it stays stopped iff the distance is at most maxRadius. |
| LocomotionRules.StoppedStaysStopped | Assets/Plugins/GameCreator/Characters/Mono/Characters/Navigation/LocomotionSystems/LocomotionSystemFollow.cs:36-41 | A stopped follower stays stopped through any run of distances within maxRadius. |
| LocomotionRules.FollowingKeepsFollowing | Assets/Plugins/GameCreator/Characters/Mono/Characters/Navigation/LocomotionSystems/LocomotionSystemFollow.cs:36-60 | A moving follower keeps following through any run of distances beyond minRadius. |
| LocomotionRules.FollowBandScenario | Assets/Plugins/GameCreator/Characters/Mono/Characters/Navigation/LocomotionSystems/LocomotionSystemFollow.cs:35-60 | With band [2,5]: starts at 10, keeps going at 4, stops at 2, and does not resume at 4. |
| LocomotionRules.PivotSpeed | Assets/Plugins/GameCreator/Characters/Mono/Characters/Navigation/LocomotionSystems/LocomotionSystemRotation.cs:36-43 | Zero inside the 0.1 dead zone. The right-axis component when ahead. Snapped to +1 or -1, by the sign of that component, when behind. |
| LocomotionRules.PivotInUnitRange | Assets/Plugins/GameCreator/Characters/Mono/Characters/Navigation/LocomotionSystems/LocomotionSystemRotation.cs:36-43 | With a unit right axis and a desired direction no longer than one, the pivot speed is in [-1, 1]. |
| LocomotionSystems.DirectionalSpeed | Assets/Plugins/GameCreator/Characters/Mono/Characters/Navigation/LocomotionSystems/LocomotionSystemDirectional.cs:32-40 | The ramp aims at zero when no direction is requested, at the turn-damped speed otherwise. |
| LocomotionSystems.ReleasedSlowsDown | Assets/Plugins/GameCreator/Characters/Mono/Characters/Navigation/LocomotionSystems/LocomotionSystemDirectional.cs:34-40 | With no direction requested the speed never rises, never goes negative, and a stopped character stays stopped. |
| LocomotionSystems.DirectionalTick | Assets/Plugins/GameCreator/Characters/Mono/Characters/Navigation/LocomotionSystems/LocomotionSystemDirectional.cs:28-58 | The facing comes from the requested direction, or the last movement direction. A dash writes exactly the dash velocity and keeps the rotation. Otherwise sliding writes slide plus momentum, and moving writes the constrained direction times the ramped speed plus momentum. |
| LocomotionSystems.KeepPositionMovesByMomentumOnly | Assets/Plugins/GameCreator/Characters/Mono/Characters/Navigation/LocomotionSystems/LocomotionSystemDirectional.cs:43-49 | Under KEEP_POSITION, not dashing or sliding, the velocity is the momentum alone and the rotation is held. |
| LocomotionSystems.MomentumAddsThrough | Assets/Plugins/GameCreator/Characters/Mono/Characters/Navigation/LocomotionSystems/LocomotionSystemDirectional.cs:49-55 | Extra momentum appears one-for-one in the written velocity unless a dash overrides it. |
| LocomotionSystems.FollowDirectionIsFlat | Assets/Plugins/GameCreator/Characters/Mono/Characters/Navigation/LocomotionSystems/LocomotionSystemFollow.cs:95-97 | Follow's steering direction is flat, of unit length, or zero when the target is directly above or below. |
| LocomotionSystems.FollowTick | Assets/Plugins/GameCreator/Characters/Mono/Characters/Navigation/LocomotionSystems/LocomotionSystemFollow.cs:95-108 | The horizontal velocity is the constrained direction, flattened, times the damped speed. Its vertical component is verticalSpeed, and the rotation is the constrained one. |
| LocomotionSystems.FollowHeadsToTarget | Assets/Plugins/GameCreator/Characters/Mono/Characters/Navigation/LocomotionSystems/LocomotionSystemFollow.cs:95-107 | Without a constraint, the horizontal velocity Follow writes never points away from the target. |
| LocomotionSystems.RotationTick | Assets/Plugins/GameCreator/Characters/Mono/Characters/Navigation/LocomotionSystems/LocomotionSystemRotation.cs:30-48 | The Rotation system writes zero velocity and the face-direction rotation. |
| LocomotionSystems.LocomotionSystem.constructor | Assets/Plugins/GameCreator/Characters/Mono/Characters/Navigation/LocomotionSystems/ILocomotionSystem.cs:46-58 | A fresh system holds the field initialisers: zero directions, not sliding, not dashing with drag 10, no target. |
| LocomotionSystems.LocomotionSystem.Dash | Assets/Plugins/GameCreator/Characters/Mono/Characters/Navigation/LocomotionSystems/ILocomotionSystem.cs:67-77 | The system is dashing with the dash velocity, the start time, duration and drag; nothing else changes. |
| LocomotionSystems.LocomotionSystem.BaseUpdate | Assets/Plugins/GameCreator/Characters/Mono/Characters/Navigation/LocomotionSystems/ILocomotionSystem.cs:81-97 | The dash state advances by DashTick, nothing else changes and the driver back-end is returned. |
| LocomotionSystems.LocomotionSystem.ApplyRotation | Assets/Plugins/GameCreator/Characters/Mono/Characters/Navigation/LocomotionSystems/ILocomotionSystem.cs:103-110 | The aim and movement directions and the returned rotation are UpdateRotation's. |
| LocomotionSystems.LocomotionSystem.ApplySliding | Assets/Plugins/GameCreator/Characters/Mono/Characters/Navigation/LocomotionSystems/ILocomotionSystem.cs:253-272 | The slide fields become UpdateSliding's result for the driver's slope limit. |
| LocomotionSystems.LocomotionSystem.DirectionalUpdate | Assets/Plugins/GameCreator/Characters/Mono/Characters/Navigation/LocomotionSystems/LocomotionSystemDirectional.cs:18-67 | Given that the frame's planarSpeed is the driver's horizontal speed: the dash update, then the driver receives DirectionalTick's velocity and rotation. The slide and face fields are stored, and the driver back-end is returned. |
| LocomotionSystems.LocomotionSystem.DirectionalStep | Assets/Plugins/GameCreator/Characters/Mono/Characters/Navigation/LocomotionSystems/LocomotionSystemDirectional.cs:28-58 | The part after the dash update, ramping from the driver's horizontal speed, with the dash state unchanged. |
| LocomotionSystems.LocomotionSystem.FollowUpdate | Assets/Plugins/GameCreator/Characters/Mono/Characters/Navigation/LocomotionSystems/LocomotionSystemFollow.cs:25-118 | Dash update. isFollowing becomes the negation of the stop rule, and the back-end is the agent iff usingNavmesh. Stopping without navmesh writes up*verticalSpeed; moving without navmesh writes FollowTick's velocity and rotation; with navmesh the driver is untouched. |
| LocomotionSystems.LocomotionSystem.FollowStep | Assets/Plugins/GameCreator/Characters/Mono/Characters/Navigation/LocomotionSystems/LocomotionSystemFollow.cs:29-60 | The part after the dash update, with the dash state unchanged. |
| LocomotionSystems.LocomotionSystem.FollowMove | Assets/Plugins/GameCreator/Characters/Mono/Characters/Navigation/LocomotionSystems/LocomotionSystemFollow.cs:95-108 | The moving branch without navmesh writes FollowTick's velocity and rotation and stores the facing. |
| LocomotionSystems.LocomotionSystem.RotationUpdate | Assets/Plugins/GameCreator/Characters/Mono/Characters/Navigation/LocomotionSystems/LocomotionSystemRotation.cs:20-57 | Dash update, then the rotation from the face policy, zero velocity, and the pivot-speed rule; the driver back-end is returned. |
| LocomotionSystems.LocomotionSystem.RotationStep | Assets/Plugins/GameCreator/Characters/Mono/Characters/Navigation/LocomotionSystems/LocomotionSystemRotation.cs:30-48 | The part after the dash update, with the dash state unchanged. |
| LocomotionSystems.LocomotionSystem.ApplyPivot | Assets/Plugins/GameCreator/Characters/Mono/Characters/Navigation/LocomotionSystems/LocomotionSystemRotation.cs:36-43 | The pivot speed is PivotSpeed of the forward and right components of the desired direction. |
| LocomotionSystems.LocomotionSystem.Update | Assets/Plugins/GameCreator/Characters/Mono/Characters/Navigation/LocomotionSystems/ILocomotionSystem.cs:81-97 | Per variant, that variant's step; for all, the dash advances by DashTick. |
| LocomotionSystems.LocomotionSystem.OnDestroy | Assets/Plugins/GameCreator/Characters/Mono/Characters/Navigation/LocomotionSystems/LocomotionSystemFollow.cs:120-123 | Teardown is counted once and changes no field. |
| LocomotionSystems.LocomotionSystem.SetDirection | Assets/Plugins/GameCreator/Characters/Mono/Characters/Navigation/LocomotionSystems/LocomotionSystemDirectional.cs:76-79 | Stores the direction as given and changes no other field; both Directional and Rotation use it. |
| LocomotionSystems.LocomotionSystem.SetFollow | Assets/Plugins/GameCreator/Characters/Mono/Characters/Navigation/LocomotionSystems/LocomotionSystemFollow.cs:146-153 | Stores target and band, resets isFollowing to false and samples canUseNavigationMesh into usingNavmesh. |
| Drivers.CenterForHeight | Assets/Plugins/GameCreator/Characters/Mono/Characters/Navigation/LocomotionDrivers/LocomotionDriverRigidBody.cs:45 | The collider centre is on the up axis at half the height. |
| Drivers.LocomotionDriver.Setup | Assets/Plugins/GameCreator/Characters/Mono/Characters/Navigation/LocomotionDrivers/LocomotionDriverRigidBody.cs:16-20 | The driver binds the supplied components. |
| Drivers.LocomotionDriver.SetVelocity | Assets/Plugins/GameCreator/Characters/Mono/Characters/Navigation/LocomotionDrivers/LocomotionDriverRigidBody.cs:22-25 | The rigid-body driver stores the velocity and reads it back. The base and controller drivers change nothing, and their reported velocity is unaffected. |
| Drivers.LocomotionDriver.SetCollisionDetection | Assets/Plugins/GameCreator/Characters/Mono/Characters/Navigation/LocomotionDrivers/LocomotionDriverRigidBody.cs:37-40 | Only the collision flag of the driver's own component changes; the base driver changes nothing. |
| Drivers.LocomotionDriver.SetHeight | Assets/Plugins/GameCreator/Characters/Mono/Characters/Navigation/LocomotionDrivers/LocomotionDriverRigidBody.cs:42-46 | The engine-backed drivers report the new height and centre (0, v/2, 0); the base driver changes nothing. |
| Drivers.LocomotionDriver.Move | Assets/Plugins/GameCreator/Characters/Mono/Characters/Navigation/LocomotionDrivers/LocomotionDriverRigidBody.cs:27-30 | The base driver keeps its position. The rigid-body driver is sent to the argument as a target position; the controller driver moves by it as a displacement. No component changes. |
| Drivers.LocomotionDriver.IsGrounded | Assets/Plugins/GameCreator/Characters/Mono/Characters/Navigation/LocomotionDrivers/LocomotionDriverRigidBody.cs:32-35 | Never for the base driver, always for the rigid-body driver, and the controller's flag for the controller driver. |
| Drivers.LocomotionDriver.GetVelocity | Assets/Plugins/GameCreator/Characters/Mono/Characters/Navigation/LocomotionDrivers/LocomotionDriverRigidBody.cs:73-76 | Zero for the base driver, else the engine component's velocity. |
| Drivers.LocomotionDriver.GetSlopeAngleLimit | Assets/Plugins/GameCreator/Characters/Mono/Characters/Navigation/LocomotionDrivers/LocomotionDriverRigidBody.cs:48-51 | 45 for the base and the rigid-body driver, whatever slopeLimit holds; the controller's limit otherwise. |
| Drivers.LocomotionDriver.GetSkinWidth | Assets/Plugins/GameCreator/Characters/Mono/Characters/Navigation/LocomotionDrivers/LocomotionDriverRigidBody.cs:53-56 | 0.5 for the base driver, 0 for the rigid-body driver, the controller's skin width otherwise. |
| Drivers.LocomotionDriver.GetHeight | Assets/Plugins/GameCreator/Characters/Mono/Characters/Navigation/LocomotionDrivers/LocomotionDriverRigidBody.cs:58-61 | 1 for the base driver, else the collider's or controller's height. |
| Drivers.LocomotionDriver.GetCenter | Assets/Plugins/GameCreator/Characters/Mono/Characters/Navigation/LocomotionDrivers/LocomotionDriverRigidBody.cs:63-66 | (0, 1, 0) for the base driver, else the collider's or controller's centre. |
| Drivers.LocomotionDriver.GetRadius | Assets/Plugins/GameCreator/Characters/Mono/Characters/Navigation/LocomotionDrivers/LocomotionDriverRigidBody.cs:68-71 | 0.5 for the base driver, else the collider's or controller's radius. |
| Drivers.GenericQueriesIgnoreState | Assets/Plugins/GameCreator/Characters/Mono/Characters/Navigation/LocomotionDrivers/ILocomotionDriver.cs:15-60 | Every base query gives the same answer in any state, so no setter affects it. |
| TargetCharacters.CacheId | Assets/Plugins/GameCreator/Core/Mono/Utilities/ClassHelpers/TargetCharacter.cs:86-89 | The stored id is 0 iff no character is cached. |
| TargetCharacters.Refresh | Assets/Plugins/GameCreator/Core/Mono/Utilities/ClassHelpers/TargetCharacter.cs:45-92 | After a lookup the cache is coherent: its id is 0 iff the cached character is null, else that character's id. |
| TargetCharacters.FieldTargetUsesFieldOrCache | Assets/Plugins/GameCreator/Core/Mono/Utilities/ClassHelpers/TargetCharacter.cs:57-59 | A set field is the result; an unset field keeps the previous cache. |
| TargetCharacters.PlayerWithoutHookKeepsCache | Assets/Plugins/GameCreator/Core/Mono/Utilities/ClassHelpers/TargetCharacter.cs:49-51 | Without a player hook the cache is unchanged. |
| TargetCharacters.VariableReresolvesOnlyOnNewId | Assets/Plugins/GameCreator/Core/Mono/Utilities/ClassHelpers/TargetCharacter.cs:61-83 | A variable target re-resolves exactly when its object is non-null with a new id; otherwise the cache is unchanged. |
| TargetCharacters.RefreshIsIdempotent | Assets/Plugins/GameCreator/Core/Mono/Utilities/ClassHelpers/TargetCharacter.cs:45-92 | A second lookup in the same scene returns the same cache. |
| TargetCharacters.TargetCharacter.constructor | Assets/Plugins/GameCreator/Core/Mono/Utilities/ClassHelpers/TargetCharacter.cs:38-41 | The selector holds the target with an empty cache. |
| TargetCharacters.TargetCharacter.GetCharacter | Assets/Plugins/GameCreator/Core/Mono/Utilities/ClassHelpers/TargetCharacter.cs:45-92 | The cache becomes Refresh's, the returned character is the cached one, and its id is 0 iff null. |
| TargetCharacters.TargetCharacter.ToString | Assets/Plugins/GameCreator/Core/Mono/Utilities/ClassHelpers/TargetCharacter.cs:96-115 | Player and Invoker have fixed names. The Character target gives its object's name, or "(none)". Variables give their helper's text. |
| TargetGameObjects.GetGameObject | Assets/Plugins/GameCreator/Core/Mono/Utilities/ClassHelpers/TargetGameObject.cs:43-79 | Invoker gives the invoker, the field target gives the field, and Player and Camera give null without their hook. |
| TargetGameObjects.GetTransform | Assets/Plugins/GameCreator/Core/Mono/Utilities/ClassHelpers/TargetGameObject.cs:81-86 | Null exactly when no object resolves. |
| TargetGameObjects.GetComponent | Assets/Plugins/GameCreator/Core/Mono/Utilities/ClassHelpers/TargetGameObject.cs:88-100 | Null when no object resolves, else the engine lookup on the resolved object. |
| TargetGameObjects.GetComponentInChildren | Assets/Plugins/GameCreator/Core/Mono/Utilities/ClassHelpers/TargetGameObject.cs:102-107 | Null when no object resolves, else the hierarchy lookup on that object. |
| TargetGameObjects.GetComponentsInChildren | Assets/Plugins/GameCreator/Core/Mono/Utilities/ClassHelpers/TargetGameObject.cs:109-114 | Empty when no object resolves, else the hierarchy lookup on that object. |
| TargetGameObjects.ToString | Assets/Plugins/GameCreator/Core/Mono/Utilities/ClassHelpers/TargetGameObject.cs:121-147 | "Player", "Invoker", "Camera"; the field's name or "(null)"; the list helper's text. |
| TargetGameObjects.LocalNameReadsBack | Assets/Plugins/GameCreator/Core/Mono/Utilities/ClassHelpers/TargetGameObject.cs:133-135 | A local target prints as local[ + name + ], and the name can be read back from the text. |
| TargetGameObjects.GlobalNameReadsBack | Assets/Plugins/GameCreator/Core/Mono/Utilities/ClassHelpers/TargetGameObject.cs:141-143 | A global target prints as global[ + name + ], and the name can be read back from the text. |
| TargetGameObjects.VariableNamesAreDistinguished | Assets/Plugins/GameCreator/Core/Mono/Utilities/ClassHelpers/TargetGameObject.cs:118-119 | Two local targets print alike iff they name the same variable; a local and a global target never print alike. |
| TriggerAreas.RemoveFirst | Assets/Environment/Blocks/TriggerArea.cs:25 | Removal leaves the list alone when the body is absent, and shortens it by one when present. |
| TriggerAreas.RemoveFirstSplits | Assets/Environment/Blocks/TriggerArea.cs:25 | Removal cuts out exactly the first occurrence: the list before it has no copy, and the rest is kept in order. |
| TriggerAreas.RemoveFirstMultiset | Assets/Environment/Blocks/TriggerArea.cs:21-27 | As a bag, removal takes away exactly one copy of the body. |
| TriggerAreas.EnterThenExitRestoresBag | Assets/Environment/Blocks/TriggerArea.cs:12-27 | Entering then leaving with one body restores the bag. |
| TriggerAreas.EnterThenExitOfNewBody | Assets/Environment/Blocks/TriggerArea.cs:12-27 | For a body not already listed, entering then leaving restores the exact list. |
| TriggerAreas.EnterTwiceListsTwice | Assets/Environment/Blocks/TriggerArea.cs:16 | Entering twice adds two entries. |
| TriggerAreas.TriggerArea.constructor | Assets/Environment/Blocks/TriggerArea.cs:9 | The list starts empty. |
| TriggerAreas.TriggerArea.OnTriggerEnter | Assets/Environment/Blocks/TriggerArea.cs:12-18 | A non-null rigidbody is appended at the end; a null one leaves the list unchanged. |
| TriggerAreas.TriggerArea.OnTriggerExit | Assets/Environment/Blocks/TriggerArea.cs:21-27 | A non-null rigidbody's first listing is removed (one copy fewer in the bag); a null one leaves the list unchanged. |
| CodeTriggers.Step | Assets/GC/CodeTrigger.cs:20-32 | Trigger only arms the latch. Update clears it and counts one execution iff it was armed. |
| CodeTriggers.TriggerIsIdempotent | Assets/GC/CodeTrigger.cs:29-32 | Triggering twice equals triggering once. |
| CodeTriggers.TriggersOnlyLatch | Assets/GC/CodeTrigger.cs:29-32 | Any run of Trigger calls only arms the latch. |
| CodeTriggers.TriggersThenUpdateExecuteOnce | Assets/GC/CodeTrigger.cs:16-32 | From a clear latch, k Triggers then one Update: exactly one execution if k >= 1, none if k = 0, and the latch ends clear. |
| CodeTriggers.AtMostOncePerUpdate | Assets/GC/CodeTrigger.cs:20-27 | Over any run the executions grow by at most one per Update and never decrease. |
| CodeTriggers.CodeTrigger.constructor | Assets/GC/CodeTrigger.cs:16 | The latch starts clear with no executions. |
| CodeTriggers.CodeTrigger.Update | Assets/GC/CodeTrigger.cs:20-27 | The latch state becomes Step's for an Update. |
| CodeTriggers.CodeTrigger.Trigger | Assets/GC/CodeTrigger.cs:29-32 | The latch state becomes Step's for a Trigger. |
| CharacterMount.ActionCharacterMount.constructor | Assets/Plugins/GameCreator/Characters/Actions/ActionCharacterMount.cs:13-16 | The action targets the given selector and starts mounted. |
| CharacterMount.ActionCharacterMount.InstantExecute | Assets/Plugins/GameCreator/Characters/Actions/ActionCharacterMount.cs:18-29 | Always returns true, and the selector's cache is updated by the lookup. No character found: no character or driver changes. Otherwise that character's enabled becomes !mounted, and so does its driver's collision flag (rigid body or controller); a base driver is untouched, and the driver's other fields (the other component, capsule, rotation, slope limit, position) stay. The selector's target, field character, local, global and list names stay. Other characters keep enabled, and drivers other than the found one are untouched. |
| Vectors.SplitsAlongUp | Assets/Plugins/GameCreator/Characters/Mono/Characters/Navigation/CharacterLocomotion.cs:356-357 | Any vector is its horizontal part plus its vertical part. The horizontal part is orthogonal to up, and the vertical part is up scaled by the dot product. |

## Left out

- Quaternion maths: `Quaternion.LookRotation`, `RotateTowards` and `Vector3.Angle` are not computed. Their results come in through the `Frame` (`turned`, `turnAngle`, `slopeAngle`) and `LocomotionRules.MakeTargetRotation`'s look rotation.
- Vector lengths: square roots are not computed. Magnitudes are inputs tied to their vectors by `Vectors.IsMagnitude`. `Normalized` divides by a supplied magnitude.
- The navigation-mesh agent: `GenerateNavmeshAgent` and the agent's own movement, the agent calls in Follow's navmesh branch, and `UpdateNavmeshAnimationConstraints`. Follow's navmesh branch is modelled as leaving the driver untouched and selecting the agent back-end.
- The velocity and speed part of the character-state snapshot: forward/sides/vertical speed, turn speed and the agent's height. Only the flags, the pivot speed and the normal are modelled.
- `SetExtendSensorRange`, `Teleport`, `SetTarget` and `Stop`, and the Target locomotion system they switch to. LocomotionSystemTarget.cs is not part of this model.
- Character.cs is not part of this model: `Character.IsGrounded()` is the frame's `characterGrounded`, and the character's `enabled` and driver are the two fields `CharacterMount.Character` holds.
- The dash impulse: the `Mathf.Log`-based speed is an input (`dashSpeed`), not computed.
- LocomotionSystems.LocomotionSystem.Dash: requires a non-negative drag, so that the decay divides by a positive number; the source does not check this.
- Locomotion.CharacterLocomotion.Dash: requires a non-negative drag, for the same reason.
- Locomotion.CharacterLocomotion.Update: requires a non-negative fixed time step, which the engine guarantees, so that the dash decay divides by a positive number.
- LocomotionSystems.LocomotionSystem.Update: requires a non-negative fixed time step, for the same reason.
- LocomotionSystems.LocomotionSystem.Update: requires the frame's `planarSpeed` to be the length of the driver's horizontal velocity. The source computes that length with a square root; the frame carries it instead.
- LocomotionSystems.LocomotionSystem.DirectionalUpdate: requires the same tie between `planarSpeed` and the driver's velocity, for the same reason.
- LocomotionSystems.LocomotionSystem.DirectionalStep: requires the same tie, for the same reason.
- Locomotion.CharacterLocomotion.Update: requires the same tie, for the same reason.
- Drivers.LocomotionDriver.Move: records the position the engine is asked to reach. The physics engine's collision response and interpolation are not modelled.
- Locomotion.CharacterLocomotion.Update: states the ground machine, gravity, dash, snapshot, back-end and the fields a step keeps. The exact driver velocity and the system's other fields are stated per system by `LocomotionSystems.LocomotionSystem.Update`, not repeated here.
- Unused tuning: `maxFallSpeed`, `MAX_GROUND_VSPEED` and `JUMP_COYOTE_TIME` are read by nothing in the modelled code. `jumpChain` keeps its initial value.
- The jump itself: the body of `Jump(float)` that would add an impulse is commented out in the source and returns -1. The model returns -1 and changes nothing.
- `OnGroundContactLost` computes a direction that is never used. Only its effect, clearing the momentum, is modelled.
- `terrainNormal` is never written by the modelled code; it keeps its initial value, up.
- The `GroundPlaneCursor` face direction when no main camera exists: the source dereferences a null camera there. The model takes `cameraPresent` as given and uses the cursor hit the frame supplies.
- Unity's destroyed-object "fake null": object references are present or absent (`Option`), nothing else.
- Locomotion.CharacterLocomotion.ChangeHeight: only the driver's height is modelled; the navmesh agent's height is left out with the agent.
- Locomotion.CharacterLocomotion.Setup: the driver is passed in after its own `Setup`; the inspector's choice of driver component is not modelled.
- TargetCharacters.TargetCharacter.GetCharacter: requires an invoker for the Invoker target, because the source dereferences it.
- CharacterMount.ActionCharacterMount.InstantExecute: requires an invoker for the Invoker target, for the same reason.
- CharacterMount.ActionCharacterMount.InstantExecute: requires every character a lookup can return to be among the supplied characters, because the scene hands the action character ids and the model needs the objects those ids name in order to write them.
- The variable helpers' own `ToString` and the `GetComponent(Type)` overload's type argument: each is an opaque answer (`VariableRef.display`, a lookup function).
- The variable targets of `TargetCharacter` compare the variable's game-object id with the cached id, and the cached id is that of the game object holding the `Character`. A variable naming a parent of the character therefore re-resolves on every call. The model keeps those ids exactly as the source does.
- The editor-only inspector code, the animator and all rendering.
