/**
  The locomotion drivers: the physics back-ends a character moves through.

  ILocomotionDriver is an abstract component whose virtual members return
  fixed shape values and ignore every write. Two subclasses are modelled:
  LocomotionDriverRigidBody (a Rigidbody and a CapsuleCollider) and
  LocomotionDriverUnityController (a CharacterController). A third kind,
  Generic, is a subclass that overrides nothing and so shows the base
  class's own behaviour.

  The engine components are value records held in fields of the driver;
  the setters reassign them, the queries read them back.
*/
module Drivers {
  import opened Vectors

  datatype DriverKind = Generic | RigidBody | UnityController

  /** The Rigidbody fields the rigid-body driver touches. */
  datatype Body = Body(velocity: Vec3, detectCollisions: bool)

  /** The CapsuleCollider fields the rigid-body driver touches. */
  datatype Capsule = Capsule(height: real, center: Vec3, radius: real)

  /** The CharacterController fields the controller driver touches. The
      grounded flag and the velocity are written by the engine only. */
  datatype Controller = Controller(
    isGrounded: bool,
    detectCollisions: bool,
    height: real,
    center: Vec3,
    radius: real,
    slopeLimit: real,
    skinWidth: real,
    velocity: Vec3)

  // Shape values of the base class.
  const BaseSlopeAngleLimit: real := 45.0
  const BaseSkinWidth: real := 0.5
  const BaseHeight: real := 1.0
  const BaseCenter: Vec3 := Vec3(0.0, 1.0, 0.0)
  const BaseRadius: real := 0.5

  /** The fixed slope limit the rigid-body driver reports. */
  const RigidBodySlopeAngleLimit: real := 45.0

  /** The collider centre both engine-backed drivers set for a height. */
  function CenterForHeight(height: real): (c: Vec3)
    ensures c.x == 0.0 && c.z == 0.0 && c.y * 2.0 == height
  {
    Scale(Up, height / 2.0)
  }

  class LocomotionDriver {
    const kind: DriverKind
    /** Rigid-body driver: `rb`. */
    var rb: Body
    /** Rigid-body driver: `cd`. */
    var cd: Capsule
    /** Rigid-body driver: the inspector field `slopeLimit`, which no member reads. */
    var slopeLimit: real
    /** Controller driver: `characterController`. */
    var cc: Controller
    /** The driver's `transform.rotation`, which the locomotion systems write. */
    var rotation: Rotation
    /** The position `Move` asks the engine to bring the character to. */
    var position: Vec3

    /** `Setup(character)`: bind the driver to the character's components. */
    constructor Setup(kind: DriverKind, rb: Body, cd: Capsule, cc: Controller, rotation: Rotation, position: Vec3)
      ensures this.kind == kind && this.rb == rb && this.cd == cd && this.cc == cc
      ensures this.rotation == rotation && this.position == position && slopeLimit == 45.0
    {
      this.kind := kind;
      this.rb := rb;
      this.cd := cd;
      this.cc := cc;
      this.rotation := rotation;
      this.position := position;
      slopeLimit := 45.0;
    }

    /** The base class never reports contact, the rigid-body driver always
        does, and the controller driver reports the controller's flag. */
    function IsGrounded(): (g: bool)
      reads this
      ensures kind == Generic ==> !g
      ensures kind == RigidBody ==> g
      ensures kind == UnityController ==> g == cc.isGrounded
    {
      match kind
      case Generic => false
      case RigidBody => true
      case UnityController => cc.isGrounded
    }

    /** Zero for the base class, else the engine component's velocity. */
    function GetVelocity(): (v: Vec3)
      reads this
      ensures kind == Generic ==> v == Zero
      ensures kind == RigidBody ==> v == rb.velocity
      ensures kind == UnityController ==> v == cc.velocity
    {
      match kind
      case Generic => Zero
      case RigidBody => rb.velocity
      case UnityController => cc.velocity
    }

    /** 45 degrees for the base class and for the rigid-body driver, whatever
        its `slopeLimit` field holds; the controller's own limit otherwise. */
    function GetSlopeAngleLimit(): (a: real)
      reads this
      ensures kind != UnityController ==> a == 45.0
      ensures kind == UnityController ==> a == cc.slopeLimit
    {
      match kind
      case Generic => BaseSlopeAngleLimit
      case RigidBody => RigidBodySlopeAngleLimit
      case UnityController => cc.slopeLimit
    }

    function GetSkinWidth(): (w: real)
      reads this
      ensures kind == Generic ==> w == 0.5
      ensures kind == RigidBody ==> w == 0.0
      ensures kind == UnityController ==> w == cc.skinWidth
    {
      match kind
      case Generic => BaseSkinWidth
      case RigidBody => 0.0
      case UnityController => cc.skinWidth
    }

    function GetHeight(): (h: real)
      reads this
      ensures kind == Generic ==> h == 1.0
      ensures kind == RigidBody ==> h == cd.height
      ensures kind == UnityController ==> h == cc.height
    {
      match kind
      case Generic => BaseHeight
      case RigidBody => cd.height
      case UnityController => cc.height
    }

    function GetCenter(): (c: Vec3)
      reads this
      ensures kind == Generic ==> c == Vec3(0.0, 1.0, 0.0)
      ensures kind == RigidBody ==> c == cd.center
      ensures kind == UnityController ==> c == cc.center
    {
      match kind
      case Generic => BaseCenter
      case RigidBody => cd.center
      case UnityController => cc.center
    }

    function GetRadius(): (r: real)
      reads this
      ensures kind == Generic ==> r == 0.5
      ensures kind == RigidBody ==> r == cd.radius
      ensures kind == UnityController ==> r == cc.radius
    {
      match kind
      case Generic => BaseRadius
      case RigidBody => cd.radius
      case UnityController => cc.radius
    }

    /** Only the rigid-body driver overrides `SetVelocity`; the controller
        driver inherits the base no-op. */
    method SetVelocity(v: Vec3)
      modifies this
      ensures kind == RigidBody ==> rb == old(rb).(velocity := v)
      ensures kind != RigidBody ==> rb == old(rb)
      ensures cd == old(cd) && cc == old(cc) && rotation == old(rotation)
      ensures slopeLimit == old(slopeLimit) && position == old(position)
      ensures kind == RigidBody ==> GetVelocity() == v
      ensures kind != RigidBody ==> GetVelocity() == old(GetVelocity())
    {
      if kind == RigidBody {
        rb := rb.(velocity := v);
      }
    }

    method SetCollisionDetection(isEnabled: bool)
      modifies this
      ensures kind == RigidBody ==> rb == old(rb).(detectCollisions := isEnabled) && cc == old(cc)
      ensures kind == UnityController ==> cc == old(cc).(detectCollisions := isEnabled) && rb == old(rb)
      ensures kind == Generic ==> unchanged(this)
      ensures cd == old(cd) && rotation == old(rotation) && slopeLimit == old(slopeLimit)
      ensures position == old(position)
    {
      match kind
      case Generic =>
      case RigidBody => rb := rb.(detectCollisions := isEnabled);
      case UnityController => cc := cc.(detectCollisions := isEnabled);
    }

    method SetHeight(value: real)
      modifies this
      ensures kind == RigidBody ==> cd == old(cd).(height := value, center := CenterForHeight(value)) && cc == old(cc)
      ensures kind == UnityController ==> cc == old(cc).(height := value, center := CenterForHeight(value)) && cd == old(cd)
      ensures kind == Generic ==> cd == old(cd) && cc == old(cc)
      ensures rb == old(rb) && rotation == old(rotation) && slopeLimit == old(slopeLimit)
      ensures position == old(position)
      ensures kind != Generic ==> GetHeight() == value && GetCenter() == Vec3(0.0, value / 2.0, 0.0)
    {
      match kind
      case Generic =>
      case RigidBody => cd := cd.(height := value, center := CenterForHeight(value));
      case UnityController => cc := cc.(height := value, center := CenterForHeight(value));
    }

    /** `Move(deltas)`. The base class ignores it. The rigid-body driver hands
        it to Rigidbody.MovePosition, which takes a target position, so the
        argument is where the body is sent. The controller driver hands it to
        CharacterController.Move, which takes a displacement. */
    method Move(deltas: Vec3)
      modifies this
      ensures kind == Generic ==> position == old(position)
      ensures kind == RigidBody ==> position == deltas
      ensures kind == UnityController ==> position == Add(old(position), deltas)
      ensures rb == old(rb) && cd == old(cd) && cc == old(cc)
      ensures rotation == old(rotation) && slopeLimit == old(slopeLimit)
    {
      match kind
      case Generic =>
      case RigidBody => position := deltas;
      case UnityController => position := Add(position, deltas);
    }
  }

  /** The driver's velocity was requested to be `velocity` (kept only by the
      rigid-body driver) and nothing else of it changed. */
  twostate predicate WroteVelocity(d: LocomotionDriver, velocity: Vec3)
    reads d
  {
    && d.rb == (if d.kind == RigidBody then old(d.rb).(velocity := velocity) else old(d.rb))
    && d.cd == old(d.cd) && d.cc == old(d.cc) && d.slopeLimit == old(d.slopeLimit)
    && d.position == old(d.position)
  }

  /** A base-class query gives the same answer whatever state the driver is
      in, so no earlier setter call can have changed it. */
  lemma GenericQueriesIgnoreState(a: LocomotionDriver, b: LocomotionDriver)
    requires a.kind == Generic && b.kind == Generic
    ensures a.IsGrounded() == b.IsGrounded() && a.GetVelocity() == b.GetVelocity()
    ensures a.GetSlopeAngleLimit() == b.GetSlopeAngleLimit() && a.GetSkinWidth() == b.GetSkinWidth()
    ensures a.GetHeight() == b.GetHeight() && a.GetCenter() == b.GetCenter() && a.GetRadius() == b.GetRadius()
  {
  }
}
