/**
 * The engine objects the gravity gun touches, as records in mutable tables:
 * entities, rigid bodies and physics groups, the owner's visibility set (PVS)
 * and a log of the linear impulses applied. Identifiers stand for object
 * references; `None` stands for a null reference.
 */
module Physics {

  type EntityId = nat
  type BodyId = nat
  type GroupId = nat
  type ClientId = nat

  datatype Option<T> = None | Some(value: T)

  datatype Vec3 = Vec3(x: real, y: real, z: real)

  const Origin: Vec3 := Vec3(0.0, 0.0, 0.0)

  /** A rotation as a quaternion (w + xi + yj + zk). */
  datatype Rotation = Rotation(w: real, x: real, y: real, z: real)

  const Identity: Rotation := Rotation(1.0, 0.0, 0.0, 0.0)

  /** The all-zero quaternion, which is the default value of a rotation field. */
  const ZeroRotation: Rotation := Rotation(0.0, 0.0, 0.0, 0.0)

  function Norm2(q: Rotation): (n: real)
  {
    q.w * q.w + q.x * q.x + q.y * q.y + q.z * q.z
  }

  /** The Hamilton product a · b (apply b, then a). */
  function Mul(a: Rotation, b: Rotation): (r: Rotation)
  {
    Rotation(
      a.w * b.w - a.x * b.x - a.y * b.y - a.z * b.z,
      a.w * b.x + a.x * b.w + a.y * b.z - a.z * b.y,
      a.w * b.y - a.x * b.z + a.y * b.w + a.z * b.x,
      a.w * b.z + a.x * b.y - a.y * b.x + a.z * b.w)
  }

  /** The conjugate divided by the squared norm; the zero quaternion has no inverse. */
  function Inverse(q: Rotation): (r: Rotation)
  {
    var n := Norm2(q);
    if n == 0.0 then ZeroRotation
    else Rotation(q.w / n, -q.x / n, -q.y / n, -q.z / n)
  }

  /** Composing a rotation's inverse with the rotation itself gives the identity. */
  lemma InverseCancels(q: Rotation)
    requires Norm2(q) != 0.0
    ensures Mul(Inverse(q), q) == Identity
  {
    var n := Norm2(q);
    var k := 1.0 / n;
    assert n * k == 1.0;
    var i := Inverse(q);
    assert i == Rotation(q.w * k, -q.x * k, -q.y * k, -q.z * k);
    calc {
      Mul(i, q).w;
      (q.w * k) * q.w + (q.x * k) * q.x + (q.y * k) * q.y + (q.z * k) * q.z;
      { assert (q.w * k) * q.w + (q.x * k) * q.x + (q.y * k) * q.y + (q.z * k) * q.z == n * k; }
      1.0;
    }
  }

  datatype Entity = Entity(
    valid: bool,               // not deleted
    isWorld: bool,             // part of the static world
    isModelEntity: bool,       // a ModelEntity (the kind that has tags, physics and collisions)
    group: Option<GroupId>,    // its PhysicsGroup, null when it has none
    physicsBody: Option<BodyId>, // its main PhysicsBody
    physicsEnabled: bool,
    grabbedTag: bool,          // carries the "grabbed" tag, the only tag the gun reads or writes
    enableAllCollisions: bool)

  datatype BodyType = Static | Keyframed | Dynamic

  datatype Body = Body(
    valid: bool,
    group: Option<GroupId>,
    bodyType: BodyType,
    mass: real,
    position: Vec3,
    rotation: Rotation,
    localMassCenter: Vec3,
    sleeping: bool,
    autoSleep: bool)

  /**
   * A linear impulse along the eye direction: the impulse vector is the eye
   * direction times `scale`. A group impulse with `withMass` scales each member's
   * share by that member's mass.
   */
  datatype Impulse =
    | GroupImpulse(group: GroupId, scale: real, withMass: bool)
    | BodyImpulse(body: BodyId, scale: real)
    | BodyImpulseAt(body: BodyId, point: Vec3, scale: real)

  datatype Scene = Scene(
    entities: map<EntityId, Entity>,
    bodies: map<BodyId, Body>,
    groups: map<GroupId, nat>,          // body count of each physics group
    pvs: set<(ClientId, EntityId)>,     // (client, entity): entity is in that client's PVS
    impulses: seq<Impulse>)

  /** Every reference stored in the tables points at an object that exists. */
  predicate WellFormed(sc: Scene)
  {
    && (forall e :: e in sc.entities ==> EntityRefsOk(sc, sc.entities[e]))
    && (forall b :: b in sc.bodies ==> BodyRefsOk(sc, sc.bodies[b]))
  }

  predicate EntityRefsOk(sc: Scene, en: Entity)
  {
    && (en.group.Some? ==> en.group.value in sc.groups)
    && (en.physicsBody.Some? ==> en.physicsBody.value in sc.bodies)
  }

  predicate BodyRefsOk(sc: Scene, bd: Body)
  {
    bd.group.Some? ==> bd.group.value in sc.groups
  }

  /** `body.IsValid()`: not null and not deleted. */
  predicate BodyValid(sc: Scene, b: Option<BodyId>)
  {
    b.Some? && b.value in sc.bodies && sc.bodies[b.value].valid
  }

  /** `entity.IsValid()`: not null and not deleted. */
  predicate EntityValid(sc: Scene, e: Option<EntityId>)
  {
    e.Some? && e.value in sc.entities && sc.entities[e.value].valid
  }
}
