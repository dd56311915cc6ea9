/**
 * The gravity gun's hold state machine and per-tick dispatch, stated as
 * functions from the state before to the state after. A Snapshot pairs the
 * gun's own fields (Session) with the engine tables it touches (Scene).
 */
module GrabSession {
  import opened Physics
  import opened Targeting
  import opened Falloff

  const ThrowForce: real := 2000.0
  const PullForce: real := 20.0
  const AttachDistance: real := 150.0
  const DropCooldown: real := 0.5

  /**
   * The gun's fields. heldPos/heldRot are the body's local mass centre and the
   * rotation offset captured at grab time; holdPos/holdRot the pose the held
   * body is driven towards. The two TimeSince fields are kept as the time of
   * their last reset: dropTime and lastTargetedTime.
   */
  datatype Session = Session(
    heldBody: Option<BodyId>,
    heldPos: Vec3,
    heldRot: Rotation,
    heldEntity: Option<EntityId>,
    holdPos: Vec3,
    holdRot: Rotation,
    dropTime: real,
    lastTargeted: Option<EntityId>,
    lastTargetedTime: real)

  /** Every field at its default value. */
  const InitialSession: Session :=
    Session(None, Origin, ZeroRotation, None, Origin, ZeroRotation, 0.0, None, 0.0)

  datatype Snapshot = Snapshot(session: Session, scene: Scene)

  /** What one tick reads: host flags, the clock, input, aim and the engine's query results. */
  datatype TickInput = TickInput(
    ownerIsPlayer: bool,
    isServer: bool,
    now: real,
    primaryPressed: bool,
    secondaryPressed: bool,
    secondaryDown: bool,
    eyeRotation: Rotation,
    holdTarget: Vec3,          // the hold position GrabMove computes from the eye and the body
    direct: Trace,             // the narrow direct-ray result
    results: Option<seq<Trace>>, // the wide query's results
    attachDistance: real)      // eye to the closest point of the body the pull branch uses

  predicate SameKeys(a: Scene, b: Scene)
  {
    a.entities.Keys == b.entities.Keys && a.bodies.Keys == b.bodies.Keys && a.groups == b.groups
  }

  /** GrabEnd. */
  function EndHold(st: Snapshot, client: Option<ClientId>, now: real): (r: Snapshot)
    ensures SameKeys(st.scene, r.scene) && r.scene.impulses == st.scene.impulses
    ensures WellFormed(st.scene) ==> WellFormed(r.scene)
  {
    var s := st.session;
    var sc := st.scene;
    var bodies :=
      if BodyValid(sc, s.heldBody)
      then sc.bodies[s.heldBody.value := sc.bodies[s.heldBody.value].(autoSleep := true)]
      else sc.bodies;
    var entityValid := EntityValid(sc, s.heldEntity);
    var pvs :=
      if entityValid && client.Some? then sc.pvs - {(client.value, s.heldEntity.value)} else sc.pvs;
    var entities :=
      if entityValid
      then sc.entities[s.heldEntity.value := ReleaseEntity(sc.entities[s.heldEntity.value])]
      else sc.entities;
    var r := Snapshot(
      s.(heldBody := None, heldRot := Identity, dropTime := now,
         heldEntity := if entityValid then None else s.heldEntity),
      sc.(bodies := bodies, entities := entities, pvs := pvs));
    assert WellFormed(st.scene) ==> WellFormed(r.scene) by {
      if WellFormed(st.scene) {
        forall e | e in r.scene.entities ensures EntityRefsOk(r.scene, r.scene.entities[e]) {
          assert EntityRefsOk(st.scene, st.scene.entities[e]);
        }
        forall b | b in r.scene.bodies ensures BodyRefsOk(r.scene, r.scene.bodies[b]) {
          assert BodyRefsOk(st.scene, st.scene.bodies[b]);
        }
      }
    }
    r
  }

  function ReleaseEntity(en: Entity): (r: Entity)
  {
    en.(enableAllCollisions := true, grabbedTag := false)
  }

  function GrabEntity(en: Entity): (r: Entity)
  {
    en.(grabbedTag := true, enableAllCollisions := false)
  }

  /** GrabStart(entity, body, _, grabRot); its grab-position argument is unused by the gun. */
  function StartHold(st: Snapshot, client: Option<ClientId>, entity: EntityId, body: Option<BodyId>,
                     grabRot: Rotation, now: real): (r: Snapshot)
    requires entity in st.scene.entities
    ensures SameKeys(st.scene, r.scene) && r.scene.impulses == st.scene.impulses
    ensures WellFormed(st.scene) ==> WellFormed(r.scene)
  {
    if !BodyValid(st.scene, body) || st.scene.bodies[body.value].group.None? then st
    else Attach(EndHold(st, client, now), client, entity, body.value, grabRot)
  }

  /**
   * The part of GrabStart after its GrabEnd: the body becomes the held body
   * (awake, no auto-sleep), its pose the hold pose and the rotation offset
   * grabRot⁻¹ · rotation; the entity becomes the held entity (tagged, not
   * collidable, in the owner's PVS).
   */
  function Attach(st: Snapshot, client: Option<ClientId>, entity: EntityId, b: BodyId, grabRot: Rotation): (r: Snapshot)
    requires entity in st.scene.entities && b in st.scene.bodies
    ensures SameKeys(st.scene, r.scene) && r.scene.impulses == st.scene.impulses
    ensures WellFormed(st.scene) ==> WellFormed(r.scene)
  {
    var sc := st.scene;
    var bd := sc.bodies[b];
    var r := Snapshot(
      st.session.(
        heldBody := Some(b),
        heldPos := bd.localMassCenter,
        heldRot := Mul(Inverse(grabRot), bd.rotation),
        holdPos := bd.position,
        holdRot := bd.rotation,
        heldEntity := Some(entity)),
      sc.(
        bodies := sc.bodies[b := bd.(sleeping := false, autoSleep := false)],
        entities := sc.entities[entity := GrabEntity(sc.entities[entity])],
        pvs := if client.Some? then sc.pvs + {(client.value, entity)} else sc.pvs));
    assert WellFormed(st.scene) ==> WellFormed(r.scene) by {
      if WellFormed(st.scene) {
        forall e | e in r.scene.entities ensures EntityRefsOk(r.scene, r.scene.entities[e]) {
          assert EntityRefsOk(sc, sc.entities[e]);
        }
        forall x | x in r.scene.bodies ensures BodyRefsOk(r.scene, r.scene.bodies[x]) {
          assert BodyRefsOk(sc, sc.bodies[x]);
        }
      }
    }
    r
  }

  /**
   * GrabMove: nothing when the held body is not valid; otherwise the hold pose
   * becomes the computed hold position and the eye rotation composed with the
   * captured rotation offset. It never changes which body and entity are held,
   * the drop time, the targeting memory or any engine table.
   */
  function MoveHold(st: Snapshot, rot: Rotation, holdTarget: Vec3): (r: Snapshot)
    ensures r.scene == st.scene
    ensures r.session.heldBody == st.session.heldBody && r.session.heldEntity == st.session.heldEntity
    ensures r.session.heldPos == st.session.heldPos && r.session.heldRot == st.session.heldRot
    ensures r.session.dropTime == st.session.dropTime
    ensures r.session.lastTargeted == st.session.lastTargeted
    ensures r.session.lastTargetedTime == st.session.lastTargetedTime
    ensures BodyValid(st.scene, st.session.heldBody) ==>
              r.session.holdPos == holdTarget && r.session.holdRot == Mul(rot, st.session.heldRot)
    ensures !BodyValid(st.scene, st.session.heldBody) ==> r == st
  {
    if !BodyValid(st.scene, st.session.heldBody) then st
    else st.(session := st.session.(holdPos := holdTarget, holdRot := Mul(rot, st.session.heldRot)))
  }

  /** The holding branch of Simulate is taken: a valid held body with a physics group. */
  predicate Holding(st: Snapshot)
  {
    BodyValid(st.scene, st.session.heldBody) && st.scene.bodies[st.session.heldBody.value].group.Some?
  }

  /**
   * The impulse a throw applies: over a multi-body group, a group impulse of
   * half ThrowForce per unit mass; otherwise mass × ThrowForce on the body.
   */
  function ThrowImpulse(sc: Scene, b: BodyId): (r: Impulse)
    requires b in sc.bodies && sc.bodies[b].group.Some? && sc.bodies[b].group.value in sc.groups
    ensures r.GroupImpulse? <==> sc.groups[sc.bodies[b].group.value] > 1
    ensures r.GroupImpulse? ==> r.group == sc.bodies[b].group.value && r.withMass && r.scale * 2.0 == ThrowForce
    ensures !r.GroupImpulse? ==> r == BodyImpulse(b, sc.bodies[b].mass * ThrowForce)
  {
    var g := sc.bodies[b].group.value;
    if sc.groups[g] > 1 then GroupImpulse(g, ThrowForce * 0.5, true)
    else BodyImpulse(b, sc.bodies[b].mass * ThrowForce)
  }

  function AddImpulse(st: Snapshot, i: Impulse): (r: Snapshot)
  {
    st.(scene := st.scene.(impulses := st.scene.impulses + [i]))
  }

  /** The target Simulate would act on. */
  function Target(st: Snapshot, input: TickInput): (r: Option<Trace>)
  {
    SelectTarget(st.scene, st.session.lastTargeted,
                 InWindow(input.now, st.session.lastTargetedTime), input.direct, input.results)
  }

  /** One Simulate call. */
  function Tick(st: Snapshot, client: Option<ClientId>, input: TickInput): (r: Snapshot)
    requires WellFormed(st.scene)
    ensures WellFormed(r.scene)
  {
    var s := st.session;
    var sc := st.scene;
    if !input.ownerIsPlayer || !input.isServer then st
    else if Holding(st) then
      if input.primaryPressed then
        EndHold(AddImpulse(st, ThrowImpulse(sc, s.heldBody.value)), client, input.now)
      else if input.secondaryPressed then EndHold(st, client, input.now)
      else MoveHold(st, input.eyeRotation, input.holdTarget)
    else if input.now - s.dropTime < DropCooldown then st
    else
      match Target(st, input)
      case None => st
      case Some(tr) => ActOn(st, client, input, tr)
  }

  /**
   * The rest of Simulate once a target is found: ignore a body that is not
   * Dynamic; push on a primary press, pull on a held secondary button.
   */
  function ActOn(st: Snapshot, client: Option<ClientId>, input: TickInput, tr: Trace): (r: Snapshot)
    requires WellFormed(st.scene) && Eligible(st.scene, tr)
    ensures WellFormed(r.scene)
  {
    var sc := st.scene;
    var b := tr.body.value;
    var bd := sc.bodies[b];
    if bd.bodyType != Dynamic then st
    else if input.primaryPressed then
      if tr.distance < MaxPushDistance
      then AddImpulse(st, BodyImpulseAt(b, tr.endPosition, PushMagnitude(bd.mass, tr.distance)))
      else st
    else if input.secondaryDown then
      var e := tr.entity.value;
      var en := sc.entities[e];
      assert EntityRefsOk(sc, en);
      var g := en.group.value;
      var multi := sc.groups[g] > 1;
      if multi && !BodyValid(sc, en.physicsBody) then st
      else
        var pulled := if multi then en.physicsBody else tr.body;
        var acted :=
          if input.attachDistance <= AttachDistance
          then StartHold(st, client, e, pulled, input.eyeRotation, input.now)
          else AddImpulse(st, GroupImpulse(g, -PullForce, true));
        acted.(session := acted.session.(lastTargeted := Some(e), lastTargetedTime := input.now))
    else st
  }

  // ---------------------------------------------------------------------------
  // The hold invariant

  /** A valid entity carries the grabbed tag exactly when it is the held entity. */
  predicate TagIffHeld(st: Snapshot)
  {
    forall e :: e in st.scene.entities && st.scene.entities[e].valid ==>
      (st.scene.entities[e].grabbedTag <==> st.session.heldEntity == Some(e))
  }

  /**
   * While held: the entity has collisions off and is in the owner's PVS, the
   * body does not auto-sleep, and a held body always comes with a held entity.
   */
  predicate HeldFlags(st: Snapshot, client: Option<ClientId>)
  {
    var s := st.session;
    var sc := st.scene;
    && (s.heldBody.Some? ==> s.heldEntity.Some?)
    && (EntityValid(sc, s.heldEntity) ==> !sc.entities[s.heldEntity.value].enableAllCollisions)
    && (EntityValid(sc, s.heldEntity) && client.Some? ==> (client.value, s.heldEntity.value) in sc.pvs)
    && (BodyValid(sc, s.heldBody) ==> !sc.bodies[s.heldBody.value].autoSleep)
  }

  predicate HoldInvariant(st: Snapshot, client: Option<ClientId>)
  {
    TagIffHeld(st) && HeldFlags(st, client)
  }

  /** The starting state satisfies the invariant when no valid entity is tagged yet. */
  lemma InitialInvariant(sc: Scene, client: Option<ClientId>)
    requires forall e :: e in sc.entities && sc.entities[e].valid ==> !sc.entities[e].grabbedTag
    ensures HoldInvariant(Snapshot(InitialSession, sc), client)
  {
  }

  /**
   * GrabEnd leaves the gun idle: no held body, a valid held entity released,
   * identity rotation offset, drop time now; the previously held entity and body
   * are untagged, collidable, out of the PVS and auto-sleeping again; and the
   * invariant holds afterwards.
   */
  lemma {:induction false} EndHoldReleases(st: Snapshot, client: Option<ClientId>, now: real)
    requires HoldInvariant(st, client)
    ensures var r := EndHold(st, client, now);
      && r.session.heldBody == None
      && r.session.heldRot == Identity
      && r.session.dropTime == now
      && !EntityValid(r.scene, r.session.heldEntity)
      && HoldInvariant(r, client)
      && (forall e :: e in r.scene.entities && r.scene.entities[e].valid ==> !r.scene.entities[e].grabbedTag)
      && (EntityValid(st.scene, st.session.heldEntity) ==>
            var e := st.session.heldEntity.value;
            && r.scene.entities[e].enableAllCollisions
            && !r.scene.entities[e].grabbedTag
            && (client.Some? ==> (client.value, e) !in r.scene.pvs))
      && (BodyValid(st.scene, st.session.heldBody) ==> r.scene.bodies[st.session.heldBody.value].autoSleep)
  {
    var r := EndHold(st, client, now);
    forall e | e in r.scene.entities && r.scene.entities[e].valid
      ensures !r.scene.entities[e].grabbedTag
    {
      assert st.scene.entities[e].valid;
      if EntityValid(st.scene, st.session.heldEntity) && e == st.session.heldEntity.value {
      } else {
        assert !st.scene.entities[e].grabbedTag;
      }
    }
  }

  /**
   * What GrabEnd leaves alone: the pose fields and targeting memory, every
   * entity and body other than the held ones, and the PVS except the owner's
   * pair with the held entity. The held entity is released and the held body
   * set to auto-sleep, and nothing else about them changes.
   */
  lemma EndHoldFrame(st: Snapshot, client: Option<ClientId>, now: real)
    ensures var r := EndHold(st, client, now);
      && r.session.heldPos == st.session.heldPos
      && r.session.holdPos == st.session.holdPos
      && r.session.holdRot == st.session.holdRot
      && r.session.lastTargeted == st.session.lastTargeted
      && r.session.lastTargetedTime == st.session.lastTargetedTime
      && (forall e :: e in st.scene.entities && Some(e) != st.session.heldEntity ==>
            r.scene.entities[e] == st.scene.entities[e])
      && (forall b :: b in st.scene.bodies && Some(b) != st.session.heldBody ==>
            r.scene.bodies[b] == st.scene.bodies[b])
      && (!EntityValid(st.scene, st.session.heldEntity) ==>
            r.scene.entities == st.scene.entities && r.scene.pvs == st.scene.pvs)
      && (EntityValid(st.scene, st.session.heldEntity) ==>
            var e := st.session.heldEntity.value;
            && r.scene.entities[e] == ReleaseEntity(st.scene.entities[e])
            && r.scene.pvs == (if client.Some? then st.scene.pvs - {(client.value, e)} else st.scene.pvs))
      && (BodyValid(st.scene, st.session.heldBody) ==>
            var b := st.session.heldBody.value;
            r.scene.bodies[b] == st.scene.bodies[b].(autoSleep := true))
      && (!BodyValid(st.scene, st.session.heldBody) ==> r.scene.bodies == st.scene.bodies)
  {
  }

  /**
   * A second GrabEnd changes nothing but the drop time; with the same clock it
   * changes nothing at all.
   */
  lemma EndHoldIdempotent(st: Snapshot, client: Option<ClientId>, t1: real, t2: real)
    ensures var once := EndHold(st, client, t1);
      EndHold(once, client, t2) == once.(session := once.session.(dropTime := t2))
    ensures EndHold(EndHold(st, client, t1), client, t1) == EndHold(st, client, t1)
  {
  }

  /** An invalid body or one without a physics group leaves everything as it was. */
  lemma StartHoldRejects(st: Snapshot, client: Option<ClientId>, entity: EntityId, body: Option<BodyId>,
                         grabRot: Rotation, now: real)
    requires entity in st.scene.entities
    requires !BodyValid(st.scene, body) || st.scene.bodies[body.value].group.None?
    ensures StartHold(st, client, entity, body, grabRot, now) == st
  {
  }

  /**
   * An accepted GrabStart holds the new pair: the entity tagged, in the PVS and
   * not collidable, the body awake without auto-sleep, the hold pose the body's
   * current pose, the offsets captured from the body; the drop time is reset by
   * the GrabEnd it performs first; the invariant is preserved.
   */
  lemma {:induction false} StartHoldHolds(st: Snapshot, client: Option<ClientId>, entity: EntityId,
                                          body: Option<BodyId>, grabRot: Rotation, now: real)
    requires entity in st.scene.entities
    requires BodyValid(st.scene, body) && st.scene.bodies[body.value].group.Some?
    requires HoldInvariant(st, client)
    ensures var r := StartHold(st, client, entity, body, grabRot, now);
      var bd := st.scene.bodies[body.value];
      && r.session.heldBody == body
      && r.session.heldEntity == Some(entity)
      && r.scene.entities[entity].grabbedTag
      && !r.scene.entities[entity].enableAllCollisions
      && (client.Some? ==> (client.value, entity) in r.scene.pvs)
      && !r.scene.bodies[body.value].sleeping
      && !r.scene.bodies[body.value].autoSleep
      && r.session.holdPos == bd.position
      && r.session.holdRot == bd.rotation
      && r.session.heldPos == bd.localMassCenter
      && r.session.heldRot == Mul(Inverse(grabRot), bd.rotation)
      && r.session.dropTime == now
      && HoldInvariant(r, client)
  {
    var ended := EndHold(st, client, now);
    EndHoldReleases(st, client, now);
    var r := StartHold(st, client, entity, body, grabRot, now);
    assert r == Attach(ended, client, entity, body.value, grabRot);
    forall e | e in r.scene.entities && r.scene.entities[e].valid
      ensures r.scene.entities[e].grabbedTag <==> r.session.heldEntity == Some(e)
    {
      if e != entity {
        assert r.scene.entities[e] == ended.scene.entities[e];
        assert ended.scene.entities[e].valid;
      }
    }
  }

  /**
   * What an accepted GrabStart leaves alone: the targeting memory, every entity
   * and body other than the newly and the previously held ones, and every PVS
   * pair other than the owner's pairs with those two entities. The new pair
   * changes only in the flags the grab sets, the old pair only in the flags
   * the release sets.
   */
  lemma {:induction false} StartHoldFrame(st: Snapshot, client: Option<ClientId>, entity: EntityId,
                                          body: Option<BodyId>, grabRot: Rotation, now: real)
    requires entity in st.scene.entities
    requires BodyValid(st.scene, body) && st.scene.bodies[body.value].group.Some?
    ensures var r := StartHold(st, client, entity, body, grabRot, now);
      var old_e := st.session.heldEntity;
      var old_b := st.session.heldBody;
      && r.scene.entities[entity] == GrabEntity(st.scene.entities[entity])
      && r.scene.bodies[body.value] == st.scene.bodies[body.value].(sleeping := false, autoSleep := false)
      && r.session.lastTargeted == st.session.lastTargeted
      && r.session.lastTargetedTime == st.session.lastTargetedTime
      && (forall e :: e in st.scene.entities && e != entity && Some(e) != old_e ==>
            r.scene.entities[e] == st.scene.entities[e])
      && (forall x :: x in st.scene.bodies && x != body.value && Some(x) != old_b ==>
            r.scene.bodies[x] == st.scene.bodies[x])
      && (EntityValid(st.scene, old_e) && old_e != Some(entity) ==>
            r.scene.entities[old_e.value] == ReleaseEntity(st.scene.entities[old_e.value]))
      && (BodyValid(st.scene, old_b) && old_b != body ==>
            r.scene.bodies[old_b.value] == st.scene.bodies[old_b.value].(autoSleep := true))
      && (!EntityValid(st.scene, old_e) && old_e.Some? && old_e.value in st.scene.entities && old_e != Some(entity) ==>
            r.scene.entities[old_e.value] == st.scene.entities[old_e.value])
      && (!BodyValid(st.scene, old_b) && old_b.Some? && old_b.value in st.scene.bodies && old_b != body ==>
            r.scene.bodies[old_b.value] == st.scene.bodies[old_b.value])
      && (client.None? ==> r.scene.pvs == st.scene.pvs)
      && (client.Some? ==>
            forall p :: p != (client.value, entity) && (old_e.None? || p != (client.value, old_e.value)) ==>
              (p in r.scene.pvs <==> p in st.scene.pvs))
  {
    EndHoldFrame(st, client, now);
  }

  /** Grabbing while aiming with the body's own rotation captures a zero rotation offset. */
  lemma AlignedGrabHasIdentityOffset(st: Snapshot, client: Option<ClientId>, entity: EntityId,
                                     body: Option<BodyId>, now: real)
    requires entity in st.scene.entities
    requires BodyValid(st.scene, body) && st.scene.bodies[body.value].group.Some?
    requires Norm2(st.scene.bodies[body.value].rotation) != 0.0
    ensures StartHold(st, client, entity, body, st.scene.bodies[body.value].rotation, now).session.heldRot == Identity
  {
    InverseCancels(st.scene.bodies[body.value].rotation);
  }

  /**
   * GrabStart on y while x is held leaves exactly y held: x is untagged,
   * collidable again and out of the owner's PVS, and x's body (when it is not
   * y's) auto-sleeps again.
   */
  lemma {:induction false} GrabReleasesPrevious(st: Snapshot, client: Option<ClientId>,
                                                y: EntityId, bodyY: BodyId, ry: Rotation, now: real)
    requires HoldInvariant(st, client)
    requires EntityValid(st.scene, st.session.heldEntity) && st.session.heldEntity != Some(y)
    requires y in st.scene.entities
    requires BodyValid(st.scene, Some(bodyY)) && st.scene.bodies[bodyY].group.Some?
    ensures var x := st.session.heldEntity.value;
      var r := StartHold(st, client, y, Some(bodyY), ry, now);
      && r.session.heldEntity == Some(y)
      && r.session.heldBody == Some(bodyY)
      && HoldInvariant(r, client)
      && !r.scene.entities[x].grabbedTag
      && r.scene.entities[x].enableAllCollisions
      && (client.Some? ==> (client.value, x) !in r.scene.pvs)
    ensures var bx := st.session.heldBody;
      BodyValid(st.scene, bx) && bx != Some(bodyY) ==>
        StartHold(st, client, y, Some(bodyY), ry, now).scene.bodies[bx.value].autoSleep
  {
    var x := st.session.heldEntity.value;
    var ended := EndHold(st, client, now);
    EndHoldReleases(st, client, now);
    StartHoldHolds(st, client, y, Some(bodyY), ry, now);
    var r := StartHold(st, client, y, Some(bodyY), ry, now);
    assert r == Attach(ended, client, y, bodyY, ry);
    assert r.scene.entities[x] == ended.scene.entities[x];
  }

  /**
   * GrabStart on x and then on y (both accepted) leaves exactly y held; x ends
   * untagged, collidable again and out of the owner's PVS; x's body, when it is
   * not y's, auto-sleeps again; the invariant holds after each call.
   */
  lemma {:induction false} SecondGrabReleasesFirst(
    st: Snapshot, client: Option<ClientId>,
    x: EntityId, bodyX: BodyId, rx: Rotation, t1: real,
    y: EntityId, bodyY: BodyId, ry: Rotation, t2: real)
    requires HoldInvariant(st, client)
    requires x in st.scene.entities && st.scene.entities[x].valid
    requires y in st.scene.entities && x != y
    requires BodyValid(st.scene, Some(bodyX)) && st.scene.bodies[bodyX].group.Some?
    requires BodyValid(st.scene, Some(bodyY)) && st.scene.bodies[bodyY].group.Some?
    ensures var first := StartHold(st, client, x, Some(bodyX), rx, t1);
      var second := StartHold(first, client, y, Some(bodyY), ry, t2);
      && HoldInvariant(first, client)
      && HoldInvariant(second, client)
      && first.session.heldEntity == Some(x)
      && second.session.heldEntity == Some(y)
      && second.session.heldBody == Some(bodyY)
      && !second.scene.entities[x].grabbedTag
      && second.scene.entities[x].enableAllCollisions
      && (client.Some? ==> (client.value, x) !in second.scene.pvs)
      && (bodyX != bodyY ==> second.scene.bodies[bodyX].autoSleep)
  {
    var first := StartHold(st, client, x, Some(bodyX), rx, t1);
    StartHoldHolds(st, client, x, Some(bodyX), rx, t1);
    assert BodyValid(first.scene, Some(bodyY)) && first.scene.bodies[bodyY].group.Some?;
    GrabReleasesPrevious(first, client, y, bodyY, ry, t2);
  }

  /** The held entity is never an eligible target, so no gun picks it up twice. */
  lemma HeldEntityNotEligible(st: Snapshot, client: Option<ClientId>, t: Trace)
    requires HoldInvariant(st, client)
    requires t.entity.Some? && st.session.heldEntity == t.entity
    ensures !Eligible(st.scene, t)
  {
  }

  // ---------------------------------------------------------------------------
  // Simulate

  /**
   * While holding, a primary press throws and a secondary press releases; both
   * end idle with the drop time reset. A throw logs one impulse: half ThrowForce
   * per unit mass over a multi-body group, else mass × ThrowForce on the body.
   */
  lemma ThrowOrReleaseEndsIdle(st: Snapshot, client: Option<ClientId>, input: TickInput)
    requires WellFormed(st.scene)
    requires input.ownerIsPlayer && input.isServer && Holding(st)
    requires input.primaryPressed || input.secondaryPressed
    requires HoldInvariant(st, client)
    ensures var r := Tick(st, client, input);
      && r.session.heldBody == None
      && !EntityValid(r.scene, r.session.heldEntity)
      && r.session.dropTime == input.now
      && HoldInvariant(r, client)
    ensures var r := Tick(st, client, input);
      var b := st.session.heldBody.value;
      var g := st.scene.bodies[b].group.value;
      if input.primaryPressed then
        r.scene.impulses == st.scene.impulses +
          [if st.scene.groups[g] > 1 then GroupImpulse(g, ThrowForce * 0.5, true)
           else BodyImpulse(b, st.scene.bodies[b].mass * ThrowForce)]
      else r.scene.impulses == st.scene.impulses
  {
    var sc := st.scene;
    assert BodyRefsOk(sc, sc.bodies[st.session.heldBody.value]);
    if input.primaryPressed {
      var thrown := AddImpulse(st, ThrowImpulse(sc, st.session.heldBody.value));
      assert HoldInvariant(thrown, client);
      EndHoldReleases(thrown, client, input.now);
    } else {
      EndHoldReleases(st, client, input.now);
    }
  }

  /** Per unit mass, a multi-body throw is exactly half as strong as a single-body one. */
  lemma GroupThrowIsHalf(sc: Scene, single: BodyId, multi: BodyId)
    requires single in sc.bodies && sc.bodies[single].group.Some? && sc.bodies[single].group.value in sc.groups
    requires multi in sc.bodies && sc.bodies[multi].group.Some? && sc.bodies[multi].group.value in sc.groups
    requires sc.groups[sc.bodies[single].group.value] <= 1 && sc.groups[sc.bodies[multi].group.value] > 1
    ensures ThrowImpulse(sc, multi).GroupImpulse? && ThrowImpulse(sc, multi).withMass
    ensures ThrowImpulse(sc, single) == BodyImpulse(single, sc.bodies[single].mass * ThrowForce)
    ensures ThrowImpulse(sc, multi).scale * 2.0 == ThrowForce
  {
  }

  /** While idle, nothing at all happens during the drop cooldown. */
  lemma CooldownBlocks(st: Snapshot, client: Option<ClientId>, input: TickInput)
    requires WellFormed(st.scene)
    requires !Holding(st)
    requires input.now - st.session.dropTime < DropCooldown
    ensures Tick(st, client, input) == st
  {
  }

  /** While idle, a target whose body is not Dynamic is left alone. */
  lemma NonDynamicIgnored(st: Snapshot, client: Option<ClientId>, input: TickInput)
    requires WellFormed(st.scene)
    requires !Holding(st)
    requires Target(st, input).Some?
    requires st.scene.bodies[Target(st, input).value.body.value].bodyType != Dynamic
    ensures Tick(st, client, input) == st
  {
  }

  /**
   * A primary press while idle pushes a Dynamic target only from closer than
   * MaxPushDistance, with the falloff magnitude, and changes nothing else.
   */
  lemma PushOnlyInRange(st: Snapshot, client: Option<ClientId>, input: TickInput)
    requires WellFormed(st.scene)
    requires input.ownerIsPlayer && input.isServer && !Holding(st)
    requires input.now - st.session.dropTime >= DropCooldown
    requires input.primaryPressed
    requires Target(st, input).Some?
    ensures var tr := Target(st, input).value;
      var bd := st.scene.bodies[tr.body.value];
      Tick(st, client, input) ==
        if bd.bodyType == Dynamic && tr.distance < MaxPushDistance
        then AddImpulse(st, BodyImpulseAt(tr.body.value, tr.endPosition, PushMagnitude(bd.mass, tr.distance)))
        else st
  {
  }

  /**
   * When the pull branch runs to its end it records the target's entity as the
   * last targeted one with time now, whether it grabbed or tugged; when the
   * multi-body entity's own body is invalid it returns without recording.
   */
  lemma PullRecordsTarget(st: Snapshot, client: Option<ClientId>, input: TickInput)
    requires WellFormed(st.scene)
    requires input.ownerIsPlayer && input.isServer && !Holding(st)
    requires input.now - st.session.dropTime >= DropCooldown
    requires !input.primaryPressed && input.secondaryDown
    requires Target(st, input).Some?
    requires st.scene.bodies[Target(st, input).value.body.value].bodyType == Dynamic
    ensures var tr := Target(st, input).value;
      var en := st.scene.entities[tr.entity.value];
      var r := Tick(st, client, input);
      var bailed := st.scene.groups[en.group.value] > 1 && !BodyValid(st.scene, en.physicsBody);
      && (bailed ==> r == st)
      && (!bailed ==> r.session.lastTargeted == tr.entity && r.session.lastTargetedTime == input.now)
  {
    var tr := Target(st, input).value;
    assert EntityRefsOk(st.scene, st.scene.entities[tr.entity.value]);
  }

  /**
   * When the pull branch runs to its end, it grabs the pulled body (the
   * entity's own body for a multi-body entity, the hit body otherwise) within
   * AttachDistance, and beyond it tugs the entity's group towards the eye with
   * a −PullForce impulse; either way the target is then recorded.
   */
  lemma PullGrabsOrTugs(st: Snapshot, client: Option<ClientId>, input: TickInput)
    requires WellFormed(st.scene)
    requires input.ownerIsPlayer && input.isServer && !Holding(st)
    requires input.now - st.session.dropTime >= DropCooldown
    requires !input.primaryPressed && input.secondaryDown
    requires Target(st, input).Some?
    requires st.scene.bodies[Target(st, input).value.body.value].bodyType == Dynamic
    ensures var tr := Target(st, input).value;
      var e := tr.entity.value;
      var en := st.scene.entities[e];
      var g := en.group.value;
      var multi := st.scene.groups[g] > 1;
      var r := Tick(st, client, input);
      !(multi && !BodyValid(st.scene, en.physicsBody)) ==>
        var pulled := if multi then en.physicsBody else tr.body;
        && (input.attachDistance <= AttachDistance ==>
              var grabbed := StartHold(st, client, e, pulled, input.eyeRotation, input.now);
              r == grabbed.(session := grabbed.session.(lastTargeted := Some(e), lastTargetedTime := input.now)))
        && (input.attachDistance > AttachDistance ==>
              var tugged := AddImpulse(st, GroupImpulse(g, -PullForce, true));
              r == tugged.(session := tugged.session.(lastTargeted := Some(e), lastTargetedTime := input.now)))
  {
    var tr := Target(st, input).value;
    assert EntityRefsOk(st.scene, st.scene.entities[tr.entity.value]);
  }

  /** A holding tick with neither button pressed is exactly GrabMove. */
  lemma HoldingMoves(st: Snapshot, client: Option<ClientId>, input: TickInput)
    requires WellFormed(st.scene)
    requires input.ownerIsPlayer && input.isServer && Holding(st)
    requires !input.primaryPressed && !input.secondaryPressed
    ensures Tick(st, client, input) == MoveHold(st, input.eyeRotation, input.holdTarget)
  {
  }

  /** Every tick preserves the hold invariant. */
  lemma {:induction false} TickPreservesInvariant(st: Snapshot, client: Option<ClientId>, input: TickInput)
    requires WellFormed(st.scene)
    requires HoldInvariant(st, client)
    ensures HoldInvariant(Tick(st, client, input), client)
  {
    var s := st.session;
    var sc := st.scene;
    if !input.ownerIsPlayer || !input.isServer {
    } else if Holding(st) {
      if input.primaryPressed || input.secondaryPressed {
        ThrowOrReleaseEndsIdle(st, client, input);
      }
    } else if input.now - s.dropTime < DropCooldown {
    } else if Target(st, input).Some? {
      var tr := Target(st, input).value;
      var bd := sc.bodies[tr.body.value];
      if bd.bodyType == Dynamic && !input.primaryPressed && input.secondaryDown {
        var e := tr.entity.value;
        var en := sc.entities[e];
        assert EntityRefsOk(sc, en);
        var multi := sc.groups[en.group.value] > 1;
        if !(multi && !BodyValid(sc, en.physicsBody)) {
          var pulled := if multi then en.physicsBody else tr.body;
          if input.attachDistance <= AttachDistance {
            if BodyValid(sc, pulled) && sc.bodies[pulled.value].group.Some? {
              StartHoldHolds(st, client, e, pulled, input.eyeRotation, input.now);
            }
          }
        }
      }
    }
  }
}
