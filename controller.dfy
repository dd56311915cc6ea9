/**
 * The gravity gun as an object: its fields are updated in place by GrabStart,
 * GrabEnd, GrabMove and Simulate, which also update the engine's tables. Each
 * state-changing method is proved to produce exactly the state the matching
 * GrabSession function describes; the entry points GrabEnd, Deactivate,
 * GrabStart, GrabMove and Simulate also keep the hold invariant, while the
 * blocks split out of them (AttachHeld, ActOnTarget) rely on their caller to
 * re-establish it. TryGetGravityGunTarget changes nothing and is proved to
 * return what Targeting.SelectTarget selects.
 */
module Controller {
  import opened Physics
  import opened Targeting
  import opened Falloff
  import opened GrabSession

  /** The engine's entity, body and group tables, the PVS and the impulse log. */
  class World {
    var entities: map<EntityId, Entity>
    var bodies: map<BodyId, Body>
    var groups: map<GroupId, nat>
    var pvs: set<(ClientId, EntityId)>
    var impulses: seq<Impulse>

    function Tables(): Scene
      reads this
    {
      Scene(entities, bodies, groups, pvs, impulses)
    }

    constructor (sc: Scene)
      ensures Tables() == sc
    {
      entities, bodies, groups, pvs, impulses := sc.entities, sc.bodies, sc.groups, sc.pvs, sc.impulses;
    }

    /** body.AutoSleep = on */
    method SetAutoSleep(b: BodyId, on: bool)
      requires b in bodies
      modifies this
      ensures bodies == old(bodies)[b := old(bodies)[b].(autoSleep := on)]
      ensures entities == old(entities) && groups == old(groups) && pvs == old(pvs) && impulses == old(impulses)
    {
      bodies := bodies[b := bodies[b].(autoSleep := on)];
    }

    /** body.Sleeping = on */
    method SetSleeping(b: BodyId, on: bool)
      requires b in bodies
      modifies this
      ensures bodies == old(bodies)[b := old(bodies)[b].(sleeping := on)]
      ensures entities == old(entities) && groups == old(groups) && pvs == old(pvs) && impulses == old(impulses)
    {
      bodies := bodies[b := bodies[b].(sleeping := on)];
    }

    /** entity.EnableAllCollisions = on */
    method SetCollisions(e: EntityId, on: bool)
      requires e in entities
      modifies this
      ensures entities == old(entities)[e := old(entities)[e].(enableAllCollisions := on)]
      ensures bodies == old(bodies) && groups == old(groups) && pvs == old(pvs) && impulses == old(impulses)
    {
      entities := entities[e := entities[e].(enableAllCollisions := on)];
    }

    /** entity.Tags.Add("grabbed") when on, entity.Tags.Remove("grabbed") otherwise */
    method SetGrabbedTag(e: EntityId, on: bool)
      requires e in entities
      modifies this
      ensures entities == old(entities)[e := old(entities)[e].(grabbedTag := on)]
      ensures bodies == old(bodies) && groups == old(groups) && pvs == old(pvs) && impulses == old(impulses)
    {
      entities := entities[e := entities[e].(grabbedTag := on)];
    }

    /** client.Pvs.Add(entity) */
    method PvsAdd(c: ClientId, e: EntityId)
      modifies this
      ensures pvs == old(pvs) + {(c, e)}
      ensures entities == old(entities) && bodies == old(bodies) && groups == old(groups) && impulses == old(impulses)
    {
      pvs := pvs + {(c, e)};
    }

    /** client.Pvs.Remove(entity) */
    method PvsRemove(c: ClientId, e: EntityId)
      modifies this
      ensures pvs == old(pvs) - {(c, e)}
      ensures entities == old(entities) && bodies == old(bodies) && groups == old(groups) && impulses == old(impulses)
    {
      pvs := pvs - {(c, e)};
    }

    method ApplyImpulse(i: Impulse)
      modifies this
      ensures impulses == old(impulses) + [i]
      ensures entities == old(entities) && bodies == old(bodies) && groups == old(groups) && pvs == old(pvs)
    {
      impulses := impulses + [i];
    }
  }

  /** Setting the two flags one after the other is ReleaseEntity. */
  lemma ReleaseInTwoSteps(m: map<EntityId, Entity>, e: EntityId)
    requires e in m
    ensures var m1 := m[e := m[e].(enableAllCollisions := true)];
      m1[e := m1[e].(grabbedTag := false)] == m[e := ReleaseEntity(m[e])]
  {
  }

  /** Setting the two flags one after the other is GrabEntity. */
  lemma GrabInTwoSteps(m: map<EntityId, Entity>, e: EntityId)
    requires e in m
    ensures var m1 := m[e := m[e].(grabbedTag := true)];
      m1[e := m1[e].(enableAllCollisions := false)] == m[e := GrabEntity(m[e])]
  {
  }

  /** Waking a body and then turning its auto-sleep off. */
  lemma WakeInTwoSteps(m: map<BodyId, Body>, b: BodyId)
    requires b in m
    ensures var m1 := m[b := m[b].(sleeping := false)];
      m1[b := m1[b].(autoSleep := false)] == m[b := m[b].(sleeping := false, autoSleep := false)]
  {
  }

  class GravityGun {
    const world: World
    /** The owner's client, whose PVS holds the held entity; None when there is none. */
    const client: Option<ClientId>

    var heldBody: Option<BodyId>
    var heldPos: Vec3
    var heldRot: Rotation
    var heldEntity: Option<EntityId>
    var holdPos: Vec3
    var holdRot: Rotation
    var dropTime: real
    var lastTargetedEntity: Option<EntityId>
    var lastTargetedTime: real

    function Current(): Snapshot
      reads this, world
    {
      Snapshot(
        Session(heldBody, heldPos, heldRot, heldEntity, holdPos, holdRot,
                dropTime, lastTargetedEntity, lastTargetedTime),
        world.Tables())
    }

    ghost predicate Valid()
      reads this, world
    {
      WellFormed(world.Tables()) && HoldInvariant(Current(), client)
    }

    /** A new gun, idle, in a world where nothing is grabbed yet. */
    constructor (world: World, client: Option<ClientId>)
      requires WellFormed(world.Tables())
      requires forall e :: e in world.entities && world.entities[e].valid ==> !world.entities[e].grabbedTag
      ensures this.world == world && this.client == client
      ensures Current() == Snapshot(InitialSession, world.Tables())
      ensures Valid()
    {
      this.world := world;
      this.client := client;
      heldBody, heldPos, heldRot, heldEntity := None, Origin, ZeroRotation, None;
      holdPos, holdRot := Origin, ZeroRotation;
      dropTime, lastTargetedEntity, lastTargetedTime := 0.0, None, 0.0;
      new;
      InitialInvariant(world.Tables(), client);
    }

    method GrabEnd(now: real)
      requires Valid()
      modifies this, world
      ensures Valid()
      ensures Current() == EndHold(old(Current()), client, now)
      ensures !IsUsable(true)
    {
      ghost var st0 := Current();
      ghost var r := EndHold(st0, client, now);
      EndHoldReleases(st0, client, now);
      var bodyValid := BodyValid(world.Tables(), heldBody);
      var entityValid := EntityValid(world.Tables(), heldEntity);
      dropTime := now;
      if bodyValid {
        world.SetAutoSleep(heldBody.value, true);
      }
      if entityValid && client.Some? {
        world.PvsRemove(client.value, heldEntity.value);
      }
      heldBody := None;
      heldRot := Identity;
      if entityValid {
        var e := heldEntity.value;
        ghost var ents := world.entities;
        world.SetCollisions(e, true);
        world.SetGrabbedTag(e, false);
        ReleaseInTwoSteps(ents, e);
        heldEntity := None;
      }
      assert world.entities == r.scene.entities;
      assert world.bodies == r.scene.bodies;
      assert world.pvs == r.scene.pvs;
    }

    /** Deactivate ends any hold. */
    method Deactivate(now: real)
      requires Valid()
      modifies this, world
      ensures Valid()
      ensures Current() == EndHold(old(Current()), client, now)
      ensures !IsUsable(true)
    {
      GrabEnd(now);
    }

    method GrabStart(entity: EntityId, body: Option<BodyId>, grabRot: Rotation, now: real)
      requires Valid()
      requires entity in world.entities
      modifies this, world
      ensures Valid()
      ensures Current() == StartHold(old(Current()), client, entity, body, grabRot, now)
      ensures BodyValid(old(world.Tables()), body) && old(world.bodies)[body.value].group.Some? ==> IsUsable(true)
    {
      ghost var st0 := Current();
      if !BodyValid(world.Tables(), body) {
        return;
      }
      if world.bodies[body.value].group.None? {
        return;
      }
      StartHoldHolds(st0, client, entity, body, grabRot, now);
      GrabEnd(now);
      AttachHeld(entity, body.value, grabRot);
    }

    /** The statements of GrabStart that follow its GrabEnd. */
    method AttachHeld(entity: EntityId, b: BodyId, grabRot: Rotation)
      requires entity in world.entities && b in world.bodies
      modifies this, world
      ensures Current() == Attach(old(Current()), client, entity, b, grabRot)
    {
      ghost var r := Attach(Current(), client, entity, b, grabRot);
      heldBody := Some(b);
      heldPos := world.bodies[b].localMassCenter;
      heldRot := Mul(Inverse(grabRot), world.bodies[b].rotation);
      holdPos := world.bodies[b].position;
      holdRot := world.bodies[b].rotation;
      ghost var bds := world.bodies;
      world.SetSleeping(b, false);
      world.SetAutoSleep(b, false);
      WakeInTwoSteps(bds, b);
      heldEntity := Some(entity);
      ghost var ents := world.entities;
      world.SetGrabbedTag(entity, true);
      world.SetCollisions(entity, false);
      GrabInTwoSteps(ents, entity);
      if client.Some? {
        world.PvsAdd(client.value, entity);
      }
      assert world.entities == r.scene.entities;
      assert world.bodies == r.scene.bodies;
      assert world.pvs == r.scene.pvs;
    }

    /** Only the guard and the rotation of GrabMove; holdTarget is the engine's hold position. */
    method GrabMove(rot: Rotation, holdTarget: Vec3)
      requires Valid()
      modifies this
      ensures Valid()
      ensures Current() == MoveHold(old(Current()), rot, holdTarget)
    {
      if !BodyValid(world.Tables(), heldBody) {
        return;
      }
      holdPos := holdTarget;
      holdRot := Mul(rot, heldRot);
    }

    /**
     * TryGetGravityGunTarget: the direct fast path inside the priority window,
     * then one scan over the wide query's results keeping the closest eligible
     * result to the aim line and stopping at the last targeted entity.
     */
    method TryGetGravityGunTarget(now: real, direct: Trace, results: Option<seq<Trace>>)
      returns (found: bool, target: Trace)
      ensures var r := SelectTarget(world.Tables(), lastTargetedEntity, InWindow(now, lastTargetedTime), direct, results);
        found == r.Some? && target == (if found then r.value else NoTrace)
    {
      var sc := world.Tables();
      var inWindow := now - lastTargetedTime < PriorityCutoff;
      if inWindow && Eligible(sc, direct) {
        return true, direct;
      }
      if results.None? {
        return false, NoTrace;
      }
      var s := results.value;
      var closestResultToTargetLine := FloatMax;
      found := false;
      var tr := NoTrace;
      var i := 0;
      while i < |s|
        invariant 0 <= i <= |s|
        invariant found == Closest(sc, s[..i]).Some?
        invariant found ==> tr == s[Closest(sc, s[..i]).value] && closestResultToTargetLine == tr.lineDistance
        invariant !found ==> tr == NoTrace && closestResultToTargetLine == FloatMax
        invariant inWindow ==> forall j :: 0 <= j < i ==> !IsPriority(sc, s[j], lastTargetedEntity)
      {
        var result := s[i];
        ClosestStep(sc, s, i);
        if !Eligible(sc, result) {
          i := i + 1;
          continue;
        }
        if result.lineDistance < closestResultToTargetLine {
          tr := result;
          closestResultToTargetLine := result.lineDistance;
          found := true;
        }
        if result.entity == lastTargetedEntity && inWindow {
          tr := result;
          found := true;
          FirstPriorityAt(sc, s, lastTargetedEntity, i);
          break;
        }
        i := i + 1;
      }
      assert i == |s| ==> s[..i] == s;
      target := tr;
    }

    /** One update tick. */
    method Simulate(input: TickInput)
      requires Valid()
      modifies this, world
      ensures Valid()
      ensures Current() == Tick(old(Current()), client, input)
    {
      ghost var st0 := Current();
      TickPreservesInvariant(st0, client, input);
      if !input.ownerIsPlayer || !input.isServer {
        return;
      }
      if BodyValid(world.Tables(), heldBody) && world.bodies[heldBody.value].group.Some? {
        if input.primaryPressed {
          var b := heldBody.value;
          var g := world.bodies[b].group.value;
          assert BodyRefsOk(world.Tables(), world.bodies[b]);
          ghost var thrown := AddImpulse(st0, ThrowImpulse(st0.scene, b));
          assert Tick(st0, client, input) == EndHold(thrown, client, input.now);
          if world.groups[g] > 1 {
            world.ApplyImpulse(GroupImpulse(g, ThrowForce * 0.5, true));
          } else {
            world.ApplyImpulse(BodyImpulse(b, world.bodies[b].mass * ThrowForce));
          }
          assert Current() == thrown;
          GrabEnd(input.now);
        } else if input.secondaryPressed {
          GrabEnd(input.now);
        } else {
          GrabMove(input.eyeRotation, input.holdTarget);
        }
        return;
      }
      if input.now - dropTime < DropCooldown {
        return;
      }
      var found, tr := TryGetGravityGunTarget(input.now, input.direct, input.results);
      if !found {
        return;
      }
      assert Target(st0, input) == Some(tr);
      ActOnTarget(input, tr);
    }

    /** Simulate after TryGetGravityGunTarget found tr: push or pull it. */
    method ActOnTarget(input: TickInput, tr: Trace)
      requires Valid() && Eligible(world.Tables(), tr)
      modifies this, world
      ensures Current() == ActOn(old(Current()), client, input, tr)
    {
      ghost var st0 := Current();
      var body := tr.body;
      var modelEnt := tr.entity.value;
      if world.bodies[body.value].bodyType != Dynamic {
        return;
      }
      if input.primaryPressed {
        if tr.distance < MaxPushDistance {
          var pushScale := PushScale(tr.distance);
          var push := BodyImpulseAt(body.value, tr.endPosition, world.bodies[body.value].mass * (PushForce * pushScale));
          assert push == BodyImpulseAt(body.value, tr.endPosition, PushMagnitude(world.bodies[body.value].mass, tr.distance));
          world.ApplyImpulse(push);
        }
      } else if input.secondaryDown {
        assert EntityRefsOk(world.Tables(), world.entities[modelEnt]);
        var physicsGroup := world.entities[modelEnt].group.value;
        if world.groups[physicsGroup] > 1 {
          body := world.entities[modelEnt].physicsBody;
          if !BodyValid(world.Tables(), body) {
            return;
          }
        }
        ghost var acted :=
          if input.attachDistance <= AttachDistance
          then StartHold(st0, client, modelEnt, body, input.eyeRotation, input.now)
          else AddImpulse(st0, GroupImpulse(physicsGroup, -PullForce, true));
        if input.attachDistance <= AttachDistance {
          GrabStart(modelEnt, body, input.eyeRotation, input.now);
        } else {
          world.ApplyImpulse(GroupImpulse(physicsGroup, -PullForce, true));
        }
        assert Current() == acted;
        lastTargetedEntity := tr.entity;
        lastTargetedTime := input.now;
      }
    }

    /** IsUsable: usable when unowned or while a valid body is held. */
    function IsUsable(hasOwner: bool): (r: bool)
      reads this, world
    {
      !hasOwner || BodyValid(world.Tables(), heldBody)
    }
  }
}
