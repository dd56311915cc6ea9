# Gravity gun controller

A Dafny model of the gravity gun in `code/Weapons/GravityGun.cs`, the
carriable tool that picks up, carries, throws, pushes and pulls physics props.

The model has five modules:

- **Physics** holds the engine records the gun reads and writes:
  - entities, with validity, the world flag, the model-entity flag, the physics group, the main body, physics-enabled, the `grabbed` tag and `EnableAllCollisions`;
  - rigid bodies, with validity, group, body type, mass, pose, local mass centre, `Sleeping` and `AutoSleep`;
  - physics groups, with their body counts;
  - the owner's PVS, as a set of (client, entity) pairs;
  - a log of the linear impulses applied.

  Ids stand for object references, and `None` stands for null. Physics also has quaternion rotations, with the Hamilton product and the inverse.
- **Targeting** models `CanTraceResultEntityBeGravityGunned` as the predicate `Eligible`, and the selection rule of `TryGetGravityGunTarget` as the function `SelectTarget`:
  - the direct-ray fast path inside the 0.3 s priority window;
  - the strict-`<` scan for the result closest to the aim line;
  - the override that stops the scan at the last targeted entity.
- **Falloff** is the push falloff `1 − clamp(distance / MaxPushDistance, 0, 1)` and the push magnitude.
- **GrabSession** holds the gun's fields as a value (`Session`) and pairs them with the engine tables (`Snapshot`). It describes `GrabEnd`, `GrabStart`, `GrabMove` and one `Simulate` tick as functions from the state before to the state after. It also states the hold invariant (a valid entity carries the `grabbed` tag exactly when it is the held entity, the held entity is not collidable and sits in the owner's PVS, the held body does not auto-sleep) and proves the properties of those functions.
- **Controller** is the imperative model:
  - a `World` class, whose fields are the engine tables;
  - a `GravityGun` class, whose fields are the gun's fields.

  Each state-changing method of `GravityGun` updates those fields in the order of the C# code, and each is proved to produce exactly the state the matching GrabSession function gives. The entry points `GrabEnd`, `Deactivate`, `GrabStart`, `GrabMove` and `Simulate` also keep the hold invariant. The two statement blocks split out of them, `AttachHeld` and `ActOnTarget`, are proved equal to `Attach` and `ActOn` only; the invariant is re-established by the method that calls them. `TryGetGravityGunTarget` keeps the C# `foreach` loop as a `while` loop with its early exits. It changes nothing and is proved to return what `SelectTarget` selects. `IsUsable` is a function of the current fields.

How the model treats a few things:

- **Time.** The two `TimeSince` fields become stored timestamps (`dropTime`, `lastTargetedTime`), initially 0. Every operation that reads the clock takes `now` as a parameter. `TimeSince < x` becomes `now - stamp < x`.
- **Floats.** Floating-point values are exact reals.
- **Engine results as inputs.** These engine results are inputs of a tick (`TickInput`):
  - the results of the two ray queries;
  - each result's distance to the aim line (`Line.Distance`);
  - the eye-to-attach-point distance (`FindClosestPoint`);
  - the hold position that `GrabMove` computes.
- **Host flags.** `Owner is Player` and `IsServer` become flags of the tick input.
- **The owner's client** is a constant of the gun.

Notes on the code's behaviour:

- `CanTraceResultEntityBeGravityGunned` rejects every entity that carries the `grabbed` tag, including the one this gun holds (code/Weapons/GravityGun.cs:232-233).
- `GrabEnd` is not a no-op while idle: it always resets the drop timer, and it sets the rotation offset to the identity (code/Weapons/GravityGun.cs:335, 348).
- `GrabStart` always performs a full `GrabEnd` first, not only when another body is held (code/Weapons/GravityGun.cs:313).
- `GrabEnd` clears `HeldEntity` only when the entity is still valid (code/Weapons/GravityGun.cs:354-356).
- The half-strength throw of a multi-body group is applied with `withMass: true`, so it is half the single-body impulse per unit of mass (code/Weapons/GravityGun.cs:69, 74).
- The re-grab cooldown is enforced by `Simulate` alone (code/Weapons/GravityGun.cs:92-93). `GrabStart` itself has no gate.

## Model

| member | source | states |
|---|---|---|
| Targeting.Eligible | code/Weapons/GravityGun.cs:220-239 | definition: a hit with a valid body and a valid entity that is not the world, has a physics group, is a valid model entity, is not tagged as grabbed and has physics enabled |
| Targeting.SelectTarget | code/Weapons/GravityGun.cs:141-218 | the chosen result is always eligible, and it is either the direct-ray result or one of the wide query's results. Inside the window an eligible direct result is returned as is; outside it the target, if any, is one of the wide query's results |
| Targeting.DirectIgnoredOutsideWindow | code/Weapons/GravityGun.cs:147-162 | outside the priority window the direct-ray result has no effect on the target |
| Targeting.Closest | code/Weapons/GravityGun.cs:182-204 | the index the strict-`<` scan keeps is eligible and scores below float.MaxValue. It is strictly closer to the aim line than every earlier eligible result and no farther than every later one. There is no index only when no eligible result scores below float.MaxValue |
| Targeting.FirstPriority | code/Weapons/GravityGun.cs:208-213 | the index returned is an eligible result of the last targeted entity, and no earlier result is one |
| Targeting.ClosestStep | code/Weapons/GravityGun.cs:197-203 | one step of the scan moves the kept index to the new result exactly when that result is eligible and strictly closer than the kept one |
| Targeting.FirstPriorityAt | code/Weapons/GravityGun.cs:208-213 | the scan's first priority hit is the one FirstPriority selects |
| Targeting.ClosestUnique | code/Weapons/GravityGun.cs:197-203 | the argmin with earliest-on-ties is unique: any index that meets it is the scan's |
| Targeting.ArgminSelection | code/Weapons/GravityGun.cs:175-217 | without the fast path or a priority hit, the target is exactly the eligible result of minimal aim-line distance, the earliest of equals. There is a target if and only if some eligible result scores below float.MaxValue |
| Targeting.PriorityOverride | code/Weapons/GravityGun.cs:143-213 | inside the window, with no eligible direct result, an eligible result of the last targeted entity wins whatever the other distances are: the first such result is returned |
| Targeting.NothingEligible | code/Weapons/GravityGun.cs:220-239 | when neither the direct result nor any wide result is eligible, there is no target |
| Falloff.Clamp | code/Weapons/GravityGun.cs:110 | Math.Clamp: the result lies in [lo, hi]. It is the value itself when that is in range, lo below the range and hi above it |
| Falloff.PushScale | code/Weapons/GravityGun.cs:110 | the falloff lies in [0, 1]. It is positive below MaxPushDistance, 1 at distance 0 or less, and 0 from MaxPushDistance on |
| Falloff.PushMagnitude | code/Weapons/GravityGun.cs:110-111 | definition: mass · (PushForce · falloff); its properties are stated by PushBounds, PushIsLinear, PushHalfAtHalfDistance and PushMonotone |
| Falloff.PushBounds | code/Weapons/GravityGun.cs:110-111 | a body of non-negative mass is pushed by between 0 and mass · PushForce; one of positive mass inside MaxPushDistance is pushed by a positive amount; from MaxPushDistance on the push is 0 |
| Falloff.PushIsLinear | code/Weapons/GravityGun.cs:108-111 | inside the push range the magnitude is mass · PushForce · (1 − distance / MaxPushDistance) |
| Falloff.PushHalfAtHalfDistance | code/Weapons/GravityGun.cs:110-111 | at half the maximum distance the push is exactly half the push at distance 0, which is mass · PushForce |
| Falloff.PushMonotone | code/Weapons/GravityGun.cs:110-111 | a farther body of the same non-negative mass is never pushed harder |
| Physics.InverseCancels | code/Weapons/GravityGun.cs:317 | for a non-zero quaternion, the inverse composed with the quaternion itself is the identity |
| GrabSession.EndHold | code/Weapons/GravityGun.cs:333-357 | GrabEnd keeps the table keys, the group counts and the impulse log, and it keeps every reference well-formed |
| GrabSession.StartHold | code/Weapons/GravityGun.cs:305-331 | GrabStart keeps the table keys, the group counts and the impulse log, and it keeps every reference well-formed |
| GrabSession.Attach | code/Weapons/GravityGun.cs:315-330 | the statements after GrabStart's GrabEnd keep the table keys, the group counts and the impulse log, and they keep the tables well-formed |
| GrabSession.Tick | code/Weapons/GravityGun.cs:49-139 | a Simulate tick keeps every reference of the engine tables well-formed |
| GrabSession.ActOn | code/Weapons/GravityGun.cs:99-137 | acting on a found target keeps the engine tables well-formed |
| GrabSession.InitialInvariant | code/Weapons/GravityGun.cs:10-15 | a new gun (all fields at their defaults) satisfies the hold invariant in a world where no valid entity is tagged |
| GrabSession.EndHoldReleases | code/Weapons/GravityGun.cs:333-357 | after GrabEnd: no held body, identity rotation offset, drop time now, no valid held entity, and no valid entity tagged. The previous entity is untagged, collidable and out of the PVS, and the previous body auto-sleeps again. The invariant holds |
| GrabSession.EndHoldFrame | code/Weapons/GravityGun.cs:333-357 | GrabEnd changes only the held pair: every other entity and body keeps its record, and the PVS loses at most the owner's pair with the held entity. The held entity changes only in its collision flag and tag, the held body only in auto-sleep. The held position, hold pose and targeting memory are kept |
| GrabSession.EndHoldIdempotent | code/Weapons/GravityGun.cs:333-357 | a second GrabEnd changes nothing but the drop time, and with the same clock it changes nothing |
| GrabSession.StartHoldRejects | code/Weapons/GravityGun.cs:307-311 | with an invalid body or a body without a physics group, GrabStart leaves the whole state unchanged, so GrabEnd is not run |
| GrabSession.StartHoldHolds | code/Weapons/GravityGun.cs:305-331 | an accepted GrabStart holds the new pair. The entity is tagged, not collidable and in the PVS. The body is awake with auto-sleep off. The hold pose is the body's pose, the offsets are captured from the body, the drop time is now, and the invariant holds |
| GrabSession.StartHoldFrame | code/Weapons/GravityGun.cs:305-331 | an accepted GrabStart changes only the old and the new held pair: every other entity and body keeps its record, and every PVS pair other than the owner's pairs with those two entities is kept. The new entity changes only in the flags the grab sets, the new body only in sleeping and auto-sleep, a valid old entity only in the flags the release sets, a valid old body only in auto-sleep, and an invalid old entity or body not at all. The targeting memory is kept |
| GrabSession.AlignedGrabHasIdentityOffset | code/Weapons/GravityGun.cs:317 | grabbing with the body's own rotation captures the identity rotation offset |
| GrabSession.GrabReleasesPrevious | code/Weapons/GravityGun.cs:313 | GrabStart on y while x is held leaves exactly y held. x is untagged, collidable and out of the PVS, and x's body auto-sleeps when it is not y's |
| GrabSession.SecondGrabReleasesFirst | code/Weapons/GravityGun.cs:305-357 | after GrabStart on x and then on y, exactly y is held and x is fully released; the invariant holds after each call |
| GrabSession.HeldEntityNotEligible | code/Weapons/GravityGun.cs:232-233 | under the invariant, the held entity is never an eligible target |
| GrabSession.MoveHold | code/Weapons/GravityGun.cs:359-369 | GrabMove never changes the held body, the held entity, the captured offsets, the drop time, the targeting memory or the engine tables. It does nothing without a valid held body, and otherwise sets the hold pose to the computed position and eye rotation · offset |
| GrabSession.Holding | code/Weapons/GravityGun.cs:62 | definition: the holding branch of Simulate is taken when the held body is valid and has a physics group |
| GrabSession.ThrowImpulse | code/Weapons/GravityGun.cs:66-76 | the throw is a group impulse exactly when the held body's group has more than one body; that impulse is on the body's own group, with mass, at half ThrowForce. Otherwise it is mass · ThrowForce on the body |
| GrabSession.ThrowOrReleaseEndsIdle | code/Weapons/GravityGun.cs:62-85 | while holding, a primary or secondary press ends idle with the drop time reset and the invariant kept. A throw logs exactly one impulse, ThrowForce · 0.5 with mass on a multi-body group or mass · ThrowForce on the body. A release logs none |
| GrabSession.GroupThrowIsHalf | code/Weapons/GravityGun.cs:66-77 | per unit mass, the multi-body throw is exactly half the single-body throw |
| GrabSession.CooldownBlocks | code/Weapons/GravityGun.cs:92-93 | while idle, nothing changes during the drop cooldown |
| GrabSession.NonDynamicIgnored | code/Weapons/GravityGun.cs:103-104 | a target whose body is not Dynamic is left alone |
| GrabSession.PushOnlyInRange | code/Weapons/GravityGun.cs:106-112 | a primary press while idle pushes a Dynamic target if and only if it is closer than MaxPushDistance, at the falloff magnitude and at the hit point, and it changes nothing else |
| GrabSession.PullRecordsTarget | code/Weapons/GravityGun.cs:114-137 | the pull branch records the target entity and the time whether it grabbed or tugged, and it returns without any change when a multi-body entity's own body is invalid |
| GrabSession.PullGrabsOrTugs | code/Weapons/GravityGun.cs:114-137 | when the pull branch runs to its end, within AttachDistance the tick is GrabStart on the pulled body (the entity's own body for a multi-body entity, the hit body otherwise), and beyond it a −PullForce group impulse with mass; either way followed by recording the target |
| GrabSession.HoldingMoves | code/Weapons/GravityGun.cs:62-88 | a holding tick with neither button pressed is exactly GrabMove |
| GrabSession.TickPreservesInvariant | code/Weapons/GravityGun.cs:49-139 | every tick keeps the hold invariant |
| Controller.GravityGun.constructor | code/Weapons/GravityGun.cs:10-35 | a new gun has every field at its default and satisfies the invariant |
| Controller.GravityGun.GrabEnd | code/Weapons/GravityGun.cs:333-357 | the new fields and tables are exactly EndHold of the old ones, the invariant is kept, and an owned gun is no longer usable (IsUsable is false) |
| Controller.GravityGun.Deactivate | code/Weapons/GravityGun.cs:245-248 | Deactivate has exactly GrabEnd's effect, so an owned gun is no longer usable afterwards |
| Controller.GravityGun.GrabStart | code/Weapons/GravityGun.cs:305-331 | the new state is exactly StartHold of the old one, and the invariant is kept. When the body was valid and had a physics group, an owned gun is usable afterwards (IsUsable is true) |
| Controller.GravityGun.AttachHeld | code/Weapons/GravityGun.cs:315-330 | the statements after GrabStart's GrabEnd produce exactly Attach of the state they start from |
| Controller.GravityGun.GrabMove | code/Weapons/GravityGun.cs:359-369 | the new state is exactly MoveHold of the old one, and the invariant is kept |
| Controller.GravityGun.TryGetGravityGunTarget | code/Weapons/GravityGun.cs:141-218 | the loop with its early exits finds a target exactly when SelectTarget does, and returns that result (the default result when there is none) |
| Controller.GravityGun.Simulate | code/Weapons/GravityGun.cs:49-98 | the new state is exactly Tick of the old one, and the invariant is kept |
| Controller.GravityGun.ActOnTarget | code/Weapons/GravityGun.cs:99-137 | acting on the found target produces exactly ActOn of the old state |
| Controller.GravityGun.IsUsable | code/Weapons/GravityGun.cs:371-374 | definition: usable when unowned or while the held body is valid; its consequences are stated on GrabEnd, Deactivate and GrabStart |

## Left out

- `OnPrePhysicsStep` (code/Weapons/GravityGun.cs:284-303) is not modelled. It drives the held body with the engine's `SmoothDamp` on floats.
- `GrabMove` receives the hold position as an input. Its vector arithmetic (lines 364-367) and `FindClosestPoint`/`MassCenter` are engine geometry. Only its guard and `HoldRot = rot * HeldRot` are modelled.
- The ray queries `Trace.Ray(...).Run()`/`RunAll()` and `Line.Distance` are inputs: a direct result, an optional sequence of wide results, and a precomputed distance to the aim line per result.
- The random angular impulses of the throw (lines 70, 75) are not modelled. The impulse log records the linear impulses only, as a scale of the eye direction.
- `Prediction.Off`, `Spawn`, `SetModel` and `ViewModelPath` are host plumbing. `Owner is Player` and `IsServer` are flags of the tick input.
- `ActiveStart`, `ActiveEnd` and `OnDestroy` are not modelled. On the server, `ActiveEnd` and `OnDestroy` only call `Deactivate`, which is modelled. `ActiveStart` only calls `Activate`, which is empty. `OnCarryDrop` is empty.
- `heldEntityInitialCollisionGroup`, `LinearFrequency`, `LinearDampingRatio`, `AngularFrequency`, `AngularDampingRatio`, `BreakLinearForce`, `HoldDistance`, `PullRadius` and `MaxPullDistance` only feed the engine calls above, or are unused.
- GrabStart's `grabPos` argument is unused by the code, so it is not modelled.
- The owner's client is a constant of the gun. A change of owner between calls is not modelled.
- The engine's handling of a zero quaternion in `Rotation.Inverse` is not known here. The model maps it to the zero quaternion.
- `TagIffHeld` assumes this gun is the only one tagging entities. Other guns holding props are not modelled.
- Floats are exact reals. Rounding and single-precision overflow are not modelled.
- code/CommonEntities.cs, code/Microgames/BreakCrates.cs and code/Microgames/Magdump.cs are not part of this model. They are asset loading and microgame glue over engine events.
