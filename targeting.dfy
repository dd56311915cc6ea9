/**
 * Target selection: which trace result the gravity gun acts on. A result must
 * pass the eligibility filter; among eligible results of the wide query the
 * one closest to the aim line wins (the earliest on ties), unless the entity
 * targeted within the last PriorityCutoff seconds is among them, which wins
 * outright. Inside that window an eligible direct-ray result is taken before
 * any scan.
 */
module Targeting {
  import opened Physics

  /** Seconds during which the last targeted entity keeps priority. */
  const PriorityCutoff: real := 0.3

  /** float.MaxValue, the starting value of the closest-distance accumulator. */
  const FloatMax: real := 340282346638528859811704183484516925440.0

  /**
   * One result of a ray query. `distance` is the distance along the ray to the
   * hit; `lineDistance` is the distance from the hit entity's position to the
   * aim line, which the engine computes for the results the scan scores.
   */
  datatype Trace = Trace(
    hit: bool,
    body: Option<BodyId>,
    entity: Option<EntityId>,
    distance: real,
    endPosition: Vec3,
    lineDistance: real)

  /** The default trace result: no hit, no body, no entity. */
  const NoTrace: Trace := Trace(false, None, None, 0.0, Origin, 0.0)

  /**
   * Whether the gun may act on the result: it hit; its body and entity are
   * valid; the entity is not the world, has a physics group, is a valid model
   * entity, is not tagged as grabbed (by any gun) and has physics enabled.
   */
  predicate Eligible(sc: Scene, t: Trace)
  {
    && t.hit
    && BodyValid(sc, t.body)
    && EntityValid(sc, t.entity)
    && var en := sc.entities[t.entity.value];
    && !en.isWorld
    && en.group.Some?
    && en.isModelEntity
    && !en.grabbedTag
    && en.physicsEnabled
  }

  /** The last targeted entity still has priority at time `now`. */
  predicate InWindow(now: real, lastTargetedTime: real)
  {
    now - lastTargetedTime < PriorityCutoff
  }

  /** An eligible result whose entity is the last targeted one. */
  predicate IsPriority(sc: Scene, t: Trace, last: Option<EntityId>)
  {
    Eligible(sc, t) && t.entity == last
  }

  /**
   * Index k is the scan's winner by distance: eligible, below the accumulator's
   * start value, strictly closer than every eligible result before it and no
   * farther than every eligible result after it.
   */
  predicate IsClosest(sc: Scene, s: seq<Trace>, k: int)
  {
    && 0 <= k < |s|
    && Eligible(sc, s[k])
    && s[k].lineDistance < FloatMax
    && (forall j :: 0 <= j < k && Eligible(sc, s[j]) ==> s[k].lineDistance < s[j].lineDistance)
    && (forall j :: k < j < |s| && Eligible(sc, s[j]) ==> s[k].lineDistance <= s[j].lineDistance)
  }

  /** The index the distance comparison of the scan keeps after seeing all of `s`. */
  function Closest(sc: Scene, s: seq<Trace>): (r: Option<nat>)
    ensures r.Some? ==> IsClosest(sc, s, r.value)
    ensures r.None? ==> forall j :: 0 <= j < |s| && Eligible(sc, s[j]) ==> s[j].lineDistance >= FloatMax
    decreases |s|
  {
    if s == [] then None
    else
      var prefix := s[..|s| - 1];
      var before := Closest(sc, prefix);
      var best := if before.Some? then s[before.value].lineDistance else FloatMax;
      if Eligible(sc, s[|s| - 1]) && s[|s| - 1].lineDistance < best then Some(|s| - 1)
      else before
  }

  /** One more step of the scan: the accumulator either moves to index i or stays. */
  lemma ClosestStep(sc: Scene, s: seq<Trace>, i: int)
    requires 0 <= i < |s|
    ensures var before := Closest(sc, s[..i]);
      var best := if before.Some? then s[before.value].lineDistance else FloatMax;
      Closest(sc, s[..i + 1]) ==
        if Eligible(sc, s[i]) && s[i].lineDistance < best then Some(i) else before
  {
    assert s[..i + 1][..i] == s[..i];
  }

  /** The index of the first priority result, if any. */
  function FirstPriority(sc: Scene, s: seq<Trace>, last: Option<EntityId>): (r: Option<nat>)
    ensures r.Some? ==> r.value < |s| && IsPriority(sc, s[r.value], last)
    ensures r.Some? ==> forall j :: 0 <= j < r.value ==> !IsPriority(sc, s[j], last)
    ensures r.None? ==> forall j :: 0 <= j < |s| ==> !IsPriority(sc, s[j], last)
    decreases |s|
  {
    if s == [] then None
    else if IsPriority(sc, s[0], last) then Some(0)
    else
      match FirstPriority(sc, s[1..], last)
      case Some(k) => Some(k + 1)
      case None => None
  }

  /** The first priority result is the one the scan stops at. */
  lemma {:induction false} FirstPriorityAt(sc: Scene, s: seq<Trace>, last: Option<EntityId>, i: int)
    requires 0 <= i < |s| && IsPriority(sc, s[i], last)
    requires forall j :: 0 <= j < i ==> !IsPriority(sc, s[j], last)
    ensures FirstPriority(sc, s, last) == Some(i)
    decreases i
  {
    if i > 0 {
      FirstPriorityAt(sc, s[1..], last, i - 1);
    }
  }

  /**
   * The result the gun targets, or None when it has no target. `direct` is the
   * narrow direct-ray result (consulted only inside the priority window),
   * `results` the wide query's results (None when that query returned nothing).
   */
  function SelectTarget(sc: Scene, last: Option<EntityId>, inWindow: bool, direct: Trace,
                        results: Option<seq<Trace>>): (r: Option<Trace>)
    ensures r.Some? ==> Eligible(sc, r.value)
    ensures r.Some? ==> r.value == direct || (results.Some? && r.value in results.value)
    ensures inWindow && Eligible(sc, direct) ==> r == Some(direct)
    ensures !inWindow ==> r.None? || (results.Some? && r.value in results.value)
  {
    if inWindow && Eligible(sc, direct) then Some(direct)
    else if results.None? then None
    else
      var s := results.value;
      var p := if inWindow then FirstPriority(sc, s, last) else None;
      if p.Some? then Some(s[p.value])
      else
        match Closest(sc, s)
        case Some(k) => Some(s[k])
        case None => None
  }

  /** The winner by distance is unique: any index meeting IsClosest is Closest's. */
  lemma ClosestUnique(sc: Scene, s: seq<Trace>, k: int)
    requires IsClosest(sc, s, k)
    ensures Closest(sc, s) == Some(k)
  {
    // Two indices meeting IsClosest would each be strictly below and no
    // higher than the other; the recursive contract of Closest gives one.
  }

  /**
   * Without an applicable priority hit and without the direct fast path, the
   * target is exactly the eligible result of minimum distance to the aim line,
   * the earliest among equals; and there is none exactly when no eligible
   * result scores below float.MaxValue.
   */
  lemma ArgminSelection(sc: Scene, last: Option<EntityId>, inWindow: bool, direct: Trace, s: seq<Trace>)
    requires !(inWindow && Eligible(sc, direct))
    requires !inWindow || forall j :: 0 <= j < |s| ==> !IsPriority(sc, s[j], last)
    ensures forall k :: IsClosest(sc, s, k) ==> SelectTarget(sc, last, inWindow, direct, Some(s)) == Some(s[k])
    ensures SelectTarget(sc, last, inWindow, direct, Some(s)).Some?
            <==> exists j :: 0 <= j < |s| && Eligible(sc, s[j]) && s[j].lineDistance < FloatMax
    ensures SelectTarget(sc, last, inWindow, direct, Some(s)).Some? ==>
            exists k :: IsClosest(sc, s, k) && SelectTarget(sc, last, inWindow, direct, Some(s)) == Some(s[k])
  {
    if inWindow {
      assert FirstPriority(sc, s, last).None?;
    }
    forall k | IsClosest(sc, s, k)
      ensures SelectTarget(sc, last, inWindow, direct, Some(s)) == Some(s[k])
    {
      ClosestUnique(sc, s, k);
    }
    var c := Closest(sc, s);
    if c.Some? {
      assert IsClosest(sc, s, c.value);
    }
  }

  /**
   * Inside the window, when the direct ray gives nothing eligible, an eligible
   * result of the last targeted entity wins whatever the other distances are:
   * the first such result is returned.
   */
  lemma PriorityOverride(sc: Scene, last: Option<EntityId>, direct: Trace, s: seq<Trace>, i: int)
    requires !Eligible(sc, direct)
    requires 0 <= i < |s| && IsPriority(sc, s[i], last)
    ensures exists p :: (0 <= p <= i && SelectTarget(sc, last, true, direct, Some(s)) == Some(s[p])
            && IsPriority(sc, s[p], last)
            && forall j :: 0 <= j < p ==> !IsPriority(sc, s[j], last))
    ensures SelectTarget(sc, last, true, direct, Some(s)).Some?
    ensures SelectTarget(sc, last, true, direct, Some(s)).value.entity == last
  {
    var f := FirstPriority(sc, s, last);
    assert f.Some?;
    var p := f.value;
    assert p <= i;
  }

  /** Outside the priority window the direct-ray result has no effect on the target. */
  lemma DirectIgnoredOutsideWindow(sc: Scene, last: Option<EntityId>, d1: Trace, d2: Trace,
                                   results: Option<seq<Trace>>)
    ensures SelectTarget(sc, last, false, d1, results) == SelectTarget(sc, last, false, d2, results)
  {
  }

  /** Without an eligible result anywhere there is no target. */
  lemma NothingEligible(sc: Scene, last: Option<EntityId>, inWindow: bool, direct: Trace, results: Option<seq<Trace>>)
    requires !Eligible(sc, direct)
    requires results.Some? ==> forall j :: 0 <= j < |results.value| ==> !Eligible(sc, results.value[j])
    ensures SelectTarget(sc, last, inWindow, direct, results) == None
  {
    if results.Some? {
      var s := results.value;
      if inWindow {
        assert FirstPriority(sc, s, last).None?;
      }
      assert Closest(sc, s).None?;
    }
  }
}
