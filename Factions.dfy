/** XRFactionObject: a grabbable object that remembers the faction zone it
    is in and, when released in a zone of another faction, makes the
    kamikaze drone take on the object's faction. */
module Factions {
  import opened Scene
  import opened DroneModels

  /** An XRFactionZone: the trigger volume of a faction. */
  class Zone {
    const zoneFaction: Faction

    constructor (f: Faction)
      ensures zoneFaction == f
    {
      zoneFaction := f;
    }
  }

  /** The current zone after entering a collider; `z` is its zone component,
      null when it has none. */
  function Entered(current: Zone?, z: Zone?): (r: Zone?)
  {
    if z != null then z else current
  }

  /** The current zone after leaving a collider: cleared only when it is
      the zone that was left. */
  function Left(current: Zone?, z: Zone?): (r: Zone?)
  {
    if z != null && current == z then null else current
  }

  /** Whether a release sets off the drone: the object is in a zone and the
      zone belongs to another faction. */
  predicate Reacts(current: Zone?, f: Faction)
  {
    current != null && current.zoneFaction != f
  }

  /** The last zone entered is the current one; colliders without a zone
      are ignored; leaving it clears it. */
  lemma EnterThenLeave(current: Zone?, z: Zone)
    ensures Entered(current, z) == z && Entered(current, null) == current
    ensures Left(Entered(current, z), z) == null
  {
  }

  /** Leaving a zone other than the current one changes nothing, so with
      overlapping zones the object entered second stays current when it
      leaves the first. */
  lemma OverlappingZones(current: Zone?, a: Zone, b: Zone)
    requires a != b
    ensures Left(current, null) == current
    ensures current != a ==> Left(current, a) == current
    ensures Left(Entered(Entered(current, a), b), a) == b
  {
  }

  /** A release never reacts outside a zone nor in a zone of the object's
      own faction. Right after entering a zone it reacts exactly when that
      zone belongs to another faction (a collider without a zone changes
      nothing), and right after leaving the zone it never does. */
  lemma ReleaseAfterMoves(current: Zone?, z: Zone?, f: Faction)
    ensures current == null ==> !Reacts(current, f)
    ensures current != null && current.zoneFaction == f ==> !Reacts(current, f)
    ensures Reacts(Entered(current, z), f) <==> if z != null then z.zoneFaction != f else Reacts(current, f)
    ensures z != null ==> !Reacts(Left(Entered(current, z), z), f)
  {
  }

  class FactionObject {
    const objectFaction: Faction
    // FindFirstObjectByType<XRDroneKamikaze>() and its model swapper:
    // None when there is no drone, Some(null) for a drone without a swapper.
    const drone: Option<ModelSwapper?>

    var currentZone: Zone?

    constructor (f: Faction, d: Option<ModelSwapper?>)
      ensures objectFaction == f && drone == d && currentZone == null
    {
      objectFaction, drone, currentZone := f, d, null;
    }

    /** The swapper the reaction would use, if there is one. */
    function Swapper(): ModelSwapper?
    {
      if drone.Some? then drone.value else null
    }

    method OnTriggerEnter(zone: Zone?)
      modifies this`currentZone
      ensures currentZone == Entered(old(currentZone), zone)
    {
      if zone != null {
        currentZone := zone;
      }
    }

    method OnTriggerExit(zone: Zone?)
      modifies this`currentZone
      ensures currentZone == Left(old(currentZone), zone)
    {
      if zone != null && currentZone == zone {
        currentZone := null;
      }
    }

    /** Released: the drone takes on this object's faction exactly when the
        object is in a zone of another faction; otherwise nothing changes. */
    method OnReleased()
      modifies ModelObjects(Swapper())
      ensures var s := Swapper(); s != null && !Reacts(currentZone, objectFaction) ==> s.State() == old(s.State())
      ensures var s := Swapper(); s != null && Reacts(currentZone, objectFaction) ==>
        (forall o :: o in ModelObjects(s) ==> o.active == (o == s.Chosen(objectFaction)))
        && (s.Distinct() ==> s.State() == Swapped(old(s.State()), objectFaction))
    {
      if currentZone != null {
        if currentZone.zoneFaction != objectFaction {
          TriggerDroneReaction(objectFaction);
        }
      }
    }

    /** Find the drone and swap its model to `f`; with no drone, or a drone
        without a swapper, nothing changes (the warning is not modelled). */
    method TriggerDroneReaction(f: Faction)
      modifies ModelObjects(Swapper())
      ensures var s := Swapper(); s != null ==>
        forall o :: o in ModelObjects(s) ==> o.active == (o == s.Chosen(f))
      ensures var s := Swapper(); s != null && s.Distinct() ==> s.State() == Swapped(old(s.State()), f)
    {
      if drone.Some? {
        var swapper := drone.value;
        if swapper != null {
          swapper.SwapModel(f);
        }
      }
    }
  }
}
