/** DroneController: a drone that flies from waypoint to waypoint in a loop
    and, when it has a bomb and a place to drop it from, drops one at a
    fixed interval. */
module DronePatrol {
  import opened Scene

  /** The waypoint after `i` among `n`: the index advances by one modulo
      the number of waypoints. */
  function NextWaypoint(i: nat, n: nat): (r: nat)
    requires n > 0
    ensures r < n
    ensures i < n ==> r == (if i + 1 < n then i + 1 else 0)
  {
    (i + 1) % n
  }

  /** The waypoint index after `k` arrivals starting from `i`. */
  function AfterArrivals(i: nat, k: nat, n: nat): nat
    requires n > 0
    decreases k
  {
    if k == 0 then i else AfterArrivals(NextWaypoint(i, n), k - 1, n)
  }

  /** The waypoints the drone heads for during `k` arrivals from `i`, in
      order: the j-th is where the j arrivals before it have left the index. */
  function Route(i: nat, k: nat, n: nat): (r: seq<nat>)
    requires n > 0
    ensures |r| == k
    ensures forall j :: 0 <= j < k ==> r[j] == AfterArrivals(i, j, n)
    decreases k
  {
    if k == 0 then [] else [i] + Route(NextWaypoint(i, n), k - 1, n)
  }

  /** From waypoint `i` the drone heads for `i`, `i + 1`, ..., `n - 1` in
      turn and then is back at the first waypoint. */
  lemma {:induction false} RestOfLap(i: nat, n: nat)
    requires i < n
    ensures Route(i, n - i, n) == seq(n - i, j requires 0 <= j < n - i => i + j)
    ensures AfterArrivals(i, n - i, n) == 0
    decreases n - i
  {
    if i + 1 < n {
      RestOfLap(i + 1, n);
      assert Route(i, n - i, n) == [i] + Route(i + 1, n - i - 1, n);
    }
  }

  /** A lap of `n` arrivals visits every waypoint exactly once, in index
      order, and starts over from the first. */
  lemma PatrolLap(n: nat)
    requires n > 0
    ensures Route(0, n, n) == seq(n, j requires 0 <= j < n => j)
    ensures AfterArrivals(0, n, n) == 0
  {
    RestOfLap(0, n);
  }

  /** Whether the drone at `p` has reached the waypoint at `w`: their
      distance is below 0.1, compared here as squared distance below 0.01. */
  predicate Arrived(p: Vec3, w: Vec3)
  {
    p.Minus(w).SquaredLength() < 0.01
  }

  class Drone {
    // Inspector settings. The waypoint list may be unassigned (`None`);
    // each waypoint is given by its position.
    const hasBombPrefab: bool
    const bombSpawnPoint: Transform?
    const dropInterval: real
    const waypoints: Option<seq<Vec3>>
    const moveSpeed: real

    var position: Vec3               // transform.position
    var currentWaypointIndex: nat
    var dropScheduled: bool          // InvokeRepeating(DropBomb, ...) is active
    var bombs: seq<(Vec3, Euler)>    // where each bomb was instantiated

    /** The index always names a waypoint when there are any. */
    ghost predicate Valid()
      reads this`currentWaypointIndex
    {
      currentWaypointIndex == 0 || (waypoints.Some? && currentWaypointIndex < |waypoints.value|)
    }

    constructor (prefab: bool, spawn: Transform?, interval: real, route: Option<seq<Vec3>>, speed: real, p: Vec3)
      ensures Valid() && currentWaypointIndex == 0 && !dropScheduled && bombs == [] && position == p
      ensures hasBombPrefab == prefab && bombSpawnPoint == spawn && dropInterval == interval
      ensures waypoints == route && moveSpeed == speed
    {
      hasBombPrefab, bombSpawnPoint, dropInterval, waypoints, moveSpeed := prefab, spawn, interval, route, speed;
      position, currentWaypointIndex, dropScheduled, bombs := p, 0, false, [];
    }

    /** Start: the bomb cycle is scheduled only when both the prefab and the
        spawn point are assigned. */
    method Start()
      modifies this`dropScheduled
      ensures dropScheduled <==> old(dropScheduled) || (hasBombPrefab && Live(bombSpawnPoint))
    {
      if hasBombPrefab && bombSpawnPoint != null && bombSpawnPoint.alive {
        dropScheduled := true;
      }
    }

    /** One scheduled drop: a bomb appears at the spawn point, with its
        rotation. It uses the prefab and the spawn point without a check. */
    method DropBomb()
      requires hasBombPrefab && Live(bombSpawnPoint)
      modifies this`bombs
      ensures bombs == old(bombs) + [(bombSpawnPoint.position, bombSpawnPoint.rotation)]
    {
      bombs := bombs + [(bombSpawnPoint.position, bombSpawnPoint.rotation)];
    }

    /** Update: the drone moves only when there are waypoints. `moved` is
        where Vector3.MoveTowards puts it this frame. */
    method Update(moved: Vec3)
      requires Valid()
      modifies this`position, this`currentWaypointIndex
      ensures Valid()
      ensures waypoints.None? || waypoints.value == [] ==> unchanged(this)
      ensures waypoints.Some? && waypoints.value != [] ==>
        position == moved
        && currentWaypointIndex ==
             (if Arrived(moved, waypoints.value[old(currentWaypointIndex)])
              then NextWaypoint(old(currentWaypointIndex), |waypoints.value|)
              else old(currentWaypointIndex))
    {
      if waypoints.Some? && |waypoints.value| > 0 {
        MoveToNextWaypoint(moved);
      }
    }

    /** Move toward the current waypoint and, on arrival, head for the next
        one. The list must be assigned; an empty one is left alone. */
    method MoveToNextWaypoint(moved: Vec3)
      requires Valid() && waypoints.Some?
      modifies this`position, this`currentWaypointIndex
      ensures Valid()
      ensures waypoints.value == [] ==> unchanged(this)
      ensures waypoints.value != [] ==>
        position == moved
        && currentWaypointIndex ==
             (if Arrived(moved, waypoints.value[old(currentWaypointIndex)])
              then NextWaypoint(old(currentWaypointIndex), |waypoints.value|)
              else old(currentWaypointIndex))
    {
      var n := |waypoints.value|;
      if n == 0 {
        return;
      }
      var target := waypoints.value[currentWaypointIndex];
      position := moved;
      if Arrived(position, target) {
        currentWaypointIndex := (currentWaypointIndex + 1) % n;
      }
    }
  }
}
