/** DoorInteraction: a door that swings between an open and a closed yaw
    each time the player interacts with it. */
module Doors {
  import opened Scene

  /** The rotation the door turns toward: the open or the closed yaw, with
      the door's current pitch and roll. */
  function TargetFor(open: bool, current: Euler, openAngle: real, closeAngle: real): Euler
  {
    Euler(current.x, if open then openAngle else closeAngle, current.z)
  }

  /** The target never depends on the current yaw, so an interaction in
      the middle of a swing aims at the same place as one at rest; and
      when the two angles differ the target's yaw tells the door's state. */
  lemma TargetIgnoresCurrentYaw(open: bool, current: Euler, yaw: real, openAngle: real, closeAngle: real)
    ensures TargetFor(open, current, openAngle, closeAngle) == TargetFor(open, current.(y := yaw), openAngle, closeAngle)
    ensures openAngle != closeAngle ==> (TargetFor(open, current, openAngle, closeAngle).y == openAngle <==> open)
  {
  }

  /** What the door aims at: whether it is open and its target rotation. */
  datatype Aim = Aim(open: bool, target: Euler)

  /** One interaction with the door standing at `current`. */
  function Interacted(a: Aim, current: Euler, openAngle: real, closeAngle: real): Aim
  {
    Aim(!a.open, TargetFor(!a.open, current, openAngle, closeAngle))
  }

  /** Interactions in a row, the door standing at `at[j]` for the j-th one
      (it may still be swinging). */
  function Interactions(a: Aim, at: seq<Euler>, openAngle: real, closeAngle: real): Aim
    decreases |at|
  {
    if at == [] then a else Interactions(Interacted(a, at[0], openAngle, closeAngle), at[1..], openAngle, closeAngle)
  }

  /** After any number of interactions the door is open exactly when it
      started open and the count is even, or started closed and the count
      is odd; and it aims at that state's yaw with the pitch and roll it had
      at the last interaction, wherever the swing had got to. */
  lemma {:induction false} InteractionParity(a: Aim, at: seq<Euler>, openAngle: real, closeAngle: real)
    ensures var r := Interactions(a, at, openAngle, closeAngle);
      r.open == (a.open != (|at| % 2 == 1))
      && (at != [] ==> r.target == TargetFor(r.open, at[|at| - 1], openAngle, closeAngle))
    decreases |at|
  {
    if at != [] {
      InteractionParity(Interacted(a, at[0], openAngle, closeAngle), at[1..], openAngle, closeAngle);
      if |at| > 1 {
        assert at[1..][|at[1..]| - 1] == at[|at| - 1];
      }
    }
  }

  class Door {
    const openAngle: real
    const closeAngle: real
    const rotationSpeed: real
    const door: Transform       // the door's own transform

    var isOpen: bool
    var targetRotation: Euler

    constructor (t: Transform, openA: real, closeA: real, speed: real)
      ensures door == t && openAngle == openA && closeAngle == closeA && rotationSpeed == speed
      ensures !isOpen
    {
      door, openAngle, closeAngle, rotationSpeed := t, openA, closeA, speed;
      isOpen, targetRotation := false, Identity;
    }

    /** Start: the door aims at where it already is. */
    method Start()
      modifies this`targetRotation
      ensures targetRotation == door.rotation
    {
      targetRotation := door.rotation;
    }

    /** Interact: open a closed door, close an open one, and aim at the new
        state's yaw keeping the current pitch and roll. */
    method Interact()
      modifies this`isOpen, this`targetRotation
      ensures Aim(isOpen, targetRotation) == Interacted(old(Aim(isOpen, targetRotation)), door.rotation, openAngle, closeAngle)
      ensures isOpen == !old(isOpen)
      ensures targetRotation == TargetFor(isOpen, door.rotation, openAngle, closeAngle)
      ensures targetRotation.x == door.rotation.x && targetRotation.z == door.rotation.z
      ensures targetRotation.y == (if isOpen then openAngle else closeAngle)
    {
      isOpen := !isOpen;
      var yRotation := if isOpen then openAngle else closeAngle;
      targetRotation := Euler(door.rotation.x, yRotation, door.rotation.z);
    }
  }
}
