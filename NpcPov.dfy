/** XRNPCPovSwitcher: a "fake" point-of-view switch that moves the player's XR
    rig onto an NPC's or drone's viewpoint while the toggle input is held,
    and puts everything back when it is released. */
module NpcPov {
  import opened Scene

  /** The entries after every assigned one has been set to `on`, entry by
      entry; nothing is added, dropped or reordered. */
  function WithAll(s: seq<Slot>, on: bool): (r: seq<Slot>)
    ensures |r| == |s|
    ensures forall i :: 0 <= i < |s| ==> r[i] == s[i].Set(on)
  {
    if s == [] then [] else [s[0].Set(on)] + WithAll(s[1..], on)
  }

  /** Setting the flags twice leaves only the second setting: whatever the
      entry step switched off, the exit step switches on. */
  lemma WithAllOverrides(s: seq<Slot>, a: bool, b: bool)
    ensures WithAll(WithAll(s, a), b) == WithAll(s, b)
  {
  }

  /** Entering and leaving gives the flags back exactly when every assigned
      entry was on before entering; a script that was already off ends on. */
  lemma ExitRestoresFlagsIff(s: seq<Slot>)
    ensures WithAll(WithAll(s, false), true) == s
        <==> forall i :: 0 <= i < |s| && s[i].Present? ==> s[i].on
  {
    WithAllOverrides(s, false, true);
    if forall i :: 0 <= i < |s| && s[i].Present? ==> s[i].on {
      assert forall i :: 0 <= i < |s| ==> WithAll(s, true)[i] == s[i];
    } else {
      var i :| 0 <= i < |s| && s[i].Present? && !s[i].on;
      assert WithAll(s, true)[i] != s[i];
    }
  }

  /** The position and rotation of a transform. */
  datatype Pose = Pose(position: Vec3, rotation: Euler)

  /** Where the rig is and where it goes back to: the rig's pose and parent,
      and the saved return pose and parent. */
  datatype Frame = Frame(rig: Pose, rigParent: Transform?, saved: Pose, savedParent: Transform?)

  /** What of the player is switched on or off: the control scripts, the
      objects to hide, and the rig's CharacterController and Rigidbody when
      they exist (`None` when the rig has no such component). */
  datatype PlayerState = PlayerState(
    controls: seq<Slot>, visuals: seq<Slot>,
    controllerEnabled: Option<bool>, kinematic: Option<bool>)

  /** The scene around the switch: the drone's target (`None` without a
      drone above the viewpoint) and the target remembered on entry; the main
      camera's culling mask (`None` without a main camera) and the mask saved
      on entry. */
  datatype Stage = Stage(
    droneTarget: Option<Transform?>, remembered: Transform?,
    cullingMask: Option<int>, savedMask: int)

  /** Everything the switcher reads or writes, as one value. */
  datatype Possession = Possession(switched: bool, frame: Frame, player: PlayerState, stage: Stage)

  /** Entry step 1: the return frame is the rig's current pose and parent. */
  function SavedFrame(f: Frame): Frame {
    f.(saved := f.rig, savedParent := f.rigParent)
  }

  /** Exit step 1: re-parent to the saved parent when it is still live
      (`parentLive`, Unity's `originalPlayerParent != null`; the world pose is
      kept), then put the rig on the saved pose. */
  function FrameRestored(f: Frame, parentLive: bool): Frame {
    f.(rig := f.saved, rigParent := if parentLive then f.savedParent else f.rigParent)
  }

  /** Steps 2 to 4 of both switches: the control scripts, the visuals and the
      CharacterController follow `on`; the Rigidbody is kinematic exactly when
      `on` is false. Unassigned entries and absent components stay so. */
  function Suspended(p: PlayerState, on: bool): PlayerState {
    PlayerState(WithAll(p.controls, on), WithAll(p.visuals, on),
                p.controllerEnabled.Overwrite(on), p.kinematic.Overwrite(!on))
  }

  /** Entry steps 5 and 6: a drone has its target remembered and is sent
      after `decoy`; a main camera has its mask saved and replaced by
      `povMask`. Without them the remembered values are left as they were. */
  function Staged(st: Stage, decoy: Transform?, povMask: int): Stage {
    Stage(st.droneTarget.Overwrite(decoy),
          if st.droneTarget.Some? then st.droneTarget.value else st.remembered,
          st.cullingMask.Overwrite(povMask),
          if st.cullingMask.Some? then st.cullingMask.value else st.savedMask)
  }

  /** Exit steps 5 and 6: the drone gets the remembered target back only when
      that one is still live (`rememberedLive`, Unity's
      `originalDroneTarget != null` at that moment); the camera gets the saved
      mask back. Nothing remembered is cleared. */
  function StageRestored(st: Stage, rememberedLive: bool): Stage {
    st.(droneTarget := if st.droneTarget.Some? && rememberedLive then Some(st.remembered) else st.droneTarget,
        cullingMask := st.cullingMask.Overwrite(st.savedMask))
  }

  /** SwitchToNpc: save the frame, switch the player off, stage the drone
      decoy and the POV culling mask, and mark the switch. */
  function Entered(s: Possession, decoy: Transform?, povMask: int): Possession {
    Possession(true, SavedFrame(s.frame), Suspended(s.player, false), Staged(s.stage, decoy, povMask))
  }

  /** SwitchBackToPlayer: restore the frame, switch the player back on,
      restore the drone target and the culling mask, and clear the switch. */
  function Exited(s: Possession, parentLive: bool, rememberedLive: bool): Possession {
    Possession(false, FrameRestored(s.frame, parentLive), Suspended(s.player, true), StageRestored(s.stage, rememberedLive))
  }

  /** SwitchBackToPlayer as it runs when the rig or the viewpoint may have
      been destroyed since entry. A destroyed rig makes step 1 throw, so
      nothing changes. A destroyed viewpoint makes the drone lookup of step 5
      throw after steps 1 to 4: the rig is back and the player on, but the
      drone keeps its decoy, the POV mask stays and the switch stays set.
      With both live it is `Exited`. */
  function ExitAttempt(s: Possession, rigLive: bool, viewpointLive: bool, parentLive: bool, rememberedLive: bool): Possession {
    var completes := rigLive && viewpointLive;
    Possession(s.switched && !completes,
               if rigLive then FrameRestored(s.frame, parentLive) else s.frame,
               if rigLive then Suspended(s.player, true) else s.player,
               if completes then StageRestored(s.stage, rememberedLive) else s.stage)
  }

  /** OnTeleport: while switched, the return pose becomes the viewpoint's
      position with its yaw only. */
  function Teleported(s: Possession, viewpoint: Pose): Possession {
    if s.switched then
      s.(frame := s.frame.(saved := Pose(viewpoint.position, Euler(0.0, viewpoint.rotation.y, 0.0))))
    else s
  }

  /** Update: while switched, move the rig by the rig-to-camera offset so
      that the camera, which the rig carries, lands on the viewpoint. */
  function Rebased(s: Possession, viewpoint: Vec3, camera: Vec3): Possession {
    if s.switched then
      var rigToHead := camera.Minus(s.frame.rig.position);
      s.(frame := s.frame.(rig := s.frame.rig.(position := viewpoint.Minus(rigToHead))))
    else s
  }

  /** A full cycle without teleport puts the rig back on its pose and parent
      and restores the culling mask; the flags end forced on; the drone gets
      its target back only when that target was live, and otherwise keeps
      chasing the decoy. */
  lemma EnterExitRoundTrip(s: Possession, decoy: Transform?, povMask: int, parentLive: bool, rememberedLive: bool)
    requires !s.switched
    ensures var r := Exited(Entered(s, decoy, povMask), parentLive, rememberedLive);
      && !r.switched
      && r.frame.rig == s.frame.rig && r.frame.rigParent == s.frame.rigParent
      && r.stage.cullingMask == s.stage.cullingMask
      && r.player == Suspended(s.player, true)
      && (s.stage.droneTarget.Some? && rememberedLive ==> r.stage.droneTarget == s.stage.droneTarget)
      && (s.stage.droneTarget.Some? && !rememberedLive ==> r.stage.droneTarget == Some(decoy))
      && (s.stage.droneTarget.None? ==> r.stage.droneTarget == None)
  {
  }

  /** The player comes back exactly as they were, flags included, when every
      assigned script and object was on before the switch. */
  lemma EnterExitRestoresPlayerIff(p: PlayerState)
    ensures Suspended(Suspended(p, false), true) == p
        <==> ((forall i :: 0 <= i < |p.controls| && p.controls[i].Present? ==> p.controls[i].on)
              && (forall i :: 0 <= i < |p.visuals| && p.visuals[i].Present? ==> p.visuals[i].on)
              && (p.controllerEnabled.Some? ==> p.controllerEnabled.value)
              && (p.kinematic.Some? ==> !p.kinematic.value))
  {
    ExitRestoresFlagsIff(p.controls);
    ExitRestoresFlagsIff(p.visuals);
  }

  /** A teleport followed by the exit puts the player on the viewpoint,
      upright and facing the viewpoint's yaw, not back where they started. */
  lemma TeleportThenExit(s: Possession, viewpoint: Pose, parentLive: bool, rememberedLive: bool)
    requires s.switched
    ensures Exited(Teleported(s, viewpoint), parentLive, rememberedLive).frame.rig
         == Pose(viewpoint.position, Euler(0.0, viewpoint.rotation.y, 0.0))
  {
  }

  /** Outside possession a teleport changes nothing. */
  lemma TeleportIgnoredWhenIdle(s: Possession, viewpoint: Pose)
    requires !s.switched
    ensures Teleported(s, viewpoint) == s
  {
  }

  /** After the rebase the camera, carried along with the rig, sits exactly
      on the viewpoint whatever the rig-to-head offset is; only the rig
      position moves. */
  lemma RebasePutsCameraOnViewpoint(s: Possession, viewpoint: Vec3, camera: Vec3)
    requires s.switched
    ensures var r := Rebased(s, viewpoint, camera);
      var moved := r.frame.rig.position.Minus(s.frame.rig.position);
      camera.Plus(moved) == viewpoint && r.frame.rig.rotation == s.frame.rig.rotation
      && r == s.(frame := s.frame.(rig := r.frame.rig))
  {
  }

  /** The remembered drone target survives the exit and every entry that
      finds no drone: it is never cleared. */
  lemma RememberedTargetNeverCleared(s: Possession, decoy: Transform?, povMask: int, parentLive: bool, rememberedLive: bool)
    ensures Exited(s, parentLive, rememberedLive).stage.remembered == s.stage.remembered
    ensures s.stage.droneTarget.None? ==> Entered(s, decoy, povMask).stage.remembered == s.stage.remembered
  {
  }

  /** An exit attempt ends the possession exactly when both the rig and the
      viewpoint are still live, and is then `Exited`. A viewpoint destroyed
      during the possession leaves it stuck: the attempt keeps the drone's
      decoy and the POV mask, and trying again changes nothing more. */
  lemma ExitCompletesIff(s: Possession, rigLive: bool, viewpointLive: bool, parentLive: bool, rememberedLive: bool)
    requires s.switched
    ensures var r := ExitAttempt(s, rigLive, viewpointLive, parentLive, rememberedLive);
      (!r.switched <==> rigLive && viewpointLive)
      && (rigLive && viewpointLive ==> r == Exited(s, parentLive, rememberedLive))
      && (!viewpointLive ==> r.stage == s.stage)
      && (!rigLive ==> r == s)
      && ExitAttempt(r, rigLive, false, parentLive, rememberedLive).frame == r.frame
      && ExitAttempt(r, rigLive, false, parentLive, rememberedLive).player == r.player
  {
    WithAllOverrides(s.player.controls, true, true);
    WithAllOverrides(s.player.visuals, true, true);
  }

  /** `Update` run once per frame, each with the viewpoint's and the camera's
      positions of that frame. */
  function RebasedAll(s: Possession, frames: seq<(Vec3, Vec3)>): Possession
    decreases |frames|
  {
    if frames == [] then s else RebasedAll(Rebased(s, frames[0].0, frames[0].1), frames[1..])
  }

  /** However many frames of rebasing the possession lasts, they move the
      rig's position and nothing else, so the exit lands exactly where it
      would have right after entry: the round trip survives the frames in
      between. */
  lemma {:induction false} RebasesForgottenOnExit(s: Possession, frames: seq<(Vec3, Vec3)>, parentLive: bool, rememberedLive: bool)
    ensures RebasedAll(s, frames) == s.(frame := s.frame.(rig := s.frame.rig.(position := RebasedAll(s, frames).frame.rig.position)))
    ensures Exited(RebasedAll(s, frames), parentLive, rememberedLive) == Exited(s, parentLive, rememberedLive)
    decreases |frames|
  {
    if frames != [] {
      RebasesForgottenOnExit(Rebased(s, frames[0].0, frames[0].1), frames[1..], parentLive, rememberedLive);
    }
  }

  /** The component. The engine objects it switches on and off are held as
      the values it reads and writes on them: the enabled flags of the
      control scripts, the active flags of the objects to hide, the rig's
      CharacterController and Rigidbody (`None` when the rig has none), the
      target of the drone above the viewpoint (`None` when there is no
      drone), the main camera's culling mask (`None` without a main camera),
      and the global listener volume. */
  class PovSwitcher {
    // Inspector references, fixed once the component runs.
    const playerXrRig: Transform?
    const npcViewpoint: Transform?
    const hasBodyPrefab: bool
    const dronePovCullingMask: int

    // The engine state the component switches.
    var controlScripts: seq<Slot>        // playerControlScripts[i].enabled
    var objectsToHide: seq<Slot>         // objectsToHide[i].activeSelf
    var controllerEnabled: Option<bool>  // GetComponent<CharacterController>() on the rig
    var kinematic: Option<bool>          // GetComponent<Rigidbody>().isKinematic on the rig
    var droneTarget: Option<Transform?>  // GetComponentInParent<XRDroneKamikaze>().target on the viewpoint
    var cullingMask: Option<int>         // Camera.main.cullingMask
    var listenerVolume: real             // AudioListener.volume

    // Private state.
    var originalPlayerPosition: Vec3
    var originalPlayerRotation: Euler
    var originalPlayerParent: Transform?
    var originalCullingMask: int
    var ghostTarget: Transform?
    var spawnedBody: Transform?
    var originalDroneTarget: Transform?
    var isSwitchedToNpc: bool
    var prePovVolume: real

    /** While switched the rig and the viewpoint are known: entry checks
        them and nothing clears them. The ghost and the body are objects
        instantiated by the entry, never the rig itself. */
    ghost predicate Valid()
      reads this
    {
      && (isSwitchedToNpc ==> playerXrRig != null && npcViewpoint != null)
      && (ghostTarget != null ==> ghostTarget != playerXrRig)
      && (spawnedBody != null ==> spawnedBody != playerXrRig)
    }

    /** The rig's pose; unassigned, the origin. */
    ghost function RigPose(): Pose
      reads playerXrRig
    {
      if playerXrRig == null then Pose(Origin, Identity)
      else Pose(playerXrRig.position, playerXrRig.rotation)
    }

    /** The rig's and the saved pose and parent. */
    ghost function FrameOf(): Frame
      reads playerXrRig, this`originalPlayerPosition, this`originalPlayerRotation, this`originalPlayerParent
    {
      Frame(RigPose(), if playerXrRig == null then null else playerXrRig.parent,
            Pose(originalPlayerPosition, originalPlayerRotation), originalPlayerParent)
    }

    /** The player's switchable parts. */
    ghost function PlayerOf(): PlayerState
      reads this`controlScripts, this`objectsToHide, this`controllerEnabled, this`kinematic
    {
      PlayerState(controlScripts, objectsToHide, controllerEnabled, kinematic)
    }

    /** The drone target and the culling mask, with what was saved of them. */
    ghost function StageOf(): Stage
      reads this`droneTarget, this`originalDroneTarget, this`cullingMask, this`originalCullingMask
    {
      Stage(droneTarget, originalDroneTarget, cullingMask, originalCullingMask)
    }

    /** The whole state the switcher reads and writes. */
    ghost function Snapshot(): Possession
      reads this, playerXrRig
    {
      Possession(isSwitchedToNpc, FrameOf(), PlayerOf(), StageOf())
    }

    constructor (rig: Transform?, viewpoint: Transform?, bodyPrefab: bool, povMask: int,
                 controls: seq<Slot>, toHide: seq<Slot>, cc: Option<bool>, rb: Option<bool>,
                 target: Option<Transform?>, mask: Option<int>, volume: real)
      ensures Valid() && !isSwitchedToNpc && prePovVolume == 1.0
      ensures playerXrRig == rig && npcViewpoint == viewpoint
      ensures hasBodyPrefab == bodyPrefab && dronePovCullingMask == povMask
      ensures controlScripts == controls && objectsToHide == toHide
      ensures controllerEnabled == cc && kinematic == rb && droneTarget == target && cullingMask == mask
      ensures listenerVolume == volume && ghostTarget == null && spawnedBody == null
      ensures originalDroneTarget == null && originalPlayerParent == null
    {
      playerXrRig, npcViewpoint, hasBodyPrefab, dronePovCullingMask := rig, viewpoint, bodyPrefab, povMask;
      controlScripts, objectsToHide, controllerEnabled, kinematic := controls, toHide, cc, rb;
      droneTarget, cullingMask, listenerVolume := target, mask, volume;
      originalPlayerPosition, originalPlayerRotation, originalPlayerParent := Origin, Identity, null;
      originalCullingMask := 0;
      ghostTarget, spawnedBody, originalDroneTarget := null, null, null;
      isSwitchedToNpc, prePovVolume := false, 1.0;
    }

    /** The ghost and the body, when there are any, are destroyed. */
    ghost predicate StandInsDestroyed()
      reads this`ghostTarget, this`spawnedBody, ghostTarget, spawnedBody
    {
      (ghostTarget != null ==> !ghostTarget.alive) && (spawnedBody != null ==> !spawnedBody.alive)
    }

    /** The stand-ins of an entry from rig pose `at`: a drone (`hadDrone`)
        chases a fresh ghost on the rig's position, and with a body prefab a
        fresh body stands on the rig's pose. */
    twostate predicate StandInsPlaced(hadDrone: bool, at: Pose)
      reads this`ghostTarget, this`spawnedBody, ghostTarget, spawnedBody
    {
      (hadDrone ==> fresh(ghostTarget) && ghostTarget.alive && ghostTarget.position == at.position)
      && (!hadDrone ==> ghostTarget == old(ghostTarget))
      && (hasBodyPrefab ==>
            fresh(spawnedBody) && spawnedBody.alive
            && spawnedBody.position == at.position && spawnedBody.rotation == at.rotation)
      && (!hasBodyPrefab ==> spawnedBody == old(spawnedBody))
    }

    /** Hold-start: enter only with both references live (Unity's `== null`
        is also true of a destroyed object) and not yet switched; the whole
        routine (fade out, switch, fade in) is taken as one step. */
    method OnPovStart()
      requires Valid()
      modifies this
      ensures Valid()
      ensures old(!Live(playerXrRig) || !Live(npcViewpoint) || isSwitchedToNpc) ==> unchanged(this)
      ensures old(Live(playerXrRig) && Live(npcViewpoint) && !isSwitchedToNpc) ==>
        (Snapshot() == Entered(old(Snapshot()), ghostTarget, dronePovCullingMask)
        && prePovVolume == old(listenerVolume) && listenerVolume == prePovVolume
        && StandInsPlaced(old(droneTarget).Some?, Pose(originalPlayerPosition, originalPlayerRotation)))
    {
      if !Live(playerXrRig) || !Live(npcViewpoint) {
        return;
      }
      if !isSwitchedToNpc {
        SwitchToNpcRoutine();
      }
    }

    /** Hold-end: leave only when switched. The exit throws part-way when
        the rig or the viewpoint has been destroyed (`ExitAttempt`); the
        routine then stops with the volume still faded out. */
    method OnPovEnd()
      requires Valid()
      modifies this`listenerVolume, ({playerXrRig} - {null})`parent, ({playerXrRig} - {null})`position, ({playerXrRig} - {null})`rotation
      modifies ({ghostTarget, spawnedBody} - {null})`alive
      modifies this`controlScripts, this`objectsToHide, this`controllerEnabled, this`kinematic
      modifies this`droneTarget, this`cullingMask, this`isSwitchedToNpc
      ensures Valid()
      ensures !old(isSwitchedToNpc) ==> unchanged(this) && Snapshot() == old(Snapshot())
      ensures old(isSwitchedToNpc) ==>
        Snapshot() == ExitAttempt(old(Snapshot()), old(Live(playerXrRig)), old(Live(npcViewpoint)),
                                  old(Live(originalPlayerParent)), old(Live(originalDroneTarget)))
      ensures old(isSwitchedToNpc && Live(playerXrRig) && Live(npcViewpoint)) ==>
        listenerVolume == prePovVolume && StandInsDestroyed()
      ensures old(isSwitchedToNpc) ==> ghostTarget == old(ghostTarget) && spawnedBody == old(spawnedBody)
      ensures old(isSwitchedToNpc) && !old(Live(playerXrRig) && Live(npcViewpoint)) ==>
        listenerVolume == 0.0 && unchanged(({ghostTarget, spawnedBody} - {null})`alive)
    {
      if isSwitchedToNpc {
        SwitchBackToPlayerRoutine();
      }
    }

    /** Teleport press: while switched with a live viewpoint, re-anchor the
        return pose on the viewpoint (yaw only). The sound cue is not
        modelled. */
    method OnTeleport()
      requires Valid()
      modifies this`originalPlayerPosition, this`originalPlayerRotation
      ensures Live(npcViewpoint) ==>
        Snapshot() == Teleported(old(Snapshot()), Pose(npcViewpoint.position, npcViewpoint.rotation))
      ensures !(old(isSwitchedToNpc) && Live(npcViewpoint)) ==> unchanged(this)
    {
      if isSwitchedToNpc && Live(npcViewpoint) {
        originalPlayerPosition := npcViewpoint.position;
        var droneEuler := npcViewpoint.rotation;
        originalPlayerRotation := Euler(0.0, droneEuler.y, 0.0);
      }
    }

    /** Per-frame rebase of the rig onto the viewpoint while switched and
        both are live. `camera` is Camera.main's world position this frame,
        `None` when there is no main camera: the engine then throws at the
        lookup and nothing moves. */
    method Update(camera: Option<Vec3>)
      requires Valid()
      modifies ({playerXrRig} - {null})`position
      ensures isSwitchedToNpc && Live(playerXrRig) && Live(npcViewpoint) && camera.Some? ==>
        Snapshot() == Rebased(old(Snapshot()), old(npcViewpoint.position), camera.value)
      ensures !(isSwitchedToNpc && Live(playerXrRig) && Live(npcViewpoint) && camera.Some?) ==>
        Snapshot() == old(Snapshot())
    {
      if isSwitchedToNpc && Live(playerXrRig) && Live(npcViewpoint) {
        if camera.Some? {
          var rigToHeadOffset := camera.value.Minus(playerXrRig.position);
          playerXrRig.position := npcViewpoint.position.Minus(rigToHeadOffset);
        }
      }
    }

    /** Component disabled: a possession in progress is undone at once,
        without any fade, so the volume is left alone; the exit throws
        part-way as in `ExitAttempt` when the rig or the viewpoint has been
        destroyed. */
    method OnDisable()
      requires Valid()
      modifies ({playerXrRig} - {null})`parent, ({playerXrRig} - {null})`position, ({playerXrRig} - {null})`rotation, ({ghostTarget, spawnedBody} - {null})`alive
      modifies this`controlScripts, this`objectsToHide, this`controllerEnabled, this`kinematic
      modifies this`droneTarget, this`cullingMask, this`isSwitchedToNpc
      ensures Valid() && listenerVolume == old(listenerVolume)
      ensures old(isSwitchedToNpc) ==>
        Snapshot() == ExitAttempt(old(Snapshot()), old(Live(playerXrRig)), old(Live(npcViewpoint)),
                                  old(Live(originalPlayerParent)), old(Live(originalDroneTarget)))
      ensures old(isSwitchedToNpc && Live(playerXrRig) && Live(npcViewpoint)) ==> StandInsDestroyed()
      ensures !old(isSwitchedToNpc) ==> unchanged(this) && Snapshot() == old(Snapshot())
    {
      if isSwitchedToNpc {
        var _ := SwitchBackToPlayer();
      }
    }

    /** The entry routine with its fades reduced to their end points: the
        volume is saved, silenced, and given back after the switch. */
    method SwitchToNpcRoutine()
      requires Valid() && playerXrRig != null && npcViewpoint != null
      modifies this
      ensures Valid()
      ensures Snapshot() == Entered(old(Snapshot()), ghostTarget, dronePovCullingMask)
      ensures prePovVolume == old(listenerVolume) && listenerVolume == prePovVolume
      ensures StandInsPlaced(old(droneTarget).Some?, Pose(originalPlayerPosition, originalPlayerRotation))
    {
      prePovVolume := listenerVolume;
      listenerVolume := 0.0;
      SwitchToNpc();
      listenerVolume := prePovVolume;
    }

    /** The exit routine with its fades reduced to their end points; the
        volume given back is the one saved on entry. When the exit throws,
        the routine stops there with the volume faded out. */
    method SwitchBackToPlayerRoutine()
      requires Valid() && playerXrRig != null && npcViewpoint != null
      modifies this`listenerVolume, playerXrRig`parent, playerXrRig`position, playerXrRig`rotation, ({ghostTarget, spawnedBody} - {null})`alive
      modifies this`controlScripts, this`objectsToHide, this`controllerEnabled, this`kinematic
      modifies this`droneTarget, this`cullingMask, this`isSwitchedToNpc
      ensures Valid()
      ensures Snapshot() == ExitAttempt(old(Snapshot()), old(Live(playerXrRig)), old(Live(npcViewpoint)),
                                        old(Live(originalPlayerParent)), old(Live(originalDroneTarget)))
      ensures old(Live(playerXrRig) && Live(npcViewpoint)) ==> listenerVolume == prePovVolume && StandInsDestroyed()
      ensures !old(Live(playerXrRig) && Live(npcViewpoint)) ==>
        listenerVolume == 0.0 && unchanged(({ghostTarget, spawnedBody} - {null})`alive)
    {
      listenerVolume := 0.0;
      var completed := SwitchBackToPlayer();
      if completed {
        listenerVolume := prePovVolume;
      }
    }

    /** The switch proper, in the source's order: frame, controls, physics,
        visuals, drone and body, culling mask, flag. */
    method SwitchToNpc()
      requires Valid() && playerXrRig != null && npcViewpoint != null
      modifies this`originalPlayerPosition, this`originalPlayerRotation, this`originalPlayerParent
      modifies this`controlScripts, this`objectsToHide, this`controllerEnabled, this`kinematic
      modifies this`originalDroneTarget, this`ghostTarget, this`droneTarget, this`spawnedBody
      modifies this`originalCullingMask, this`cullingMask, this`isSwitchedToNpc
      ensures Valid() && isSwitchedToNpc
      ensures FrameOf() == SavedFrame(old(FrameOf()))
      ensures PlayerOf() == Suspended(old(PlayerOf()), false)
      ensures StageOf() == Staged(old(StageOf()), ghostTarget, dronePovCullingMask)
      ensures StandInsPlaced(old(droneTarget).Some?, Pose(originalPlayerPosition, originalPlayerRotation))
    {
      LeavePlayer();
      StageDecoys();
      isSwitchedToNpc := true;
    }

    /** Entry steps 1 to 4: the frame saved, the player off. */
    method LeavePlayer()
      requires playerXrRig != null
      modifies this`originalPlayerPosition, this`originalPlayerRotation, this`originalPlayerParent
      modifies this`controlScripts, this`objectsToHide, this`controllerEnabled, this`kinematic
      ensures FrameOf() == SavedFrame(old(FrameOf()))
      ensures PlayerOf() == Suspended(old(PlayerOf()), false)
    {
      SaveFrame();
      SuspendPlayer(false);
    }

    /** Entry step 1: remember the rig's pose and parent. */
    method SaveFrame()
      requires playerXrRig != null
      modifies this`originalPlayerPosition, this`originalPlayerRotation, this`originalPlayerParent
      ensures FrameOf() == SavedFrame(old(FrameOf()))
    {
      originalPlayerPosition := playerXrRig.position;
      originalPlayerRotation := playerXrRig.rotation;
      originalPlayerParent := playerXrRig.parent;
    }

    /** Steps 2 to 4 of both switches: control scripts, physics, visuals. */
    method SuspendPlayer(on: bool)
      modifies this`controlScripts, this`objectsToHide, this`controllerEnabled, this`kinematic
      ensures PlayerOf() == Suspended(old(PlayerOf()), on)
    {
      SetPlayerControls(on);
      SetPhysics(on);
      SetVisuals(on);
    }

    /** Entry steps 5 and 6: the drone decoy, the body, the POV mask. */
    method StageDecoys()
      modifies this`originalDroneTarget, this`ghostTarget, this`droneTarget, this`spawnedBody
      modifies this`originalCullingMask, this`cullingMask
      ensures StageOf() == Staged(old(StageOf()), ghostTarget, dronePovCullingMask)
      ensures StandInsPlaced(old(droneTarget).Some?, Pose(originalPlayerPosition, originalPlayerRotation))
    {
      RedirectDrone();
      SpawnBody();
      SwapCullingMask();
    }

    /** The way back, in the source's order: frame, controls, physics,
        visuals, drone target and stand-ins, culling mask, flag. A destroyed
        rig throws at step 1 and a destroyed viewpoint at the drone lookup
        of step 5; `completed` says whether the exit ran to the end. */
    method SwitchBackToPlayer() returns (completed: bool)
      requires Valid() && playerXrRig != null && npcViewpoint != null
      modifies playerXrRig`parent, playerXrRig`position, playerXrRig`rotation, ({ghostTarget, spawnedBody} - {null})`alive
      modifies this`controlScripts, this`objectsToHide, this`controllerEnabled, this`kinematic
      modifies this`droneTarget, this`cullingMask, this`isSwitchedToNpc
      ensures Valid()
      ensures completed == old(Live(playerXrRig) && Live(npcViewpoint))
      ensures old(Live(playerXrRig)) ==>
        FrameOf() == FrameRestored(old(FrameOf()), old(Live(originalPlayerParent)))
        && PlayerOf() == Suspended(old(PlayerOf()), true)
      ensures !old(Live(playerXrRig)) ==> FrameOf() == old(FrameOf()) && PlayerOf() == old(PlayerOf())
      ensures completed ==> StageOf() == StageRestored(old(StageOf()), old(Live(originalDroneTarget))) && StandInsDestroyed()
      ensures !completed ==> StageOf() == old(StageOf()) && unchanged(({ghostTarget, spawnedBody} - {null})`alive)
      ensures isSwitchedToNpc == (old(isSwitchedToNpc) && !completed)
    {
      if !Live(playerXrRig) {
        return false;
      }
      RestorePlayer();
      completed := FinishExit();
    }

    /** Exit steps 5 and 6 and the flag, unless the drone lookup on a
        destroyed viewpoint throws first. */
    method FinishExit() returns (completed: bool)
      requires npcViewpoint != null
      modifies this`droneTarget, this`cullingMask, this`isSwitchedToNpc, ({ghostTarget, spawnedBody} - {null})`alive
      ensures completed == old(Live(npcViewpoint))
      ensures completed ==>
        StageOf() == StageRestored(old(StageOf()), old(Live(originalDroneTarget))) && StandInsDestroyed() && !isSwitchedToNpc
      ensures !completed ==> unchanged(this) && unchanged(({ghostTarget, spawnedBody} - {null})`alive)
    {
      if !Live(npcViewpoint) {
        return false;
      }
      RestoreStage();
      isSwitchedToNpc := false;
      completed := true;
    }

    /** Exit steps 1 to 4: the frame back, the player on. */
    method RestorePlayer()
      requires playerXrRig != null
      modifies playerXrRig`parent, playerXrRig`position, playerXrRig`rotation
      modifies this`controlScripts, this`objectsToHide, this`controllerEnabled, this`kinematic
      ensures FrameOf() == FrameRestored(old(FrameOf()), old(Live(originalPlayerParent)))
      ensures PlayerOf() == Suspended(old(PlayerOf()), true)
    {
      RestoreFrame();
      SuspendPlayer(true);
    }

    /** Exit steps 5 and 6: the drone target when still live, the
        destroyed stand-ins, the saved mask. */
    method RestoreStage()
      modifies this`droneTarget, this`cullingMask, ({ghostTarget, spawnedBody} - {null})`alive
      ensures StageOf() == StageRestored(old(StageOf()), old(Live(originalDroneTarget)))
      ensures StandInsDestroyed()
    {
      RestoreDroneTarget();
      DestroyStandIns();
      RestoreCullingMask();
    }

    /** Exit step 1: re-parent to the saved parent when there was one (the
        world pose is kept), then put the rig on the saved pose. */
    method RestoreFrame()
      requires playerXrRig != null
      modifies playerXrRig`parent, playerXrRig`position, playerXrRig`rotation
      ensures FrameOf() == FrameRestored(old(FrameOf()), old(Live(originalPlayerParent)))
    {
      if Live(originalPlayerParent) {
        playerXrRig.parent := originalPlayerParent;
      }
      playerXrRig.position := originalPlayerPosition;
      playerXrRig.rotation := originalPlayerRotation;
    }

    /** Step 3 of both switches: the CharacterController, when the rig has
        one, follows `enabled`; the Rigidbody, when it has one, is kinematic
        exactly when physics is off. */
    method SetPhysics(enabled: bool)
      modifies this`controllerEnabled, this`kinematic
      ensures controllerEnabled == old(controllerEnabled).Overwrite(enabled)
      ensures kinematic == old(kinematic).Overwrite(!enabled)
    {
      if controllerEnabled.Some? {
        controllerEnabled := Some(enabled);
      }
      if kinematic.Some? {
        kinematic := Some(!enabled);
      }
    }

    /** Entry step 5: with a drone, remember its target and send it after a
        fresh ghost placed on the saved position. */
    method RedirectDrone()
      modifies this`originalDroneTarget, this`ghostTarget, this`droneTarget
      ensures droneTarget == old(droneTarget).Overwrite(ghostTarget)
      ensures originalDroneTarget == if old(droneTarget).Some? then old(droneTarget).value else old(originalDroneTarget)
      ensures old(droneTarget).Some? ==>
        fresh(ghostTarget) && ghostTarget.alive && ghostTarget.position == originalPlayerPosition
      ensures old(droneTarget).None? ==> ghostTarget == old(ghostTarget)
    {
      if droneTarget.Some? {
        originalDroneTarget := droneTarget.value;
        ghostTarget := new Transform(originalPlayerPosition, Identity);
        droneTarget := Some(ghostTarget);
      }
    }

    /** Entry step 5, continued: the stand-in body on the saved pose. */
    method SpawnBody()
      modifies this`spawnedBody
      ensures hasBodyPrefab ==>
        (fresh(spawnedBody) && spawnedBody.alive
        && spawnedBody.position == originalPlayerPosition
        && spawnedBody.rotation == originalPlayerRotation)
      ensures !hasBodyPrefab ==> spawnedBody == old(spawnedBody)
    {
      if hasBodyPrefab {
        spawnedBody := new Transform(originalPlayerPosition, originalPlayerRotation);
      }
    }

    /** Entry step 6: with a main camera, save its culling mask and install
        the POV one. */
    method SwapCullingMask()
      modifies this`originalCullingMask, this`cullingMask
      ensures cullingMask == old(cullingMask).Overwrite(dronePovCullingMask)
      ensures originalCullingMask == if old(cullingMask).Some? then old(cullingMask).value else old(originalCullingMask)
    {
      if cullingMask.Some? {
        originalCullingMask := cullingMask.value;
        cullingMask := Some(dronePovCullingMask);
      }
    }

    /** Exit step 5: the drone gets the remembered target back only when that
        target is still live (Unity's `!= null`). */
    method RestoreDroneTarget()
      modifies this`droneTarget
      ensures droneTarget == if old(droneTarget).Some? && Live(originalDroneTarget) then Some(originalDroneTarget)
                             else old(droneTarget)
    {
      if droneTarget.Some? && originalDroneTarget != null && originalDroneTarget.alive {
        droneTarget := Some(originalDroneTarget);
      }
    }

    /** Exit step 5, continued: destroy the ghost and the body. */
    method DestroyStandIns()
      modifies ({ghostTarget, spawnedBody} - {null})`alive
      ensures StandInsDestroyed()
    {
      if ghostTarget != null && ghostTarget.alive {
        ghostTarget.alive := false;
      }
      if spawnedBody != null && spawnedBody.alive {
        spawnedBody.alive := false;
      }
    }

    /** Exit step 6: with a main camera, give it the saved culling mask. */
    method RestoreCullingMask()
      modifies this`cullingMask
      ensures cullingMask == old(cullingMask).Overwrite(originalCullingMask)
    {
      if cullingMask.Some? {
        cullingMask := Some(originalCullingMask);
      }
    }

    /** Every assigned visual is set active or inactive; unassigned entries
        are skipped. */
    method SetVisuals(active: bool)
      modifies this`objectsToHide
      ensures objectsToHide == WithAll(old(objectsToHide), active)
    {
      var i := 0;
      while i < |objectsToHide|
        invariant 0 <= i <= |objectsToHide| == |old(objectsToHide)|
        invariant forall k :: 0 <= k < i ==> objectsToHide[k] == WithAll(old(objectsToHide), active)[k]
        invariant forall k :: i <= k < |objectsToHide| ==> objectsToHide[k] == old(objectsToHide)[k]
      {
        if objectsToHide[i].Present? {
          objectsToHide := objectsToHide[i := Present(active)];
        }
        i := i + 1;
      }
    }

    /** Every assigned control script is enabled or disabled; unassigned
        entries are skipped. */
    method SetPlayerControls(enabled: bool)
      modifies this`controlScripts
      ensures controlScripts == WithAll(old(controlScripts), enabled)
    {
      var i := 0;
      while i < |controlScripts|
        invariant 0 <= i <= |controlScripts| == |old(controlScripts)|
        invariant forall k :: 0 <= k < i ==> controlScripts[k] == WithAll(old(controlScripts), enabled)[k]
        invariant forall k :: i <= k < |controlScripts| ==> controlScripts[k] == old(controlScripts)[k]
      {
        if controlScripts[i].Present? {
          controlScripts := controlScripts[i := Present(enabled)];
        }
        i := i + 1;
      }
    }
  }
}
