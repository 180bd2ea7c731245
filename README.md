# A verified model of the game logic of a Unity XR project

This project models, in Dafny, the scripted behaviour of a Unity XR game:
the viewpoint-possession switch that moves the player's XR rig onto an NPC's
or drone's viewpoint and back, and the small state machines around it (a
music playlist with per-track pitch, a single world-space grab label and its
per-object binders, a camera toggle, two dialogue cursors, a patrolling
drone, faction zones and the drone's faction model, a highlight that swaps
materials, a door and a one-at-a-time pickup).

Each C# component that updates its own fields is a Dafny `class` whose
methods change only the fields their `modifies` clause names and whose
`ensures` tie the new state to a function of the old one. Those functions
(`Entered`, `Exited`, `Swapped`, `Click`, ...) are the specification, and the
lemmas beside them state what the scripts promise: round trips, invariants,
last-writer-wins, decision tables. Engine objects are Dafny objects where
their identity matters (transforms, cameras, game objects, the label
manager), and values held by the component where it only flips their flags
(the POV switcher's control scripts, visuals, physics components, drone
target and culling mask). Unity's overloaded null test is `Live` (set and not
destroyed). Floats are reals. Engine lookups (`GetComponent*`,
`Camera.main`, `FindFirstObjectByType`), input events, the frame time and
`Random.value` become constructor arguments or method parameters.

Modules, one per script, plus `Scene` for shared engine types:

- `NpcPov` — `Assets/Scripts/XR/XRNPCPovSwitcher.cs`
- `Playlist` — `Assets/Scripts/XR/XRAudioPlaylistPlayer.cs`
- `GrabLabels` — `Assets/Scripts/XR/GrabLabelManager.cs`
- `LabelBinding` — `Assets/Scripts/XR/GrabLabelBinder.cs`
- `CameraSwitching` — `Assets/Scripts/XR/XRCameraSwitcher.cs`
- `Dialogue` — `Assets/Scripts/2DCharacter.cs` and `Assets/Scripts/NPCInteractable.cs`
- `DronePatrol` — `Assets/Scripts/XR/DroneController.cs`
- `Factions` — `Assets/Scripts/XR/XRFactionObject.cs`
- `DroneModels` — `Assets/Scripts/XR/XRDroneModelSwapper.cs`
- `Highlighting` — `Assets/Scripts/XR/XRUniversalHighlight.cs`
- `Doors` — `Assets/Scripts/DoorInteraction.cs`
- `Pickups` — `Assets/Scripts/ClickablePickup.cs`

What the possession controller's code does, as written:

- On exit the code forces every control script and visual on, the
  CharacterController on and the Rigidbody non-kinematic. It does not give
  back the values they had before entry. `ExitRestoresFlagsIff` and
  `EnterExitRestoresPlayerIff` state exactly when the round trip is exact
  anyway.
- The code never clears the saved frame, the saved parent or the
  remembered drone target on exit (`RememberedTargetNeverCleared`).
- The code gives the drone its old target back only when that target is
  still live. If it was destroyed, the drone keeps chasing the destroyed
  ghost (`EnterExitRoundTrip`).
- The code does not end the possession when the viewpoint is destroyed.
  `Update` just stops moving the rig, and a teleport is ignored. A later
  exit then throws at the drone lookup on the destroyed viewpoint, after
  the rig is back and the player is on. The drone keeps its decoy, the POV
  mask stays, the switch stays set and the routine leaves the volume at 0
  (`ExitAttempt`, `ExitCompletesIff`).
- Unity's `== null` is also true of a destroyed object. The references the
  controller tests are compared with `Live`: the rig, the viewpoint, the
  saved parent and the remembered drone target.
- The code redirects any drone above the viewpoint in the hierarchy. It
  does not check that the drone was chasing the player.
- Entry also needs the rig reference to be set, not only the viewpoint.
- With the pitch shifter off, the playlist plays the base pitch without
  clamping it (`ShifterOffPlaysBasePitch`).

## Model

| member | source | states |
|---|---|---|
| `NpcPov.WithAll` | Assets/Scripts/XR/XRNPCPovSwitcher.cs:264-282 | setting a list of scripts or objects keeps its length and sets each assigned entry, skipping unassigned ones |
| `NpcPov.WithAllOverrides` | Assets/Scripts/XR/XRNPCPovSwitcher.cs:233-244 | setting the flags twice leaves only the second setting, so exit switches on whatever entry switched off |
| `NpcPov.ExitRestoresFlagsIff` | Assets/Scripts/XR/XRNPCPovSwitcher.cs:158-169 | entry then exit gives a flag list back exactly when every assigned entry was on before; a script that was off ends on |
| `NpcPov.EnterExitRoundTrip` | Assets/Scripts/XR/XRNPCPovSwitcher.cs:151-261 | a full cycle without teleport restores the rig's pose and parent and the culling mask and forces the flags on; the drone gets its old target back only if that target is live, else keeps the decoy; with no drone nothing changes |
| `NpcPov.EnterExitRestoresPlayerIff` | Assets/Scripts/XR/XRNPCPovSwitcher.cs:158-169 | the player's controls, visuals, controller and rigidbody come back exactly as they were iff all were on and non-kinematic before entry |
| `NpcPov.TeleportThenExit` | Assets/Scripts/XR/XRNPCPovSwitcher.cs:102-115 | after a teleport the exit puts the rig on the viewpoint's position with the viewpoint's yaw only |
| `NpcPov.TeleportIgnoredWhenIdle` | Assets/Scripts/XR/XRNPCPovSwitcher.cs:104 | a teleport outside possession changes nothing |
| `NpcPov.RebasePutsCameraOnViewpoint` | Assets/Scripts/XR/XRNPCPovSwitcher.cs:117-125 | after a rebase the camera, which moves with the rig, is exactly on the viewpoint; only the rig position changes |
| `NpcPov.ExitCompletesIff` | Assets/Scripts/XR/XRNPCPovSwitcher.cs:224-262 | an exit ends the possession iff rig and viewpoint are both live, and is then `Exited`; with a destroyed rig nothing changes; with a destroyed viewpoint the drone's decoy and the POV mask stay, and trying again changes nothing more |
| `NpcPov.RebasesForgottenOnExit` | Assets/Scripts/XR/XRNPCPovSwitcher.cs:117-125 | any number of per-frame rebases move only the rig's position, so the exit lands exactly where it would have right after entry |
| `NpcPov.RememberedTargetNeverCleared` | Assets/Scripts/XR/XRNPCPovSwitcher.cs:173-184 | the remembered drone target survives exit, and survives any entry that finds no drone |
| `NpcPov.PovSwitcher.constructor` | Assets/Scripts/XR/XRNPCPovSwitcher.cs:30-50 | starts idle, with nothing remembered and the pre-POV volume 1 |
| `NpcPov.PovSwitcher.OnPovStart` | Assets/Scripts/XR/XRNPCPovSwitcher.cs:91-95 | enters only with rig and viewpoint live and not yet switched, as `Entered`, with a fresh ghost on the saved position and a fresh body on the saved pose, ending at the saved volume; otherwise changes nothing |
| `NpcPov.PovSwitcher.OnPovEnd` | Assets/Scripts/XR/XRNPCPovSwitcher.cs:97-100 | when switched, the exit runs as `ExitAttempt`; a completed exit destroys ghost and body and ends at the volume saved on entry, a broken one leaves the volume at 0 and the stand-ins alone; only the rig's pose and parent, the stand-ins' `alive`, the player's flags, the drone target, the mask, the volume and the switch may change, so the rig stays live and the stand-ins keep their poses; idle, nothing changes |
| `NpcPov.PovSwitcher.OnTeleport` | Assets/Scripts/XR/XRNPCPovSwitcher.cs:102-115 | while switched with a live viewpoint the return pose becomes the viewpoint's position with yaw-only rotation (`Teleported`); otherwise nothing changes |
| `NpcPov.PovSwitcher.Update` | Assets/Scripts/XR/XRNPCPovSwitcher.cs:117-125 | while switched with rig and viewpoint live and a main camera, only the rig's position moves, as `Rebased`; otherwise nothing changes |
| `NpcPov.PovSwitcher.OnDisable` | Assets/Scripts/XR/XRNPCPovSwitcher.cs:71-89 | a possession in progress is undone at once as `ExitAttempt`, destroying ghost and body when it completes; only the rig's pose and parent, the stand-ins' `alive`, the player's flags, the drone target, the mask and the switch may change, so the volume is untouched and the rig stays live; idle, nothing changes |
| `NpcPov.PovSwitcher.SwitchToNpcRoutine` | Assets/Scripts/XR/XRNPCPovSwitcher.cs:127-149 | the volume is saved, the switch is `Entered` with the stand-ins placed, and the saved volume is back at the end |
| `NpcPov.PovSwitcher.SwitchBackToPlayerRoutine` | Assets/Scripts/XR/XRNPCPovSwitcher.cs:202-222 | the switch is `ExitAttempt`; completed, the volume ends at the one saved on entry and the stand-ins are destroyed; broken, the routine stops with the volume at 0 |
| `NpcPov.PovSwitcher.SwitchToNpc` | Assets/Scripts/XR/XRNPCPovSwitcher.cs:151-200 | saves the rig's pose and parent, switches the player off, stages the drone decoy and the POV mask, places ghost and body on the saved pose, and ends switched |
| `NpcPov.PovSwitcher.LeavePlayer` | Assets/Scripts/XR/XRNPCPovSwitcher.cs:153-169 | the frame is saved (`SavedFrame`) and the player switched off (`Suspended`) |
| `NpcPov.PovSwitcher.SaveFrame` | Assets/Scripts/XR/XRNPCPovSwitcher.cs:153-156 | the saved pose and parent are the rig's current ones |
| `NpcPov.PovSwitcher.SuspendPlayer` | Assets/Scripts/XR/XRNPCPovSwitcher.cs:158-169 | controls, physics and visuals all follow `on` (`Suspended`) |
| `NpcPov.PovSwitcher.StageDecoys` | Assets/Scripts/XR/XRNPCPovSwitcher.cs:171-197 | drone target, remembered target, culling mask and saved mask become `Staged`; with a drone a fresh ghost stands on the saved position, with a body prefab a fresh body on the saved pose |
| `NpcPov.PovSwitcher.SwitchBackToPlayer` | Assets/Scripts/XR/XRNPCPovSwitcher.cs:224-262 | a destroyed rig throws at once and nothing changes; otherwise the frame is restored and the player forced on; then a destroyed viewpoint throws at :247, and a live one lets the drone target (if live) and the mask be restored, the stand-ins destroyed and the switch cleared; `completed` says which |
| `NpcPov.PovSwitcher.RestorePlayer` | Assets/Scripts/XR/XRNPCPovSwitcher.cs:226-244 | the frame is restored (`FrameRestored`) and the player switched on (`Suspended`) |
| `NpcPov.PovSwitcher.FinishExit` | Assets/Scripts/XR/XRNPCPovSwitcher.cs:246-261 | with a destroyed viewpoint nothing changes (the lookup throws); otherwise `StageRestored`, stand-ins destroyed, switch cleared |
| `NpcPov.PovSwitcher.RestoreStage` | Assets/Scripts/XR/XRNPCPovSwitcher.cs:246-259 | drone target and mask become `StageRestored`; ghost and body are destroyed |
| `NpcPov.PovSwitcher.RestoreFrame` | Assets/Scripts/XR/XRNPCPovSwitcher.cs:226-231 | re-parents to the saved parent when it is live, then puts the rig on the saved pose |
| `NpcPov.PovSwitcher.SetPhysics` | Assets/Scripts/XR/XRNPCPovSwitcher.cs:161-166 | an existing CharacterController follows `enabled`; an existing Rigidbody is kinematic exactly when physics is off |
| `NpcPov.PovSwitcher.RedirectDrone` | Assets/Scripts/XR/XRNPCPovSwitcher.cs:171-184 | with a drone, its target is remembered and replaced by a fresh ghost at the saved position; without one nothing changes |
| `NpcPov.PovSwitcher.SpawnBody` | Assets/Scripts/XR/XRNPCPovSwitcher.cs:186-190 | with a body prefab, a fresh stand-in at the saved pose; without one nothing changes |
| `NpcPov.PovSwitcher.SwapCullingMask` | Assets/Scripts/XR/XRNPCPovSwitcher.cs:192-197 | with a main camera, its mask is saved and the POV mask installed |
| `NpcPov.PovSwitcher.RestoreDroneTarget` | Assets/Scripts/XR/XRNPCPovSwitcher.cs:246-251 | the drone gets the remembered target back only when that target is live |
| `NpcPov.PovSwitcher.DestroyStandIns` | Assets/Scripts/XR/XRNPCPovSwitcher.cs:252-253 | ghost and body, when set, end destroyed |
| `NpcPov.PovSwitcher.RestoreCullingMask` | Assets/Scripts/XR/XRNPCPovSwitcher.cs:255-259 | with a main camera, the saved mask is put back |
| `NpcPov.PovSwitcher.SetVisuals` | Assets/Scripts/XR/XRNPCPovSwitcher.cs:264-271 | every assigned object to hide is set active or inactive, unassigned ones skipped (`WithAll`) |
| `NpcPov.PovSwitcher.SetPlayerControls` | Assets/Scripts/XR/XRNPCPovSwitcher.cs:273-282 | every assigned control script is enabled or disabled, unassigned ones skipped (`WithAll`) |
| `Playlist.Clamp` | Assets/Scripts/XR/XRAudioPlaylistPlayer.cs:122 | the result is within the bounds, equals the input inside them and the nearer bound outside |
| `Playlist.CsRem` | Assets/Scripts/XR/XRAudioPlaylistPlayer.cs:118 | C#'s remainder: the dividend less the result is a multiple of the divisor, and the result lies in [0, b) for a non-negative dividend and in (-b, 0] for a negative one |
| `Playlist.NextIndex` | Assets/Scripts/XR/XRAudioPlaylistPlayer.cs:70-76 | the next index is one more or 0, and in [0, n) for a non-empty list |
| `Playlist.AdvancedSplits` | Assets/Scripts/XR/XRAudioPlaylistPlayer.cs:67-80 | advancing a times then b times is advancing a + b times |
| `Playlist.AdvancedCountsUp` | Assets/Scripts/XR/XRAudioPlaylistPlayer.cs:70 | before the end of the list the index just counts up |
| `Playlist.AdvancedWraps` | Assets/Scripts/XR/XRAudioPlaylistPlayer.cs:73-76 | the step past the last track lands on the first |
| `Playlist.FullLapReturns` | Assets/Scripts/XR/XRAudioPlaylistPlayer.cs:67-80 | n advances return to the starting track and no fewer do: the playlist loops with period n |
| `Playlist.PitchForTrack` | Assets/Scripts/XR/XRAudioPlaylistPlayer.cs:107-123 | the computed pitch is always in [-3, 3] |
| `Playlist.DeterministicPitch` | Assets/Scripts/XR/XRAudioPlaylistPlayer.cs:116-120 | in deterministic mode the pitch depends on the track index only, not on the random draw |
| `Playlist.AppliedPitchSettles` | Assets/Scripts/XR/XRAudioPlaylistPlayer.cs:125-136 | an applied pitch ends on its target; it glides exactly when the smoothing time is positive and is set at once otherwise |
| `Playlist.PlaylistPlayer.constructor` | Assets/Scripts/XR/XRAudioPlaylistPlayer.cs:34 | the track index starts at 0 with no pitch glide |
| `Playlist.PlaylistPlayer.Start` | Assets/Scripts/XR/XRAudioPlaylistPlayer.cs:42-52 | looping off; with tracks the current one plays and its pitch and glide are `Applied(old pitch, TrackTarget, TrackSmoothing)`; an empty list leaves clip, pitch, glide and playing as they were |
| `Playlist.PlaylistPlayer.Update` | Assets/Scripts/XR/XRAudioPlaylistPlayer.cs:54-62 | when the list is non-empty and the source has stopped, the index becomes `NextIndex`, that track plays and its pitch and glide are `Applied(old pitch, TrackTarget, TrackSmoothing)` for the new index; otherwise nothing changes |
| `Playlist.PlaylistPlayer.PlayNextTrack` | Assets/Scripts/XR/XRAudioPlaylistPlayer.cs:67-80 | the index becomes `NextIndex` and stays valid; that track plays with pitch and glide `Applied(old pitch, TrackTarget, TrackSmoothing)`; with an empty list clip, pitch, glide and playing are untouched |
| `Playlist.PlaylistPlayer.PlayTrack` | Assets/Scripts/XR/XRAudioPlaylistPlayer.cs:86-105 | an out-of-range index changes nothing; otherwise its clip plays at the track's pitch, applied as `Applied` |
| `Playlist.PlaylistPlayer.ShifterOffPlaysBasePitch` | Assets/Scripts/XR/XRAudioPlaylistPlayer.cs:98-101 | with the shifter off a track plays at exactly the base pitch, set at once |
| `Playlist.PlaylistPlayer.ShifterOnStaysInRange` | Assets/Scripts/XR/XRAudioPlaylistPlayer.cs:93-97 | with the shifter on the pitch a track settles on is in [-3, 3] |
| `Playlist.PlaylistPlayer.ApplyPitch` | Assets/Scripts/XR/XRAudioPlaylistPlayer.cs:125-136 | a pending glide is cancelled; a positive smoothing time starts a new one, otherwise the pitch is set at once |
| `Playlist.PlaylistPlayer.FinishGlide` | Assets/Scripts/XR/XRAudioPlaylistPlayer.cs:148 | when a glide ends the pitch is on its target and nothing is pending |
| `Playlist.PlaylistPlayer.SetPitchImmediate` | Assets/Scripts/XR/XRAudioPlaylistPlayer.cs:154-159 | without a source nothing changes; otherwise the glide is cancelled and the clamped pitch set |
| `Playlist.PlaylistPlayer.SetPitchSmooth` | Assets/Scripts/XR/XRAudioPlaylistPlayer.cs:164-168 | without a source nothing changes; otherwise the clamped pitch is applied, so it settles in [-3, 3] |
| `GrabLabels.ShowThenHideFor` | Assets/Scripts/XR/GrabLabelManager.cs:50-77 | after object t shows the label, a hide from r hides it (no target, invisible, canvas off, offset kept) exactly when r == t in Unity's sense: the same object, or a null requester against a destroyed target; any other requester, including a different destroyed object, leaves the label showing t |
| `GrabLabels.ShowOverridesShow` | Assets/Scripts/XR/GrabLabelManager.cs:50-58 | a second Show replaces everything the first one set |
| `GrabLabels.HideIdempotent` | Assets/Scripts/XR/GrabLabelManager.cs:60-65 | hiding twice is hiding once |
| `GrabLabels.Registry.constructor` | Assets/Scripts/XR/GrabLabelManager.cs:8 | there is no manager instance at first |
| `GrabLabels.LabelManager.constructor` | Assets/Scripts/XR/GrabLabelManager.cs:18-31 | the offset starts at (0, 0.2, 0), with no target and invisible |
| `GrabLabels.LabelManager.Awake` | Assets/Scripts/XR/GrabLabelManager.cs:33-43 | a second manager destroys itself and leaves the instance alone; otherwise it becomes the instance with its canvas hidden |
| `GrabLabels.LabelManager.ShowAtStoredOffset` | Assets/Scripts/XR/GrabLabelManager.cs:45-48 | the two-argument Show is Show at the stored offset, snapped onto the target |
| `GrabLabels.LabelManager.Show` | Assets/Scripts/XR/GrabLabelManager.cs:50-58 | sets target, text, offset, visible and canvas (`Showing`), and snaps the label onto target position plus offset, leaving the surface it does not draw on where it was |
| `GrabLabels.LabelManager.SnapLabel` | Assets/Scripts/XR/GrabLabelManager.cs:85-99 | the canvas (world space) or else the panel sits exactly on target position plus offset; the other surface, or both without a panel, stay where they were |
| `GrabLabels.LabelManager.Hide` | Assets/Scripts/XR/GrabLabelManager.cs:60-65 | no target, invisible, canvas off (`Hidden`) |
| `GrabLabels.LabelManager.HideFor` | Assets/Scripts/XR/GrabLabelManager.cs:71-77 | hides only when the requester is the current target under Unity's `==` (the same object, or null against a destroyed one); otherwise nothing changes |
| `GrabLabels.LabelManager.LateUpdate` | Assets/Scripts/XR/GrabLabelManager.cs:79-100 | nothing when invisible or without a live target; otherwise canvas or panel moves one Lerp step toward target plus offset |
| `LabelBinding.DecisionTable` | Assets/Scripts/XR/GrabLabelBinder.cs:49-100 | both directions of each rule: grab shows iff GrabOnly or Both; release hides iff a grab mode unless Both is still hovered; hover shows iff a hover mode and not suppressed; exit hides iff a hover mode unless Both is still grabbed; no event both shows and hides |
| `LabelBinding.LabelFollowsInteraction` | Assets/Scripts/XR/GrabLabelBinder.cs:49-100 | while at most one interactor grabs and one hovers at a time, through any run of grab, release, hover and exit events with nothing suppressing, this object's last request to the shared label is a show exactly while it is grabbed in a grab mode or hovered in a hover mode; in Both mode that lasts until both have ended |
| `LabelBinding.NeverShownUnwanted` | Assets/Scripts/XR/GrabLabelBinder.cs:49-100 | with any number of interactors, once this object's label is no longer wanted (no grab in a grab mode, no hover in a hover mode) its last request is not a show |
| `LabelBinding.TwoInteractorsEndLabelEarly` | Assets/Scripts/XR/GrabLabelBinder.cs:57-100 | with two hovering (or two selecting) interactors, the first exit hides the label while the object is still hovered (or selected) |
| `LabelBinding.Suppressed` | Assets/Scripts/XR/GrabLabelBinder.cs:74-80 | finds a suppressor iff the list is assigned and some assigned entry is selected |
| `LabelBinding.LabelBinder.constructor` | Assets/Scripts/XR/GrabLabelBinder.cs:8-20 | keeps the mode, text, offset and own transform |
| `LabelBinding.LabelBinder.Perform` | Assets/Scripts/XR/GrabLabelBinder.cs:102-112 | with no live manager nothing changes; only the label's own fields change, so the instance stays installed; a show passes this object and snaps onto it; a hide names this object, leaves the placement, and never clears another object's label, nor, while this object is live, an empty one |
| `LabelBinding.LabelBinder.OnGrab` | Assets/Scripts/XR/GrabLabelBinder.cs:49-55 | in a grab mode the live manager shows this object's label and snaps it onto this object; otherwise nothing changes; the manager stays installed |
| `LabelBinding.LabelBinder.OnRelease` | Assets/Scripts/XR/GrabLabelBinder.cs:57-69 | the manager follows `ReleaseRequest`, stays installed, keeps the label's placement, and never loses another object's label |
| `LabelBinding.LabelBinder.OnHoverEnter` | Assets/Scripts/XR/GrabLabelBinder.cs:71-86 | in a hover mode with no selected suppressor the live manager shows this object's label and snaps it onto this object; otherwise nothing changes; the manager stays installed |
| `LabelBinding.LabelBinder.OnHoverExit` | Assets/Scripts/XR/GrabLabelBinder.cs:88-100 | the manager follows `HoverExitRequest`, stays installed, keeps the label's placement, and never loses another object's label |
| `CameraSwitching.LastSwitchWins` | Assets/Scripts/XR/XRCameraSwitcher.cs:57-79 | the two switches mirror each other and only the last one counts |
| `CameraSwitching.OneSideAtATime` | Assets/Scripts/XR/XRCameraSwitcher.cs:57-79 | with both cameras and listeners present exactly the chosen side renders and hears |
| `CameraSwitching.SidesIndependent` | Assets/Scripts/XR/XRCameraSwitcher.cs:59-65 | a missing camera or listener does not affect the other side |
| `CameraSwitching.CameraSwitcher.constructor` | Assets/Scripts/XR/XRCameraSwitcher.cs:13 | starts not switched |
| `CameraSwitching.CameraSwitcher.OnSwitchStart` | Assets/Scripts/XR/XRCameraSwitcher.cs:47-50 | switches to the target only when not already switched; otherwise nothing changes |
| `CameraSwitching.CameraSwitcher.OnSwitchEnd` | Assets/Scripts/XR/XRCameraSwitcher.cs:52-55 | switches back only when switched; otherwise nothing changes |
| `CameraSwitching.CameraSwitcher.OnDisable` | Assets/Scripts/XR/XRCameraSwitcher.cs:34-45 | a switched camera pair is always restored to the XR configuration |
| `CameraSwitching.CameraSwitcher.SwitchToTarget` | Assets/Scripts/XR/XRCameraSwitcher.cs:57-67 | XR camera and listener off, target camera and listener on, missing ones skipped; ends switched |
| `CameraSwitching.CameraSwitcher.SwitchToXR` | Assets/Scripts/XR/XRCameraSwitcher.cs:69-79 | the exact mirror; ends not switched |
| `Dialogue.Transcript` | Assets/Scripts/2DCharacter.cs:49-70 | k presses show k items, and press j shows what is under the cursor after the j presses before it |
| `Dialogue.FullConversation` | Assets/Scripts/2DCharacter.cs:54-69 | every line in order, then the close |
| `Dialogue.CursorInRange` | Assets/Scripts/2DCharacter.cs:54-69 | after any number of presses the cursor is in [0, n], and n + 1 more presses bring it back |
| `Dialogue.CursorLap` | Assets/Scripts/2DCharacter.cs:54-69 | from any cursor, the presses to the end, the close and i more presses land on i |
| `Dialogue.CountUp` | Assets/Scripts/2DCharacter.cs:56-61 | before the end each press moves the cursor one on |
| `Dialogue.PressesFollowCursor` | Assets/Scripts/NPCInteractable.cs:20-49 | NPCInteractable's presses move its cursor as the shared cursor rule does, and a press opens a line exactly when the cursor was on one, showing that line |
| `Dialogue.NoLinesOpensAndCloses` | Assets/Scripts/NPCInteractable.cs:24-29 | with no lines, any number of presses leave the dialogue closed, the panel hidden, the cursor at 0 and the text as it was |
| `Dialogue.RestOfConversation` | Assets/Scripts/2DCharacter.cs:54-69 | from any cursor the presses show the remaining lines in order, then close and rewind to 0 |
| `Dialogue.ConversationCycle` | Assets/Scripts/2DCharacter.cs:54-69 | n lines take n + 1 presses: all lines, the close, and back to the first |
| `Dialogue.Character.constructor` | Assets/Scripts/2DCharacter.cs:25-26 | out of range, cursor at 0 |
| `Dialogue.Character.Start` | Assets/Scripts/2DCharacter.cs:28-35 | the assigned dialogue and prompt panels are hidden |
| `Dialogue.Character.Update` | Assets/Scripts/2DCharacter.cs:37-47 | an E press in range with the panel and its text assigned moves the cursor by `NextCursor`, shows the line under the old cursor with the panel open, or closes the panel past the last line keeping the text; out of range, without a press or without the UI nothing changes |
| `Dialogue.Character.ShowNextDialogue` | Assets/Scripts/2DCharacter.cs:49-70 | nothing without panel or text; otherwise shows the line under the cursor and advances, or closes the panel and rewinds to 0 |
| `Dialogue.Character.OnTriggerEnter` | Assets/Scripts/2DCharacter.cs:72-84 | only the player counts: in range, prompt shown with its text |
| `Dialogue.Character.OnTriggerExit` | Assets/Scripts/2DCharacter.cs:86-95 | only the player counts: out of range, prompt and panel hidden, cursor 0 |
| `Dialogue.Interactable.constructor` | Assets/Scripts/NPCInteractable.cs:11-12 | cursor 0, dialogue inactive |
| `Dialogue.Interactable.Interact` | Assets/Scripts/NPCInteractable.cs:20-36 | nothing without panel or text; otherwise the press is `Pressed`: the first press opens the panel, and every press shows the line under the cursor or closes past the last |
| `Dialogue.Interactable.ShowNextLine` | Assets/Scripts/NPCInteractable.cs:38-49 | on an open dialogue, `Pressed`: shows the line under the cursor and advances, or closes and rewinds |
| `Dialogue.Interactable.CloseDialogue` | Assets/Scripts/NPCInteractable.cs:51-56 | panel hidden, dialogue over, cursor 0 |
| `DronePatrol.NextWaypoint` | Assets/Scripts/XR/DroneController.cs:65 | the next index is one more, or 0 past the last, and always a valid index |
| `DronePatrol.Route` | Assets/Scripts/XR/DroneController.cs:53-66 | k arrivals head for k waypoints, the j-th being the index the j arrivals before it have left |
| `DronePatrol.RestOfLap` | Assets/Scripts/XR/DroneController.cs:62-66 | from waypoint i the drone heads for i, i + 1, ..., n - 1 and then is back at 0 |
| `DronePatrol.PatrolLap` | Assets/Scripts/XR/DroneController.cs:62-66 | a lap of n arrivals visits every waypoint once, in order, and starts over |
| `DronePatrol.Drone.constructor` | Assets/Scripts/XR/DroneController.cs:26-27 | the index starts at 0, nothing scheduled |
| `DronePatrol.Drone.Start` | Assets/Scripts/XR/DroneController.cs:29-36 | the bomb cycle is scheduled only when both the prefab and the spawn point are set |
| `DronePatrol.Drone.DropBomb` | Assets/Scripts/XR/DroneController.cs:72-77 | one bomb appears at the spawn point's pose |
| `DronePatrol.Drone.Update` | Assets/Scripts/XR/DroneController.cs:38-45 | unassigned or empty waypoints: nothing moves; otherwise as MoveToNextWaypoint |
| `DronePatrol.Drone.MoveToNextWaypoint` | Assets/Scripts/XR/DroneController.cs:47-67 | the drone moves; on arrival (distance below 0.1) the index advances modulo the count, otherwise it stays; it stays a valid index |
| `Factions.Zone.constructor` | Assets/Scripts/XR/XRFactionZone.cs:3-6 | a zone keeps its faction |
| `Factions.EnterThenLeave` | Assets/Scripts/XR/XRFactionObject.cs:29-45 | entering a zone makes it current, a collider without a zone is ignored, and leaving the current zone clears it |
| `Factions.OverlappingZones` | Assets/Scripts/XR/XRFactionObject.cs:34-44 | leaving a zone that is not current changes nothing, so after A then B, leaving A keeps B |
| `Factions.ReleaseAfterMoves` | Assets/Scripts/XR/XRFactionObject.cs:29-58 | no reaction outside a zone or in a zone of the object's own faction; right after entering a zone a release reacts iff that zone belongs to another faction, and right after leaving it never |
| `Factions.FactionObject.constructor` | Assets/Scripts/XR/XRFactionObject.cs:11-12 | no current zone at first |
| `Factions.FactionObject.OnTriggerEnter` | Assets/Scripts/XR/XRFactionObject.cs:29-36 | the current zone becomes `Entered` |
| `Factions.FactionObject.OnTriggerExit` | Assets/Scripts/XR/XRFactionObject.cs:38-45 | the current zone becomes `Left` |
| `Factions.FactionObject.OnReleased` | Assets/Scripts/XR/XRFactionObject.cs:47-58 | the drone model swaps to the object's faction exactly when the current zone belongs to another faction; otherwise no model changes |
| `Factions.FactionObject.TriggerDroneReaction` | Assets/Scripts/XR/XRFactionObject.cs:60-76 | with a drone that has a swapper the models swap to `f`; otherwise nothing changes |
| `DroneModels.SwapShowsExactlySelected` | Assets/Scripts/XR/XRDroneModelSwapper.cs:23-49 | after a swap only the selected model can be active, and it is iff assigned: at most one active, none if the selected slot is empty |
| `DroneModels.SwapDependsOnlyOnFaction` | Assets/Scripts/XR/XRDroneModelSwapper.cs:25-46 | the last swap decides, so swapping twice to the same faction is swapping once |
| `DroneModels.ModelSwapper.constructor` | Assets/Scripts/XR/XRDroneModelSwapper.cs:5-15 | keeps the four model references |
| `DroneModels.ModelSwapper.SwapModel` | Assets/Scripts/XR/XRDroneModelSwapper.cs:23-49 | each assigned model ends active exactly when it is the faction's own (default for any other faction); with four distinct objects this is `Swapped` |
| `Highlighting.Highlighted` | Assets/Scripts/XR/XRUniversalHighlight.cs:21-26 | same length; untouched without a highlight material, else every entry is it |
| `Highlighting.HighlightIdempotent` | Assets/Scripts/XR/XRUniversalHighlight.cs:21-26 | highlighting twice is highlighting once |
| `Highlighting.Highlighter.constructor` | Assets/Scripts/XR/XRUniversalHighlight.cs:6-11 | keeps the material and the children flag |
| `Highlighting.Highlighter.Awake` | Assets/Scripts/XR/XRUniversalHighlight.cs:13-19 | takes the renderers of the object or of its children and remembers one material per renderer, same order and length, in a new array |
| `Highlighting.Highlighter.SetHighlight` | Assets/Scripts/XR/XRUniversalHighlight.cs:21-26 | no highlight material: nothing changes; otherwise every renderer gets it; the snapshot is untouched |
| `Highlighting.Highlighter.ClearHighlight` | Assets/Scripts/XR/XRUniversalHighlight.cs:28-32 | every renderer is back on its remembered material, whatever happened before; the snapshot is untouched, so clearing again changes nothing |
| `Doors.TargetIgnoresCurrentYaw` | Assets/Scripts/DoorInteraction.cs:26-27 | the target does not depend on the current yaw; with distinct angles its yaw is the open angle iff the door is open |
| `Doors.InteractionParity` | Assets/Scripts/DoorInteraction.cs:23-28 | after any number of interactions, wherever the swing had got to, the door is open iff its start state differs from the count's parity, and it aims at that state's yaw with the tilt of the last interaction |
| `Doors.Door.constructor` | Assets/Scripts/DoorInteraction.cs:10 | the door starts closed |
| `Doors.Door.Start` | Assets/Scripts/DoorInteraction.cs:13-16 | the target is the door's current rotation |
| `Doors.Door.Interact` | Assets/Scripts/DoorInteraction.cs:23-28 | the door flips open/closed and aims at that state's yaw keeping its pitch and roll (`Interacted`) |
| `Pickups.Click` | Assets/Scripts/ClickablePickup.cs:14-26 | a click keeps the number of items |
| `Pickups.CountAfterUpdate` | Assets/Scripts/ClickablePickup.cs:30-39 | setting one item's flag changes the picked count by that flag's change |
| `Pickups.NoneCounted` | Assets/Scripts/ClickablePickup.cs:11-12 | a zero count means no item is picked |
| `Pickups.TwoCounted` | Assets/Scripts/ClickablePickup.cs:11-12 | two picked items count at least two |
| `Pickups.CountAtLeastOne` | Assets/Scripts/ClickablePickup.cs:11-12 | a picked item counts |
| `Pickups.ClickKeepsConsistent` | Assets/Scripts/ClickablePickup.cs:16-40 | every click keeps anyPicked true iff exactly one item is picked, false iff none |
| `Pickups.AtMostOneHeld` | Assets/Scripts/ClickablePickup.cs:12-16 | under that invariant no two items are held at once, and a held item sets the flag |
| `Pickups.ClickRefusedWhileHeld` | Assets/Scripts/ClickablePickup.cs:16 | clicking an unpicked item while another is held does nothing |
| `Pickups.PickUpThenDrop` | Assets/Scripts/ClickablePickup.cs:28-44 | from nothing held, pick up then click again restores every flag |
| `Pickups.Shared.constructor` | Assets/Scripts/ClickablePickup.cs:12 | nothing is picked at first |
| `Pickups.PickupItem.constructor` | Assets/Scripts/ClickablePickup.cs:11 | the item starts not picked |
| `Pickups.PickupItem.OnMouseDown` | Assets/Scripts/ClickablePickup.cs:14-26 | over all the items the click is `Click`; a pick up shows the display, a drop hides it, a refused click leaves it |
| `Pickups.PickupItem.Pickup` | Assets/Scripts/ClickablePickup.cs:28-35 | held, shared flag set, display shown |
| `Pickups.PickupItem.Drop` | Assets/Scripts/ClickablePickup.cs:37-44 | not held, shared flag cleared, display hidden |
| `Scene.Lerp` | Assets/Scripts/XR/GrabLabelManager.cs:92 | Vector3.Lerp clamps its parameter: at or below 0 the start, at or above 1 the end |

## Left out

- Input wiring (InputAction subscriptions in OnEnable and OnDisable, grab and hover listeners, `Input.GetKeyDown`, tags on colliders): each event is a method, and a key press or the player tag is a parameter.
- The coroutines' time-based fades and their interleaving. The POV routines keep only the end points: the volume is 0 during the switch and the saved pre-possession volume afterwards. Each routine and each switch runs as one step, so overlapping routines cannot race in the model.
- `SmoothPitchTo` (XRAudioPlaylistPlayer.cs:138-149): a glide is its target and time; `FinishGlide` is its last step. The intermediate Lerp frames are not modelled.
- Floating point: positions, angles, volumes and pitches are reals without rounding.
- Quaternion math: rotations are Euler triples. `eulerAngles` normalisation to [0, 360) is not modelled. `Quaternion.Slerp` in DoorInteraction.Update, `LookAt` in the drone and 2D character, and the label's `LookRotation` billboard are left out.
- `Vector3.MoveTowards` in the drone: the position it returns is a parameter of `Update`. The waypoints are given by their fixed positions.
- `SetParent(..., true)` keeps the world pose. The rig's pose is overwritten right after, so only the parent reference is modelled.
- Engine components the POV switcher flips (control scripts, objects to hide, CharacterController, Rigidbody, the drone's target, the main camera's culling mask) are values held by the switcher. The model does not capture other scripts changing the same components, or aliasing between them.
- `Instantiate` and `Destroy` are fresh objects and a cleared `alive` flag. A second GrabLabelManager that destroys itself is `destroyed`. The bomb prefab's own behaviour (XRBomb) is not modelled.
- `Random.value` in ComputePitchForTrack is the parameter `rnd`.
- Sounds and debug log lines.
- Inspector fields are constants fixed at construction. Changing them at run time is not modelled.
- A null reference that the code dereferences without a check is a `requires` or a non-null type: DropBomb's prefab and spawn point, NPCInteractable's panel in ShowNextLine and CloseDialogue, the pickup display, the door's own transform, the waypoint array in MoveToNextWaypoint, and the AudioSource required by the playlist.
- NPCInteractable's hover hint (`ShowHover`, `UIManager`) and its `interactionMode`, which the InteractableBase it derives from does not declare; only its dialogue cursor is modelled.
- XRDroneKamikaze and FactionType are not part of this model. The drone lookup is an injected reference to the drone's model swapper. The faction enumeration is TypeA, TypeB, TypeC and any other member.
- A destroyed faction zone: the current zone is compared by reference only.
- `Pickups.PickupItem.OnMouseDown` relates the click to `Click` over a list of all items that the caller names. The static flag is a shared object that every item holds.
- `Dialogue.Character.Update`: the billboard `LookAt` is not modelled.
- Both overloads of `GrabLabelManager.Show` use the snapped placement. LateUpdate's step is Lerp with parameter `t` = frame time × follow speed.
- Destroyed objects count as present wherever the model tests only whether a reference is assigned, not `Live`: XRCameraSwitcher's cameras and listeners, XRDroneModelSwapper's four models, XRUniversalHighlight's highlight material (`!highlightMaterial` at XRUniversalHighlight.cs:23), and the UI references of the dialogue scripts.
- Highlighting.Highlighter.constructor: the renderer arrays start empty, so SetHighlight and ClearHighlight before Awake change nothing. In the code, `renderers` is null until Awake, and calling them earlier throws.
- OnPovStart: a second hold-start during the entry fade-out is not modelled. The code sets `isSwitchedToNpc` only after the fade, so it would start a second routine that saves the rebased pose and remembers the first ghost as the drone's target. Each routine is one step here.
- LabelBinding.LabelFollowsInteraction: the run lemmas follow one object's own requests. The manager has one label for all objects, and another object's show takes it over (GrabLabelManager.cs:52) while this object's last request is still a show; what is on screen is `Showing` of the latest request, stated by the manager's methods. Also, "shown exactly while wanted" is proved only while at most one interactor grabs and at most one hovers the object. With two, the code hides the label on the first exit while the object is still hovered or selected (`TwoInteractorsEndLabelEarly`). For any number of interactors only the one direction `NeverShownUnwanted` holds.
