/** GrabLabelManager: the one world-space label of the scene, shown over the
    object that asked for it and hidden only by that object. */
module GrabLabels {
  import opened Scene

  /** What the label shows and where: the object it follows, whether it is
      visible, the offset above the object, the text, and whether the canvas
      game object is active. */
  datatype Label = Label(target: Transform?, visible: bool, offset: Vec3, text: string, canvasActive: bool)

  /** Show: follow `target` with `text` at `offset`, visible. The text and the
      canvas are only touched when the label has them (`hasText`,
      `hasCanvas`). */
  function Showing(l: Label, target: Transform, text: string, offset: Vec3, hasText: bool, hasCanvas: bool): Label
  {
    Label(target, true, offset, if hasText then text else l.text, hasCanvas || l.canvasActive)
  }

  /** Hide(): no target, not visible, canvas off when there is one. */
  function Hidden(l: Label, hasCanvas: bool): Label
  {
    l.(target := null, visible := false, canvasActive := !hasCanvas && l.canvasActive)
  }

  /** Hide(requester): hides only when the requester is the current target
      (`same`, Unity's `==` on the two objects). */
  function HiddenFor(l: Label, same: bool, hasCanvas: bool): Label
  {
    if same then Hidden(l, hasCanvas) else l
  }

  /** After object `t` shows the label, a hide request from `r` hides it
      exactly when `r` is `t` by Unity's `==`: then nothing is followed and
      the label is invisible; any other requester leaves the label showing
      `t`. A null requester hides a label whose target was destroyed; a
      different object never does, destroyed or not. */
  lemma ShowThenHideFor(l: Label, t: Transform, r: Transform?, text: string, offset: Vec3,
                        hasText: bool, hasCanvas: bool)
    ensures var shown := Showing(l, t, text, offset, hasText, hasCanvas);
      var h := HiddenFor(shown, SameObject(shown.target, r), hasCanvas);
      && (h.target == null <==> SameObject(t, r))
      && (h.visible <==> !SameObject(t, r))
      && (SameObject(t, r) ==> (hasCanvas ==> !h.canvasActive) && h.offset == offset)
      && (!SameObject(t, r) ==> h == shown)
      && (r == t ==> h.target == null)
      && (!Live(t) && r == null ==> h.target == null)
      && (r != null && r != t ==> h == shown)
  {
  }

  /** Showing is last-writer-wins: a second Show replaces everything the
      first one set. */
  lemma ShowOverridesShow(l: Label, t1: Transform, s1: string, o1: Vec3, t2: Transform, s2: string, o2: Vec3,
                          hasText: bool, hasCanvas: bool)
    ensures Showing(Showing(l, t1, s1, o1, hasText, hasCanvas), t2, s2, o2, hasText, hasCanvas)
         == Showing(l, t2, s2, o2, hasText, hasCanvas)
  {
  }

  /** Hiding twice is hiding once. */
  lemma HideIdempotent(l: Label, hasCanvas: bool)
    ensures Hidden(Hidden(l, hasCanvas), hasCanvas) == Hidden(l, hasCanvas)
  {
  }

  /** The static `GrabLabelManager.Instance`. */
  class Registry {
    var instance: LabelManager?

    constructor ()
      ensures instance == null
    {
      instance := null;
    }
  }

  /** Unity's `!= null` on the instance: set and not destroyed. */
  predicate Installed(m: LabelManager?)
    reads m
  {
    m != null && !m.destroyed
  }

  class LabelManager {
    const registry: Registry
    // Which inspector references are assigned, and the canvas's render mode.
    const hasCanvas: bool
    const worldSpace: bool
    const hasPanel: bool
    const hasLabelText: bool
    const followSpeed: real

    var targetOffset: Vec3
    var currentTarget: Transform?
    var visible: bool
    var text: string            // labelText.text
    var canvasActive: bool      // worldCanvas.gameObject.activeSelf
    var canvasPosition: Vec3    // worldCanvas.transform.position
    var panelPosition: Vec3     // labelPanel.position
    var destroyed: bool         // Destroy(gameObject) was called

    /** The label as a value. */
    ghost function State(): Label
      reads this`currentTarget, this`visible, this`targetOffset, this`text, this`canvasActive
    {
      Label(currentTarget, visible, targetOffset, text, canvasActive)
    }

    /** Where the label is drawn: the world-space canvas, else the panel. */
    predicate OnCanvas() {
      hasCanvas && worldSpace
    }

    constructor (r: Registry, canvas: bool, world: bool, panel: bool, labelText: bool, speed: real)
      ensures registry == r && hasCanvas == canvas && worldSpace == world
      ensures hasPanel == panel && hasLabelText == labelText && followSpeed == speed
      ensures targetOffset == Vec3(0.0, 0.2, 0.0) && currentTarget == null && !visible && !destroyed
      ensures canvasActive
    {
      registry, hasCanvas, worldSpace, hasPanel, hasLabelText, followSpeed := r, canvas, world, panel, labelText, speed;
      targetOffset := Vec3(0.0, 0.2, 0.0);
      currentTarget, visible, text := null, false, "";
      canvasActive, canvasPosition, panelPosition, destroyed := true, Origin, Origin, false;
    }

    /** Awake: a second manager destroys itself and leaves the instance
        alone; otherwise this one becomes the instance, its canvas hidden. */
    method Awake()
      modifies registry`instance, this`destroyed, this`canvasActive
      ensures old(Installed(registry.instance)) && old(registry.instance) != this ==>
        destroyed && registry.instance == old(registry.instance) && canvasActive == old(canvasActive)
      ensures !(old(Installed(registry.instance)) && old(registry.instance) != this) ==>
        registry.instance == this && destroyed == old(destroyed) && canvasActive == (!hasCanvas && old(canvasActive))
    {
      if registry.instance != null && !registry.instance.destroyed && registry.instance != this {
        destroyed := true;
        return;
      }
      registry.instance := this;
      if hasCanvas {
        canvasActive := false;
      }
    }

    /** Show(target, text): the three-argument Show with the stored offset. */
    method ShowAtStoredOffset(target: Transform, t: string)
      modifies this`currentTarget, this`text, this`targetOffset, this`canvasActive, this`visible
      modifies this`canvasPosition, this`panelPosition
      ensures State() == Showing(old(State()), target, t, old(targetOffset), hasLabelText, hasCanvas)
      ensures SnappedOnto(target.position)
    {
      Show(target, t, targetOffset);
    }

    /** The label sits exactly on the target position plus the offset, on
        the canvas or, without a world-space canvas, on the panel. */
    ghost predicate Snapped(targetPosition: Vec3)
      reads this`canvasPosition, this`panelPosition, this`targetOffset
    {
      && (OnCanvas() ==> canvasPosition == targetPosition.Plus(targetOffset))
      && (!OnCanvas() && hasPanel ==> panelPosition == targetPosition.Plus(targetOffset))
    }

    /** Snapped onto `targetPosition`, and the surface not drawn on (the
        panel when the world-space canvas is used, the canvas otherwise)
        left where it was. */
    twostate predicate SnappedOnto(targetPosition: Vec3)
      reads this`canvasPosition, this`panelPosition, this`targetOffset
    {
      && Snapped(targetPosition)
      && (!OnCanvas() ==> canvasPosition == old(canvasPosition))
      && (OnCanvas() || !hasPanel ==> panelPosition == old(panelPosition))
    }

    /** The label's placement is as it was. */
    twostate predicate StayedPut()
      reads this`canvasPosition, this`panelPosition
    {
      canvasPosition == old(canvasPosition) && panelPosition == old(panelPosition)
    }

    /** Show(target, text, offset): follow the target, visible, and snap the
        label onto it at once. */
    method Show(target: Transform, t: string, offset: Vec3)
      modifies this`currentTarget, this`text, this`targetOffset, this`canvasActive, this`visible
      modifies this`canvasPosition, this`panelPosition
      ensures State() == Showing(old(State()), target, t, offset, hasLabelText, hasCanvas)
      ensures SnappedOnto(target.position)
    {
      currentTarget := target;
      if hasLabelText {
        text := t;
      }
      targetOffset := offset;
      if hasCanvas {
        canvasActive := true;
      }
      visible := true;
      SnapLabel(target.position);
    }

    /** UpdateLabelPosition(snap: true), given the target's position. */
    method SnapLabel(targetPosition: Vec3)
      modifies this`canvasPosition, this`panelPosition
      ensures SnappedOnto(targetPosition)
    {
      var worldPos := targetPosition.Plus(targetOffset);
      if OnCanvas() {
        canvasPosition := worldPos;
      } else if hasPanel {
        panelPosition := worldPos;
      }
    }

    /** Hide(): nothing to follow, invisible, canvas off. */
    method Hide()
      modifies this`visible, this`currentTarget, this`canvasActive
      ensures State() == Hidden(old(State()), hasCanvas)
    {
      visible := false;
      currentTarget := null;
      if hasCanvas {
        canvasActive := false;
      }
    }

    /** Hide(requester): only the current target may hide the label. Unity's
        `==` also holds between a null reference and a destroyed object. */
    method HideFor(requester: Transform?)
      modifies this`visible, this`currentTarget, this`canvasActive
      ensures State() == HiddenFor(old(State()), old(SameObject(currentTarget, requester)), hasCanvas)
    {
      if SameObject(currentTarget, requester) {
        Hide();
      }
    }

    /** LateUpdate: while visible with a live target, the label moves a step
        `t` (Time.deltaTime times followSpeed) of the way to the target
        position plus the offset; otherwise nothing happens. Facing the
        camera is not modelled. */
    method LateUpdate(t: real)
      modifies this`canvasPosition, this`panelPosition
      ensures !visible || !Live(currentTarget) ==> unchanged(this)
      ensures visible && Live(currentTarget) && OnCanvas() ==>
        canvasPosition == Lerp(old(canvasPosition), currentTarget.position.Plus(targetOffset), t)
      ensures visible && Live(currentTarget) && !OnCanvas() && hasPanel ==>
        panelPosition == Lerp(old(panelPosition), currentTarget.position.Plus(targetOffset), t)
    {
      if !visible || !Live(currentTarget) {
        return;
      }
      var worldPos := currentTarget.position.Plus(targetOffset);
      if OnCanvas() {
        canvasPosition := Lerp(canvasPosition, worldPos, t);
      } else if hasPanel {
        panelPosition := Lerp(panelPosition, worldPos, t);
      }
    }
  }
}
