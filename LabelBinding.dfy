/** GrabLabelBinder: decides, per interaction event of one grabbable object,
    whether to show or hide that object's label on the shared manager. */
module LabelBinding {
  import opened Scene
  import opened GrabLabels

  /** When the label of an object appears. */
  datatype InteractionMode = GrabOnly | HoverOnly | Both

  /** What an event asks of the manager. */
  datatype Request = Keep | ShowOwn | HideOwn

  /** Whether grabbing counts for this mode. */
  predicate OnGrabs(m: InteractionMode) { m == GrabOnly || m == Both }

  /** Whether hovering counts for this mode. */
  predicate OnHovers(m: InteractionMode) { m == HoverOnly || m == Both }

  /** OnGrab. */
  function GrabRequest(m: InteractionMode): Request
  {
    if OnGrabs(m) then ShowOwn else Keep
  }

  /** OnRelease: in Both mode a release while still hovered keeps the label. */
  function ReleaseRequest(m: InteractionMode, isHovered: bool): Request
  {
    if m == Both && isHovered then Keep
    else if OnGrabs(m) then HideOwn else Keep
  }

  /** OnHoverEnter: a selected linked interactable suppresses the label. */
  function HoverEnterRequest(m: InteractionMode, suppressed: bool): Request
  {
    if suppressed then Keep
    else if OnHovers(m) then ShowOwn else Keep
  }

  /** OnHoverExit: in Both mode an exit while still grabbed keeps the label. */
  function HoverExitRequest(m: InteractionMode, isSelected: bool): Request
  {
    if m == Both && isSelected then Keep
    else if OnHovers(m) then HideOwn else Keep
  }

  /** The decision table, both ways: a grab shows exactly in the grab
      modes; a release hides exactly in the grab modes unless Both is still
      hovered; a hover shows exactly in the hover modes when nothing
      suppresses it; an exit hides exactly in the hover modes unless Both is
      still grabbed. No event ever shows and hides at once. */
  lemma DecisionTable(m: InteractionMode, hovered: bool, selected: bool, suppressed: bool)
    ensures GrabRequest(m) == ShowOwn <==> OnGrabs(m)
    ensures GrabRequest(m) != HideOwn
    ensures ReleaseRequest(m, hovered) == HideOwn <==> OnGrabs(m) && !(m == Both && hovered)
    ensures ReleaseRequest(m, hovered) != ShowOwn
    ensures HoverEnterRequest(m, suppressed) == ShowOwn <==> OnHovers(m) && !suppressed
    ensures HoverEnterRequest(m, suppressed) != HideOwn
    ensures HoverExitRequest(m, selected) == HideOwn <==> OnHovers(m) && !(m == Both && selected)
    ensures HoverExitRequest(m, selected) != ShowOwn
  {
  }

  /** The interaction events of the grabbable object. */
  datatype Event = SelectEntered | SelectExited | HoverEntered | HoverExited

  /** What the object's binder sees and has asked for: how many interactors
      select and hover the object (XRGrabInteractable's interactorsSelecting
      and interactorsHovering; its isSelected and isHovered are these being
      non-zero, already updated when the event fires), and whether its own
      last request to the shared label was a show. Another object's show
      takes the shared label over without changing this flag. */
  datatype Presence = Presence(selecting: nat, hovering: nat, shown: bool)

  /** One interactor fewer; the toolkit sends an exit only for an
      interactor that entered, so the count is never below zero. */
  function Fewer(c: nat): nat
  {
    if c == 0 then 0 else c - 1
  }

  /** The effect of a request on whether this object's label is shown. */
  function ShownAfter(shown: bool, req: Request): bool
  {
    match req
    case Keep => shown
    case ShowOwn => true
    case HideOwn => false
  }

  /** One event of one interactor, with nothing suppressing the hover label. */
  function Step(m: InteractionMode, p: Presence, e: Event): Presence
  {
    match e
    case SelectEntered =>
      Presence(p.selecting + 1, p.hovering, ShownAfter(p.shown, GrabRequest(m)))
    case SelectExited =>
      Presence(Fewer(p.selecting), p.hovering, ShownAfter(p.shown, ReleaseRequest(m, p.hovering > 0)))
    case HoverEntered =>
      Presence(p.selecting, p.hovering + 1, ShownAfter(p.shown, HoverEnterRequest(m, false)))
    case HoverExited =>
      Presence(p.selecting, Fewer(p.hovering), ShownAfter(p.shown, HoverExitRequest(m, p.selecting > 0)))
  }

  /** A run of events. */
  function Run(m: InteractionMode, p: Presence, es: seq<Event>): Presence
    decreases |es|
  {
    if es == [] then p else Run(m, Step(m, p, es[0]), es[1..])
  }

  /** The label this mode asks for: shown while grabbed in a grab mode or
      while hovered in a hover mode. */
  predicate Wanted(m: InteractionMode, p: Presence)
  {
    (OnGrabs(m) && p.selecting > 0) || (OnHovers(m) && p.hovering > 0)
  }

  /** Whether, from `p` on through the run, at most one interactor selects
      and at most one hovers the object at any time. */
  predicate OneAtATime(m: InteractionMode, p: Presence, es: seq<Event>)
    decreases |es|
  {
    p.selecting <= 1 && p.hovering <= 1
    && (es != [] ==> OneAtATime(m, Step(m, p, es[0]), es[1..]))
  }

  /** However many interactors take part, the binder never leaves its label
      shown once it is no longer wanted: every event that ends the last grab
      or hover a mode cares about hides it. */
  lemma {:induction false} NeverShownUnwanted(m: InteractionMode, p: Presence, es: seq<Event>)
    requires p.shown ==> Wanted(m, p)
    ensures Run(m, p, es).shown ==> Wanted(m, Run(m, p, es))
    decreases |es|
  {
    if es != [] {
      var q := Step(m, p, es[0]);
      assert q.shown ==> Wanted(m, q);
      NeverShownUnwanted(m, q, es[1..]);
    }
  }

  /** With one interactor at a time, the binder's last request is a show
      exactly while it is wanted: in Both mode it survives whichever of grab
      and hover ends first and goes when the second one ends. */
  lemma {:induction false} LabelFollowsInteraction(m: InteractionMode, p: Presence, es: seq<Event>)
    requires OneAtATime(m, p, es)
    requires p.shown == Wanted(m, p)
    ensures Run(m, p, es).shown == Wanted(m, Run(m, p, es))
    decreases |es|
  {
    if es != [] {
      var q := Step(m, p, es[0]);
      assert q.shown == Wanted(m, q);
      LabelFollowsInteraction(m, q, es[1..]);
    }
  }

  /** With two interactors the label goes too early: in HoverOnly mode, when
      one of two hovering interactors leaves, the label is hidden while the
      object is still hovered; in GrabOnly mode the same happens when one of
      two selecting interactors lets go. */
  lemma TwoInteractorsEndLabelEarly()
    ensures var p := Run(HoverOnly, Presence(0, 0, false), [HoverEntered, HoverEntered, HoverExited]);
      p.hovering == 1 && Wanted(HoverOnly, p) && !p.shown
    ensures var p := Run(GrabOnly, Presence(0, 0, false), [SelectEntered, SelectEntered, SelectExited]);
      p.selecting == 1 && Wanted(GrabOnly, p) && !p.shown
  {
  }

  /** Whether some assigned linked interactable is selected. */
  predicate AnySelected(linked: seq<Slot>)
  {
    exists i :: 0 <= i < |linked| && linked[i] == Present(true)
  }

  /** The suppression scan: the list itself may be unassigned; unassigned
      entries are skipped; the first selected one stops the scan. */
  method Suppressed(suppressIfGrabbed: Option<seq<Slot>>) returns (found: bool)
    ensures found <==> suppressIfGrabbed.Some? && AnySelected(suppressIfGrabbed.value)
  {
    if suppressIfGrabbed.None? {
      return false;
    }
    var linked := suppressIfGrabbed.value;
    var i := 0;
    while i < |linked|
      invariant 0 <= i <= |linked|
      invariant forall k :: 0 <= k < i ==> linked[k] != Present(true)
    {
      if linked[i].Present? && linked[i].on {
        return true;
      }
      i := i + 1;
    }
    return false;
  }

  class LabelBinder {
    const showMode: InteractionMode
    const labelText: string
    const labelOffset: Vec3
    // This object's transform, and where the static manager instance lives.
    const self: Transform
    const registry: Registry

    constructor (mode: InteractionMode, t: string, offset: Vec3, own: Transform, r: Registry)
      ensures showMode == mode && labelText == t && labelOffset == offset && self == own && registry == r
    {
      showMode, labelText, labelOffset, self, registry := mode, t, offset, own, r;
    }

    /** The manager's label after `req`: its own transform as target with its
        text and offset, or hidden only when this object is the target. */
    ghost function After(l: Label, req: Request, m: LabelManager, same: bool): Label
    {
      match req
      case Keep => l
      case ShowOwn => Showing(l, self, labelText, labelOffset, m.hasLabelText, m.hasCanvas)
      case HideOwn => HiddenFor(l, same, m.hasCanvas)
    }

    /** The manager instance, when there is one. */
    ghost function Instance(): set<LabelManager>
      reads registry`instance
    {
      if registry.instance == null then {} else {registry.instance}
    }

    /** Carry out a request on the manager instance, if there is one. Only
        the label's own fields change; the instance stays installed. The
        hide request names this object, so it never takes the label away
        from another object, nor, while this object is live, hides a label
        that follows nothing. */
    method Perform(req: Request)
      modifies Instance()`currentTarget, Instance()`visible, Instance()`text, Instance()`targetOffset
      modifies Instance()`canvasActive, Instance()`canvasPosition, Instance()`panelPosition
      ensures var m := registry.instance; !old(Installed(m)) || req == Keep ==> m != null ==> unchanged(m)
      ensures var m := registry.instance; old(Installed(m)) ==>
        m.State() == After(old(m.State()), req, m, old(SameObject(m.currentTarget, self)))
      ensures var m := registry.instance; old(Installed(m)) && req == ShowOwn ==> m.SnappedOnto(self.position)
      ensures var m := registry.instance; m != null && req != ShowOwn ==> m.StayedPut()
      ensures var m := registry.instance;
        (old(Installed(m)) && req == HideOwn && old(m.currentTarget) != self
         && (old(m.currentTarget) != null || old(self.alive)))
        ==> m.State() == old(m.State())
    {
      var m := registry.instance;
      if m != null && !m.destroyed {
        match req
        case Keep =>
        case ShowOwn => m.Show(self, labelText, labelOffset);
        case HideOwn => m.HideFor(self);
      }
    }

    method OnGrab()
      modifies Instance()`currentTarget, Instance()`visible, Instance()`text, Instance()`targetOffset
      modifies Instance()`canvasActive, Instance()`canvasPosition, Instance()`panelPosition
      ensures var m := registry.instance; !old(Installed(m)) || !OnGrabs(showMode) ==> m != null ==> unchanged(m)
      ensures var m := registry.instance; old(Installed(m)) && OnGrabs(showMode) ==>
        m.State() == Showing(old(m.State()), self, labelText, labelOffset, m.hasLabelText, m.hasCanvas)
        && m.SnappedOnto(self.position)
    {
      Perform(GrabRequest(showMode));
    }

    /** `isHovered` is the grab interactable's hover state at release. */
    method OnRelease(isHovered: bool)
      modifies Instance()`currentTarget, Instance()`visible, Instance()`text, Instance()`targetOffset
      modifies Instance()`canvasActive, Instance()`canvasPosition, Instance()`panelPosition
      ensures var m := registry.instance; !old(Installed(m)) || ReleaseRequest(showMode, isHovered) == Keep ==> m != null ==> unchanged(m)
      ensures var m := registry.instance; old(Installed(m)) ==>
        m.State() == After(old(m.State()), ReleaseRequest(showMode, isHovered), m,
                           old(SameObject(m.currentTarget, self)))
      ensures var m := registry.instance; m != null ==> m.StayedPut()
      ensures var m := registry.instance;
        old(Installed(m)) && old(m.currentTarget) != self && (old(m.currentTarget) != null || old(self.alive))
        ==> m.State() == old(m.State())
    {
      Perform(ReleaseRequest(showMode, isHovered));
    }

    /** `suppressIfGrabbed` gives the selected flags of the linked
        interactables at this moment. */
    method OnHoverEnter(suppressIfGrabbed: Option<seq<Slot>>)
      modifies Instance()`currentTarget, Instance()`visible, Instance()`text, Instance()`targetOffset
      modifies Instance()`canvasActive, Instance()`canvasPosition, Instance()`panelPosition
      ensures var m := registry.instance;
        !old(Installed(m)) || !OnHovers(showMode) || (suppressIfGrabbed.Some? && AnySelected(suppressIfGrabbed.value))
        ==> m != null ==> unchanged(m)
      ensures var m := registry.instance;
        old(Installed(m)) && OnHovers(showMode) && !(suppressIfGrabbed.Some? && AnySelected(suppressIfGrabbed.value)) ==>
        m.State() == Showing(old(m.State()), self, labelText, labelOffset, m.hasLabelText, m.hasCanvas)
        && m.SnappedOnto(self.position)
    {
      var suppressed := Suppressed(suppressIfGrabbed);
      Perform(HoverEnterRequest(showMode, suppressed));
    }

    /** `isSelected` is the grab interactable's selection state at exit. */
    method OnHoverExit(isSelected: bool)
      modifies Instance()`currentTarget, Instance()`visible, Instance()`text, Instance()`targetOffset
      modifies Instance()`canvasActive, Instance()`canvasPosition, Instance()`panelPosition
      ensures var m := registry.instance; !old(Installed(m)) || HoverExitRequest(showMode, isSelected) == Keep ==> m != null ==> unchanged(m)
      ensures var m := registry.instance; old(Installed(m)) ==>
        m.State() == After(old(m.State()), HoverExitRequest(showMode, isSelected), m,
                           old(SameObject(m.currentTarget, self)))
      ensures var m := registry.instance; m != null ==> m.StayedPut()
      ensures var m := registry.instance;
        old(Installed(m)) && old(m.currentTarget) != self && (old(m.currentTarget) != null || old(self.alive))
        ==> m.State() == old(m.State())
    {
      Perform(HoverExitRequest(showMode, isSelected));
    }
  }
}
