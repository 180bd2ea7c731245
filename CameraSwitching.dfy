/** XRCameraSwitcher: while the switch input is held, the view and the
    audio come from a target camera instead of the XR rig's camera. */
module CameraSwitching {
  import opened Scene

  /** One camera as the switcher sees it: enabled or not, and its
      AudioListener (`Missing` when it has none). */
  datatype View = View(enabled: bool, listener: Slot)

  /** The two cameras; `None` is an unassigned reference. */
  datatype Cameras = Cameras(xr: Option<View>, target: Option<View>)

  /** A camera and its listener switched to `on`; an unassigned camera or a
      missing listener is skipped. */
  function Directed(v: Option<View>, on: bool): Option<View>
  {
    match v
    case None => None
    case Some(w) => Some(View(on, w.listener.Set(on)))
  }

  /** SwitchToTarget (`toTarget`) and SwitchToXR: the chosen camera and its
      listener on, the other one's off. */
  function Toward(c: Cameras, toTarget: bool): Cameras
  {
    Cameras(Directed(c.xr, !toTarget), Directed(c.target, toTarget))
  }

  /** The two switches are mirrors of each other and only the last one
      counts: switching to one side and then to the other is switching to
      the other directly, and switching twice the same way is switching once. */
  lemma LastSwitchWins(c: Cameras, first: bool, second: bool)
    ensures Toward(Toward(c, first), second) == Toward(c, second)
  {
  }

  /** After either switch, exactly the chosen side renders and hears, when
      both cameras are assigned and carry listeners. */
  lemma OneSideAtATime(c: Cameras, toTarget: bool)
    requires c.xr.Some? && c.target.Some?
    requires c.xr.value.listener.Present? && c.target.value.listener.Present?
    ensures var r := Toward(c, toTarget);
      r.target.value.enabled == toTarget && r.xr.value.enabled == !toTarget
      && r.target.value.listener.on == toTarget && r.xr.value.listener.on == !toTarget
  {
  }

  /** An unassigned camera or a missing listener does not affect the other
      side: each side's result depends on that side alone. */
  lemma SidesIndependent(c: Cameras, d: Cameras, toTarget: bool)
    ensures c.xr == d.xr ==> Toward(c, toTarget).xr == Toward(d, toTarget).xr
    ensures c.target == d.target ==> Toward(c, toTarget).target == Toward(d, toTarget).target
    ensures c.xr.None? ==> Toward(c, toTarget).xr.None?
    ensures c.target.None? ==> Toward(c, toTarget).target.None?
  {
  }

  /** A camera reference as a view. */
  ghost function ViewOf(c: Camera?): Option<View>
    reads c
  {
    if c == null then None
    else Some(View(c.enabled, if c.hasListener then Present(c.listenerEnabled) else Missing))
  }

  class CameraSwitcher {
    const xrMainCamera: Camera?
    const targetCamera: Camera?
    var isSwitched: bool

    ghost function State(): Cameras
      reads xrMainCamera, targetCamera
    {
      Cameras(ViewOf(xrMainCamera), ViewOf(targetCamera))
    }

    constructor (xr: Camera?, target: Camera?)
      ensures xrMainCamera == xr && targetCamera == target && !isSwitched
    {
      xrMainCamera, targetCamera, isSwitched := xr, target, false;
    }

    /** Input started: switch to the target camera unless already there. */
    method OnSwitchStart()
      modifies xrMainCamera, targetCamera, this`isSwitched
      ensures isSwitched
      ensures old(isSwitched) ==> State() == old(State())
      ensures !old(isSwitched) && xrMainCamera != targetCamera ==> State() == Toward(old(State()), true)
    {
      if !isSwitched {
        SwitchToTarget();
      }
    }

    /** Input cancelled: back to the XR camera when switched. */
    method OnSwitchEnd()
      modifies xrMainCamera, targetCamera, this`isSwitched
      ensures !isSwitched
      ensures !old(isSwitched) ==> State() == old(State())
      ensures old(isSwitched) && xrMainCamera != targetCamera ==> State() == Toward(old(State()), false)
    {
      if isSwitched {
        SwitchToXR();
      }
    }

    /** Disabled: the XR configuration is always restored when switched.
        The input unsubscription is not modelled. */
    method OnDisable()
      modifies xrMainCamera, targetCamera, this`isSwitched
      ensures !isSwitched
      ensures !old(isSwitched) ==> State() == old(State())
      ensures old(isSwitched) && xrMainCamera != targetCamera ==> State() == Toward(old(State()), false)
    {
      if isSwitched {
        SwitchToXR();
      }
    }

    /** XR camera and listener off, target camera and listener on. When both
        references are the same camera the later writes win: it ends on. */
    method SwitchToTarget()
      modifies xrMainCamera, targetCamera, this`isSwitched
      ensures isSwitched
      ensures xrMainCamera != targetCamera ==> State() == Toward(old(State()), true)
      ensures xrMainCamera == targetCamera ==> State().target == Directed(old(State()).target, true)
    {
      if xrMainCamera != null {
        xrMainCamera.enabled := false;
      }
      if targetCamera != null {
        targetCamera.enabled := true;
      }
      if xrMainCamera != null && xrMainCamera.hasListener {
        xrMainCamera.listenerEnabled := false;
      }
      if targetCamera != null && targetCamera.hasListener {
        targetCamera.listenerEnabled := true;
      }
      isSwitched := true;
    }

    /** The exact mirror of SwitchToTarget. With one camera behind both
        references it ends off. */
    method SwitchToXR()
      modifies xrMainCamera, targetCamera, this`isSwitched
      ensures !isSwitched
      ensures xrMainCamera != targetCamera ==> State() == Toward(old(State()), false)
      ensures xrMainCamera == targetCamera ==> State().target == Directed(old(State()).target, false)
    {
      if xrMainCamera != null {
        xrMainCamera.enabled := true;
      }
      if targetCamera != null {
        targetCamera.enabled := false;
      }
      if xrMainCamera != null && xrMainCamera.hasListener {
        xrMainCamera.listenerEnabled := true;
      }
      if targetCamera != null && targetCamera.hasListener {
        targetCamera.listenerEnabled := false;
      }
      isSwitched := false;
    }
  }
}
