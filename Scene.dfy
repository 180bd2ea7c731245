/** Engine-level values and objects shared by every component of the model:
    vectors, Euler angles, transforms, game objects and the few engine
    components whose flags the scripts flip. */
module Scene {

  datatype Option<+T> = None | Some(value: T) {
    /** Replaces the value of a present option; an absent one stays absent. */
    function Overwrite<U>(v: U): Option<U> {
      match this
      case Some(_) => Some(v)
      case None => None
    }
  }

  /** An entry of an inspector array of components: an unassigned (null)
      slot, or a component with its enabled/active/selected flag. */
  datatype Slot = Missing | Present(on: bool) {
    /** The entry after its flag is set to `on`: an unassigned one is skipped. */
    function Set(on': bool): Slot {
      if Present? then Present(on') else Missing
    }
  }

  /** A world-space position or offset (Vector3). */
  datatype Vec3 = Vec3(x: real, y: real, z: real) {
    function Plus(o: Vec3): Vec3 { Vec3(x + o.x, y + o.y, z + o.z) }
    function Minus(o: Vec3): Vec3 { Vec3(x - o.x, y - o.y, z - o.z) }
    function Scale(k: real): Vec3 { Vec3(k * x, k * y, k * z) }
    /** Squared Euclidean length, to compare distances without a square root. */
    function SquaredLength(): real { x * x + y * y + z * z }
  }

  const Origin := Vec3(0.0, 0.0, 0.0)

  /** Vector3.Lerp: the interpolation parameter is clamped to [0, 1]. */
  function Lerp(a: Vec3, b: Vec3, t: real): (r: Vec3)
    ensures t <= 0.0 ==> r == a
    ensures t >= 1.0 ==> r == b
  {
    var u := if t < 0.0 then 0.0 else if t > 1.0 then 1.0 else t;
    a.Plus(b.Minus(a).Scale(u))
  }

  /** A rotation given by its Euler angles in degrees (x = pitch, y = yaw, z = roll). */
  datatype Euler = Euler(x: real, y: real, z: real)

  const Identity := Euler(0.0, 0.0, 0.0)

  /** A scene transform. `alive` is false once its game object has been
      destroyed, which is when Unity's overloaded `== null` starts to hold. */
  class Transform {
    var position: Vec3
    var rotation: Euler
    var parent: Transform?
    var alive: bool

    constructor (p: Vec3, r: Euler)
      ensures position == p && rotation == r && parent == null && alive
    {
      position, rotation, parent, alive := p, r, null, true;
    }
  }

  /** Unity's implicit null test on an engine object: set and not destroyed. */
  predicate Live(t: Transform?)
    reads t
  {
    t != null && t.alive
  }

  /** Unity's `==` on two engine objects: two references compare by the
      object they name, and a null reference also equals a destroyed object.
      Two different destroyed objects are not equal. */
  predicate SameObject(a: Transform?, b: Transform?)
    reads a, b
  {
    a == b || (a == null && !Live(b)) || (b == null && !Live(a))
  }

  /** A game object with its active flag (SetActive). */
  class GameObject {
    var active: bool

    constructor (a: bool)
      ensures active == a
    {
      active := a;
    }
  }

  /** A camera: its enabled flag, and the AudioListener on its game object
      when it has one (GetComponent<AudioListener>() != null). */
  class Camera {
    var enabled: bool
    const hasListener: bool
    var listenerEnabled: bool

    constructor (e: bool, listener: bool, listenerOn: bool)
      ensures enabled == e && hasListener == listener && listenerEnabled == listenerOn
    {
      enabled, hasListener, listenerEnabled := e, listener, listenerOn;
    }
  }
}
