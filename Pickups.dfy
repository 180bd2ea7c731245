/** UI_PickupItem (ClickablePickup.cs): clicking an item picks it up and
    clicking it again drops it; one static flag shared by every item keeps
    the player to one item at a time. */
module Pickups {
  import opened Scene

  /** All the items of the scene as values: each one's isPickedUp flag, in
      some fixed order, and the shared anyPicked flag. */
  datatype Items = Items(picked: seq<bool>, anyPicked: bool)

  /** A click on item `i`: refused when another item is held, a pick up
      when nothing is held, a drop when it is the held item. */
  function Click(w: Items, i: nat): (r: Items)
    requires i < |w.picked|
    ensures |r.picked| == |w.picked|
  {
    if w.anyPicked && !w.picked[i] then w
    else if !w.picked[i] then Items(w.picked[i := true], true)
    else Items(w.picked[i := false], false)
  }

  /** How many items are picked. */
  function PickedCount(s: seq<bool>): nat
  {
    if s == [] then 0 else (if s[0] then 1 else 0) + PickedCount(s[1..])
  }

  /** The shared flag says whether an item is held, and at most one is. */
  predicate Consistent(w: Items)
  {
    PickedCount(w.picked) == if w.anyPicked then 1 else 0
  }

  /** Setting one flag changes the count by that flag's change. */
  lemma {:induction false} CountAfterUpdate(s: seq<bool>, i: nat, b: bool)
    requires i < |s|
    ensures PickedCount(s[i := b]) == PickedCount(s) - (if s[i] then 1 else 0) + (if b then 1 else 0)
  {
    if i > 0 {
      CountAfterUpdate(s[1..], i - 1, b);
      assert s[i := b][1..] == s[1..][i - 1 := b];
    }
  }

  /** No item is picked when the count is zero. */
  lemma {:induction false} NoneCounted(s: seq<bool>, i: nat)
    requires PickedCount(s) == 0 && i < |s|
    ensures !s[i]
  {
    if i > 0 {
      NoneCounted(s[1..], i - 1);
    }
  }

  /** Two different picked items count at least two. */
  lemma {:induction false} TwoCounted(s: seq<bool>, i: nat, j: nat)
    requires i < j < |s| && s[i] && s[j]
    ensures PickedCount(s) >= 2
  {
    if i > 0 {
      TwoCounted(s[1..], i - 1, j - 1);
    } else {
      assert s[1..][j - 1] == s[j];
      CountAtLeastOne(s[1..], j - 1);
    }
  }

  /** A picked item counts. */
  lemma {:induction false} CountAtLeastOne(s: seq<bool>, i: nat)
    requires i < |s| && s[i]
    ensures PickedCount(s) >= 1
  {
    if i > 0 {
      CountAtLeastOne(s[1..], i - 1);
    }
  }

  /** Every click keeps the shared flag consistent with the items. */
  lemma ClickKeepsConsistent(w: Items, i: nat)
    requires Consistent(w) && i < |w.picked|
    ensures Consistent(Click(w, i))
  {
    if !(w.anyPicked && !w.picked[i]) {
      CountAfterUpdate(w.picked, i, !w.picked[i]);
      if !w.picked[i] {
        assert !w.anyPicked;
      }
    }
  }

  /** Under a consistent flag no two items are ever held at once, and the
      flag is set exactly when one is. */
  lemma AtMostOneHeld(w: Items, i: nat, j: nat)
    requires Consistent(w) && i < |w.picked| && j < |w.picked|
    ensures w.picked[i] && w.picked[j] ==> i == j
    ensures w.picked[i] ==> w.anyPicked
  {
    if w.picked[i] && w.picked[j] && i != j {
      if i < j { TwoCounted(w.picked, i, j); } else { TwoCounted(w.picked, j, i); }
    }
    if w.picked[i] {
      CountAtLeastOne(w.picked, i);
    }
  }

  /** A click on an unpicked item while another one is held does nothing. */
  lemma ClickRefusedWhileHeld(w: Items, i: nat)
    requires i < |w.picked| && w.anyPicked && !w.picked[i]
    ensures Click(w, i) == w
  {
  }

  /** From nothing held, picking an item up and clicking it again puts
      every flag back. */
  lemma PickUpThenDrop(w: Items, i: nat)
    requires Consistent(w) && i < |w.picked| && !w.anyPicked
    ensures Click(w, i).picked[i] && Click(w, i).anyPicked
    ensures Click(Click(w, i), i) == w
  {
    NoneCounted(w.picked, i);
    assert w.picked[i := true][i := false] == w.picked;
  }

  /** The static anyPicked flag. */
  class Shared {
    var anyPicked: bool

    constructor ()
      ensures !anyPicked
    {
      anyPicked := false;
    }
  }

  class PickupItem {
    const shared: Shared
    const display: GameObject        // pickupDisplay.gameObject
    var isPickedUp: bool

    constructor (s: Shared, d: GameObject)
      ensures shared == s && display == d && !isPickedUp
    {
      shared, display, isPickedUp := s, d, false;
    }

    /** OnMouseDown: refused while another item is held, else pick up or
        drop. Seen over all the items `scene` (this one at index `i`, every
        one sharing the flag), the click is `Click`. */
    method OnMouseDown(ghost scene: seq<PickupItem>, ghost i: nat)
      requires i < |scene| && scene[i] == this
      requires forall a, b :: 0 <= a < b < |scene| ==> scene[a] != scene[b]
      modifies this`isPickedUp, shared`anyPicked, display`active
      ensures Flags(scene) == Click(old(Flags(scene)), i)
      ensures old(shared.anyPicked) && !old(isPickedUp) ==> display.active == old(display.active)
      ensures !old(shared.anyPicked) && !old(isPickedUp) ==> display.active
      ensures old(isPickedUp) ==> !display.active
    {
      if shared.anyPicked && !isPickedUp {
        return;
      }
      if !isPickedUp {
        Pickup();
      } else {
        Drop();
      }
    }

    /** The items' flags as values. */
    ghost function Flags(scene: seq<PickupItem>): Items
      reads scene, shared
    {
      Items(seq(|scene|, k requires 0 <= k < |scene| reads scene => scene[k].isPickedUp), shared.anyPicked)
    }

    /** Pickup: held, the shared flag set, the display shown. The sound is
        not modelled. */
    method Pickup()
      modifies this`isPickedUp, shared`anyPicked, display`active
      ensures isPickedUp && shared.anyPicked && display.active
    {
      isPickedUp := true;
      shared.anyPicked := true;
      display.active := true;
    }

    /** Drop: not held, the shared flag cleared, the display hidden. The
        sound is not modelled. */
    method Drop()
      modifies this`isPickedUp, shared`anyPicked, display`active
      ensures !isPickedUp && !shared.anyPicked && !display.active
    {
      isPickedUp := false;
      shared.anyPicked := false;
      display.active := false;
    }
  }
}
