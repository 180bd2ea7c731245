/** XRDroneModelSwapper: the drone shows the visual model of one faction at
    a time. */
module DroneModels {
  import opened Scene

  /** A faction. TypeA, TypeB and TypeC have models of their own; every
      other member of the faction enumeration is `Other`, told apart by its
      ordinal. */
  datatype Faction = TypeA | TypeB | TypeC | Other(ordinal: int)

  /** The active flags of the four model slots; `Missing` is an unassigned
      slot. */
  datatype Models = Models(a: Slot, b: Slot, c: Slot, default: Slot)

  /** SwapModel on values: every assigned model off, then the faction's own
      model (the default one for any other faction) on if it is assigned. */
  function Swapped(m: Models, f: Faction): Models
  {
    Models(m.a.Set(f == TypeA), m.b.Set(f == TypeB), m.c.Set(f == TypeC), m.default.Set(f.Other?))
  }

  /** The slot a faction selects. */
  function Selected(m: Models, f: Faction): Slot
  {
    match f
    case TypeA => m.a
    case TypeB => m.b
    case TypeC => m.c
    case Other(_) => m.default
  }

  /** Whether a slot holds an active model. */
  predicate On(s: Slot) { s == Present(true) }

  /** After a swap the selected model is the only one that can be active:
      it is active exactly when it is assigned, and every other one is off.
      So at most one model is active, and none when the selected slot is
      empty. */
  lemma SwapShowsExactlySelected(m: Models, f: Faction)
    ensures var r := Swapped(m, f);
      && (On(Selected(r, f)) <==> Selected(m, f).Present?)
      && (On(r.a) ==> f == TypeA) && (On(r.b) ==> f == TypeB)
      && (On(r.c) ==> f == TypeC) && (On(r.default) ==> f.Other?)
  {
  }

  /** The result depends only on the faction and on which slots are
      assigned, so swapping twice to the same faction is swapping once, and
      the last swap decides. */
  lemma SwapDependsOnlyOnFaction(m: Models, f: Faction, g: Faction)
    ensures Swapped(Swapped(m, g), f) == Swapped(m, f)
  {
  }

  /** The active flags of the four model references as values. */
  ghost function SlotOf(o: GameObject?): Slot
    reads o
  {
    if o == null then Missing else Present(o.active)
  }

  /** The model objects a swapper may change (none without a swapper). */
  function ModelObjects(s: ModelSwapper?): set<GameObject>
  {
    if s == null then {} else {s.modelTypeA, s.modelTypeB, s.modelTypeC, s.defaultModel} - {null}
  }

  class ModelSwapper {
    const modelTypeA: GameObject?
    const modelTypeB: GameObject?
    const modelTypeC: GameObject?
    const defaultModel: GameObject?

    constructor (a: GameObject?, b: GameObject?, c: GameObject?, d: GameObject?)
      ensures modelTypeA == a && modelTypeB == b && modelTypeC == c && defaultModel == d
    {
      modelTypeA, modelTypeB, modelTypeC, defaultModel := a, b, c, d;
    }

    ghost function State(): Models
      reads modelTypeA, modelTypeB, modelTypeC, defaultModel
    {
      Models(SlotOf(modelTypeA), SlotOf(modelTypeB), SlotOf(modelTypeC), SlotOf(defaultModel))
    }

    /** The four references are four different objects (or unassigned). */
    predicate Distinct()
    {
      && (modelTypeA != null ==> modelTypeA != modelTypeB && modelTypeA != modelTypeC && modelTypeA != defaultModel)
      && (modelTypeB != null ==> modelTypeB != modelTypeC && modelTypeB != defaultModel)
      && (modelTypeC != null ==> modelTypeC != defaultModel)
    }

    /** The reference a faction selects. */
    function Chosen(f: Faction): GameObject?
    {
      match f
      case TypeA => modelTypeA
      case TypeB => modelTypeB
      case TypeC => modelTypeC
      case Other(_) => defaultModel
    }

    /** SwapModel: every assigned model is hidden, then the chosen one is
        shown. Object by object, an assigned model ends active exactly when
        it is the chosen one, even when one object sits in several slots;
        with four different objects this is `Swapped`. The log line is not
        modelled. */
    method SwapModel(f: Faction)
      modifies modelTypeA, modelTypeB, modelTypeC, defaultModel
      ensures forall o :: o in ModelObjects(this) ==> o.active == (o == Chosen(f))
      ensures Distinct() ==> State() == Swapped(old(State()), f)
    {
      if modelTypeA != null { modelTypeA.active := false; }
      if modelTypeB != null { modelTypeB.active := false; }
      if modelTypeC != null { modelTypeC.active := false; }
      if defaultModel != null { defaultModel.active := false; }
      match f
      case TypeA => if modelTypeA != null { modelTypeA.active := true; }
      case TypeB => if modelTypeB != null { modelTypeB.active := true; }
      case TypeC => if modelTypeC != null { modelTypeC.active := true; }
      case Other(_) => if defaultModel != null { defaultModel.active := true; }
    }
  }
}
