/** XRUniversalHighlight: swaps every renderer of an object to a highlight
    material and back to the materials it had when the object woke up. */
module Highlighting {

  /** A material asset; only its identity matters. */
  class Material {
    constructor ()
    {
    }
  }

  /** The renderers' materials after SetHighlight: all the highlight
      material, or untouched when there is none. */
  function Highlighted(ms: seq<Material?>, h: Material?): (r: seq<Material?>)
    ensures |r| == |ms|
    ensures h == null ==> r == ms
    ensures h != null ==> forall i :: 0 <= i < |r| ==> r[i] == h
  {
    if h == null then ms else seq(|ms|, _ => h)
  }

  /** Highlighting twice is highlighting once. */
  lemma HighlightIdempotent(ms: seq<Material?>, h: Material?)
    ensures Highlighted(Highlighted(ms, h), h) == Highlighted(ms, h)
  {
  }

  class Highlighter {
    const highlightMaterial: Material?
    const includeChildren: bool

    // Renderer i's material, and the material it had at Awake.
    var renderers: array<Material?>
    var originalMaterials: array<Material?>

    /** One remembered material per renderer, kept in its own array. */
    ghost predicate Valid()
      reads this`renderers, this`originalMaterials
    {
      renderers != originalMaterials && renderers.Length == originalMaterials.Length
    }

    constructor (h: Material?, children: bool)
      ensures Valid() && highlightMaterial == h && includeChildren == children
      ensures fresh(renderers) && fresh(originalMaterials) && renderers.Length == 0
    {
      highlightMaterial, includeChildren := h, children;
      renderers := new Material?[0];
      originalMaterials := new Material?[0];
    }

    /** Awake: take the renderers of the object (`own`) or of the object and
        its children (`withChildren`), and remember each one's material, in
        the same order. */
    method Awake(own: array<Material?>, withChildren: array<Material?>)
      modifies this`renderers, this`originalMaterials
      ensures Valid()
      ensures renderers == (if includeChildren then withChildren else own)
      ensures fresh(originalMaterials)
      ensures originalMaterials[..] == renderers[..]
    {
      var found := if includeChildren then withChildren else own;
      var snapshot := new Material?[found.Length];
      for i := 0 to found.Length
        invariant forall k :: 0 <= k < i ==> snapshot[k] == found[k]
      {
        snapshot[i] := found[i];
      }
      renderers, originalMaterials := found, snapshot;
    }

    /** SetHighlight: without a highlight material nothing changes;
        otherwise every renderer gets it. The snapshot is not touched. */
    method SetHighlight()
      requires Valid()
      modifies renderers
      ensures renderers[..] == Highlighted(old(renderers[..]), highlightMaterial)
      ensures originalMaterials[..] == old(originalMaterials[..])
    {
      if highlightMaterial == null {
        return;
      }
      for i := 0 to renderers.Length
        invariant forall k :: 0 <= k < i ==> renderers[k] == highlightMaterial
      {
        renderers[i] := highlightMaterial;
      }
    }

    /** ClearHighlight: every renderer back to its remembered material,
        whatever happened since Awake; the snapshot is not touched, so
        clearing again changes nothing. */
    method ClearHighlight()
      requires Valid()
      modifies renderers
      ensures renderers[..] == originalMaterials[..]
      ensures originalMaterials[..] == old(originalMaterials[..])
    {
      for i := 0 to renderers.Length
        invariant forall k :: 0 <= k < i ==> renderers[k] == originalMaterials[k]
      {
        renderers[i] := originalMaterials[i];
      }
    }
  }
}
