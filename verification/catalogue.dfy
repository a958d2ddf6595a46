/**
 * The product's colour variants (frontend/src/components/ProductSection.tsx): the
 * catalogue every other part of the storefront names colours by, the variant the
 * product section shows for a selected colour, and the swatch clicks that change
 * the selection.
 */
module Catalogue {

  /** One colour variant: its id (what orders record), display name and swatch colour.
      The product image is presentation and is not modelled. */
  datatype Variant = Variant(id: string, name: string, hex: string)

  /** `colorVariants`, in display order. */
  const Variants: seq<Variant> := [
    Variant("blue", "নীল", "#17497e"),
    Variant("black", "কালো", "#000000"),
    Variant("gray", "ধূসর", "#3d4046"),
    Variant("green", "সবুজ", "#237b71")
  ]

  /** The colour the storefront page starts with (`useState("blue")` in the page that
      hosts the product section and the order form). */
  const InitialColor: string := "blue"

  predicate IsVariantId(id: string) {
    exists i :: 0 <= i < |Variants| && Variants[i].id == id
  }

  /** The catalogue's ids are exactly the four colours, each appearing once. */
  lemma CatalogueIds()
    ensures forall id :: IsVariantId(id) <==> id in {"blue", "black", "gray", "green"}
    ensures forall i, j :: 0 <= i < j < |Variants| ==> Variants[i].id != Variants[j].id
    ensures IsVariantId(InitialColor)
  {
    assert Variants[0].id == "blue";
    assert Variants[1].id == "black";
    assert Variants[2].id == "gray";
    assert Variants[3].id == "green";
  }

  /** `vs.find(v => v.id === id)`: the index of the first variant with that id. */
  function FindIndex(vs: seq<Variant>, id: string): (r: int)
    ensures -1 <= r < |vs|
    ensures r >= 0 ==> vs[r].id == id && forall j :: 0 <= j < r ==> vs[j].id != id
    ensures r < 0 <==> forall j :: 0 <= j < |vs| ==> vs[j].id != id
  {
    if vs == [] then -1
    else if vs[0].id == id then 0
    else
      var k := FindIndex(vs[1..], id);
      if k < 0 then -1 else k + 1
  }

  /** `currentVariant`: the variant whose id is the selected colour, or the first
      variant when no variant has that id. */
  function CurrentVariant(selected: string): (v: Variant)
    ensures v in Variants
    ensures IsVariantId(selected) ==> v.id == selected
    ensures !IsVariantId(selected) ==> v == Variants[0]
  {
    var k := FindIndex(Variants, selected);
    if k < 0 then Variants[0] else Variants[k]
  }

  /** Clicking swatch `i` reports that variant's id to the page, which makes it the
      selected colour. */
  function ClickSwatch(i: nat): (selected: string)
    requires i < |Variants|
    ensures IsVariantId(selected)
    ensures CurrentVariant(selected) == Variants[i]
  {
    CatalogueIds();
    Variants[i].id
  }

  /** The colour selected after a sequence of swatch clicks. */
  function SelectAfter(clicks: seq<nat>): string
    requires forall k :: 0 <= k < |clicks| ==> clicks[k] < |Variants|
  {
    if clicks == [] then InitialColor else ClickSwatch(clicks[|clicks| - 1])
  }

  /** Every selection reachable through the swatches is a catalogue id, so the colour
      the order form submits always names a real variant. */
  lemma ReachableSelectionIsVariant(clicks: seq<nat>)
    requires forall k :: 0 <= k < |clicks| ==> clicks[k] < |Variants|
    ensures IsVariantId(SelectAfter(clicks))
    ensures CurrentVariant(SelectAfter(clicks)).id == SelectAfter(clicks)
  {
    CatalogueIds();
  }
}
