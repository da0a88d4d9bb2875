/**
 * The client's unit-variant store and hook: per item, the pack units the server knows and the
 * one the user picked, and from them the label of a pack size and the active variant.
 */
module UnitVariant {
  import opened Wrappers
  import opened Text
  import opened Sequences

  /** A pack unit of an item. Pack sizes are whole numbers here. */
  datatype UnitNode = UnitNode(id: string, shortName: string, longName: string, packSize: int)

  datatype ItemPackUnitNode = ItemPackUnitNode(itemId: string, mostUsedPackUnitId: string, packUnits: seq<UnitNode>)

  function HasItemId(itemId: string): ItemPackUnitNode -> bool
  {
    (node: ItemPackUnitNode) => node.itemId == itemId
  }

  /** `ArrayUtils.keyBy(newItems, item => item.itemId)`: later entries overwrite earlier ones. */
  function KeyBy(nodes: seq<ItemPackUnitNode>): map<string, ItemPackUnitNode>
    decreases |nodes|
  {
    if nodes == [] then map[]
    else KeyBy(nodes[..|nodes| - 1])[nodes[|nodes| - 1].itemId := nodes[|nodes| - 1]]
  }

  /** Each item id maps to the LAST node carrying it, and only ids that occur are keys. */
  lemma {:induction false} KeyByKeepsLast(nodes: seq<ItemPackUnitNode>, itemId: string)
    ensures itemId in KeyBy(nodes) <==> Pop(Filter(nodes, HasItemId(itemId))).Some?
    ensures itemId in KeyBy(nodes) ==> KeyBy(nodes)[itemId] == Pop(Filter(nodes, HasItemId(itemId))).value
    decreases |nodes|
  {
    if nodes != [] {
      var n := |nodes| - 1;
      KeyByKeepsLast(nodes[..n], itemId);
      assert Filter(nodes, HasItemId(itemId)) ==
        if HasItemId(itemId)(nodes[n]) then Filter(nodes[..n], HasItemId(itemId)) + [nodes[n]] else Filter(nodes[..n], HasItemId(itemId));
    }
  }

  /** The zustand store of `useUnitStore`. */
  class UnitStore {
    var items: map<string, ItemPackUnitNode>
    var userSelectedVariants: map<string, string>

    constructor ()
      ensures items == map[] && userSelectedVariants == map[]
    {
      items := map[];
      userSelectedVariants := map[];
    }

    /** `setUserSelectedVariant`: record the choice for that item only. */
    method SetUserSelectedVariant(itemId: string, variantId: string)
      modifies this
      ensures userSelectedVariants == old(userSelectedVariants)[itemId := variantId]
      ensures items == old(items)
    {
      userSelectedVariants := userSelectedVariants[itemId := variantId];
    }

    /** `setItems`: replace the items, keyed by item id; the user's choices stay. */
    method SetItems(newItems: seq<ItemPackUnitNode>)
      modifies this
      ensures items == KeyBy(newItems)
      ensures userSelectedVariants == old(userSelectedVariants)
    {
      items := KeyBy(newItems);
    }
  }

  /** JavaScript truthiness of an optional string. */
  predicate Truthy(s: Option<string>)
  {
    s.Some? && s.value != ""
  }

  /**
   * `commonAsPackUnit`: the pack unit's own name, else the caller's default, else the pack size
   * followed by the unit name, else followed by the translated word for a unit (`unitLabel`).
   */
  function CommonAsPackUnit(packSize: int, packUnitName: Option<string>, unitName: Option<string>,
                            defaultPackUnit: Option<string>, unitLabel: string): (r: string)
    ensures Truthy(packUnitName) ==> r == packUnitName.value
    ensures !Truthy(packUnitName) && Truthy(defaultPackUnit) ==> r == defaultPackUnit.value
    ensures !Truthy(packUnitName) && !Truthy(defaultPackUnit) && Truthy(unitName) ==> r == IntToString(packSize) + " " + unitName.value
    ensures !Truthy(packUnitName) && !Truthy(defaultPackUnit) && !Truthy(unitName) ==> r == IntToString(packSize) + " " + unitLabel
    ensures r != ""
  {
    if Truthy(packUnitName) then packUnitName.value
    else if Truthy(defaultPackUnit) then defaultPackUnit.value
    else if Truthy(unitName) then IntToString(packSize) + " " + unitName.value
    else IntToString(packSize) + " " + unitLabel
  }

  /** `Array.find`: the first pack unit satisfying `p`. */
  function FindUnit(units: seq<UnitNode>, p: UnitNode -> bool): (r: Option<UnitNode>)
    ensures r.None? <==> forall i :: 0 <= i < |units| ==> !p(units[i])
    ensures r.Some? ==> exists i :: 0 <= i < |units| && units[i] == r.value && p(units[i]) &&
                                    forall j :: 0 <= j < i ==> !p(units[j])
    decreases |units|
  {
    if units == [] then None
    else if p(units[0]) then Some(units[0])
    else
      var rest := FindUnit(units[1..], p);
      assert forall i :: 0 < i < |units| ==> units[i] == units[1..][i - 1];
      if rest.Some? then
        assert exists i :: 0 <= i < |units| - 1 && units[1..][i] == rest.value && p(units[1..][i]) &&
                           forall j :: 0 <= j < i ==> !p(units[1..][j]);
        var i :| 0 <= i < |units| - 1 && units[1..][i] == rest.value && p(units[1..][i]) &&
                 forall j :: 0 <= j < i ==> !p(units[1..][j]);
        assert units[i + 1] == rest.value && forall j :: 0 <= j < i + 1 ==> !p(units[j]);
        rest
      else rest
  }

  function WithId(id: Option<string>): UnitNode -> bool
  {
    (u: UnitNode) => id.Some? && u.id == id.value
  }

  function WithPackSize(packSize: int): UnitNode -> bool
  {
    (u: UnitNode) => u.packSize == packSize
  }

  /** The item has pack-unit variants: it is known and its list is not empty. */
  predicate VariantsExist(item: Option<ItemPackUnitNode>)
  {
    item.Some? && |item.value.packUnits| > 0
  }

  /** The user's variant if it is one of the item's, else the most-used one if it is, else the first. */
  function ActiveVariant(item: ItemPackUnitNode, userSelectedVariantId: Option<string>): (r: UnitNode)
    requires |item.packUnits| > 0
    ensures r in item.packUnits
    ensures FindUnit(item.packUnits, WithId(userSelectedVariantId)).Some? ==> r.id == userSelectedVariantId.value
    ensures (FindUnit(item.packUnits, WithId(userSelectedVariantId)).None? &&
             FindUnit(item.packUnits, WithId(Some(item.mostUsedPackUnitId))).Some?) ==> r.id == item.mostUsedPackUnitId
    ensures (FindUnit(item.packUnits, WithId(userSelectedVariantId)).None? &&
             FindUnit(item.packUnits, WithId(Some(item.mostUsedPackUnitId))).None?) ==> r == item.packUnits[0]
  {
    match FindUnit(item.packUnits, WithId(userSelectedVariantId))
    case Some(u) => u
    case None =>
      match FindUnit(item.packUnits, WithId(Some(item.mostUsedPackUnitId)))
      case Some(u) => u
      case None => item.packUnits[0]
  }

  /** How quantities convert to packs: unchanged, or by the active variant's pack size. */
  datatype Conversion = Identity | ScaleBy(packSize: int)

  /** `x * packSize`, the product `numberOfPacksToTotalQuantity` rounds. */
  function TimesPackSize(x: real, packSize: int): real
  {
    x * packSize as real
  }

  /**
   * `numberOfPacksFromQuantity`: the total quantity unchanged without variants, otherwise divided
   * by the active pack size and rounded by `round2` (`NumUtils.round(_, 2)`). A pack size of 0
   * gives no number (`Infinity` or `NaN` in JavaScript), shown as `None`.
   */
  function NumberOfPacksFromQuantity(c: Conversion, totalQuantity: real, round2: real -> real): (r: Option<real>)
    ensures c.Identity? ==> r == Some(totalQuantity)
    ensures c.ScaleBy? ==> (r.None? <==> c.packSize == 0)
    ensures c.ScaleBy? && r.Some? ==> r.value == round2(totalQuantity / c.packSize as real)
  {
    if c.Identity? then Some(totalQuantity)
    else if c.packSize == 0 then None
    else Some(round2(totalQuantity / c.packSize as real))
  }

  /**
   * `numberOfPacksToTotalQuantity`: the number of packs unchanged without variants, otherwise
   * multiplied by the active pack size and rounded by `round2`.
   */
  function NumberOfPacksToTotalQuantity(c: Conversion, numPacks: real, round2: real -> real): (r: real)
    ensures c.Identity? ==> r == numPacks
    ensures c.ScaleBy? ==> r == round2(TimesPackSize(numPacks, c.packSize))
  {
    if c.Identity? then numPacks else round2(TimesPackSize(numPacks, c.packSize))
  }

  /**
   * Converting a total quantity to packs and back gives the quantity again, for every conversion
   * with a non-zero pack size, whenever the rounding leaves the quantity and the pack count alone;
   * the other way round, packs to a quantity and back, likewise.
   */
  lemma {:induction false} PackConversionsRoundTrip(c: Conversion, quantity: real, packs: real, round2: real -> real)
    requires c.ScaleBy? ==> c.packSize != 0
    requires c.ScaleBy? ==> round2(quantity / c.packSize as real) == quantity / c.packSize as real && round2(quantity) == quantity
    requires c.ScaleBy? ==> round2(TimesPackSize(packs, c.packSize)) == TimesPackSize(packs, c.packSize) && round2(packs) == packs
    ensures NumberOfPacksFromQuantity(c, quantity, round2).Some?
    ensures NumberOfPacksToTotalQuantity(c, NumberOfPacksFromQuantity(c, quantity, round2).value, round2) == quantity
    ensures NumberOfPacksFromQuantity(c, NumberOfPacksToTotalQuantity(c, packs, round2), round2) == Some(packs)
  {
    if c.ScaleBy? {
      var p := c.packSize as real;
      assert TimesPackSize(quantity / p, c.packSize) == quantity;
      assert TimesPackSize(packs, c.packSize) / p == packs;
    }
  }

  datatype VariantControl = VariantControl(variants: seq<UnitNode>, activeVariant: UnitNode)

  /** What `useUnitVariant` returns, but for `asPackUnit`, which is `AsPackUnit` below. */
  datatype UnitVariantView = UnitVariantView(
    activePackUnit: string,
    conversion: Conversion,
    variantsControl: Option<VariantControl>,
    unitVariantsExist: bool)

  /** `useUnitVariant(itemId, unitName)` over the store's entry `item` and the user's choice for it. */
  function UseUnitVariant(item: Option<ItemPackUnitNode>, userSelectedVariantId: Option<string>,
                          unitName: Option<string>, unitLabel: string): (r: UnitVariantView)
    ensures r.unitVariantsExist <==> VariantsExist(item)
    ensures !VariantsExist(item) ==> r.conversion == Identity && r.variantsControl.None? &&
                                      r.activePackUnit == CommonAsPackUnit(1, None, unitName, None, unitLabel)
    ensures VariantsExist(item) ==>
      var active := ActiveVariant(item.value, userSelectedVariantId);
      && r.conversion == ScaleBy(active.packSize)
      && r.variantsControl == Some(VariantControl(item.value.packUnits, active))
      && r.activePackUnit == CommonAsPackUnit(active.packSize, None, unitName, None, unitLabel)
  {
    if !VariantsExist(item) then
      UnitVariantView(CommonAsPackUnit(1, None, unitName, None, unitLabel), Identity, None, false)
    else
      var active := ActiveVariant(item.value, userSelectedVariantId);
      UnitVariantView(
        CommonAsPackUnit(active.packSize, None, unitName, None, unitLabel),
        ScaleBy(active.packSize),
        Some(VariantControl(item.value.packUnits, active)),
        true)
  }

  /** `asPackUnit`: the short name of the first variant of that pack size, when the item has variants. */
  function AsPackUnit(item: Option<ItemPackUnitNode>, unitName: Option<string>, unitLabel: string,
                      packSize: int, defaultPackUnit: Option<string>): (r: string)
  {
    var found := if VariantsExist(item) then FindUnit(item.value.packUnits, WithPackSize(packSize)) else None;
    CommonAsPackUnit(packSize, if found.Some? then Some(found.value.shortName) else None, unitName, defaultPackUnit, unitLabel)
  }

  /**
   * A pack size some variant has is labelled with the short name of the first such variant
   * (when that name is not empty); any other pack size gets the fallback label.
   */
  lemma AsPackUnitUsesFirstVariantOfThatSize(item: Option<ItemPackUnitNode>, unitName: Option<string>, unitLabel: string,
                                             packSize: int, defaultPackUnit: Option<string>, i: int)
    requires VariantsExist(item) && 0 <= i < |item.value.packUnits|
    requires item.value.packUnits[i].packSize == packSize && item.value.packUnits[i].shortName != ""
    requires forall j :: 0 <= j < i ==> item.value.packUnits[j].packSize != packSize
    ensures AsPackUnit(item, unitName, unitLabel, packSize, defaultPackUnit) == item.value.packUnits[i].shortName
  {
    var units := item.value.packUnits;
    var found := FindUnit(units, WithPackSize(packSize));
    var k :| 0 <= k < |units| && units[k] == found.value && WithPackSize(packSize)(units[k]) &&
             forall j :: 0 <= j < k ==> !WithPackSize(packSize)(units[j]);
    assert WithPackSize(packSize)(units[i]);
    assert !(k < i);
    assert !(k > i);
  }

  /** Without variants the label never depends on the store. */
  lemma AsPackUnitWithoutVariants(item: Option<ItemPackUnitNode>, unitName: Option<string>, unitLabel: string,
                                  packSize: int, defaultPackUnit: Option<string>)
    requires !VariantsExist(item)
    ensures AsPackUnit(item, unitName, unitLabel, packSize, defaultPackUnit) == CommonAsPackUnit(packSize, None, unitName, defaultPackUnit, unitLabel)
  {
  }

  /** Selecting a variant of the item through the store makes it the hook's active variant. */
  lemma SelectedVariantBecomesActive(items: map<string, ItemPackUnitNode>, selected: map<string, string>,
                                     itemId: string, unitName: Option<string>, unitLabel: string, k: int)
    requires itemId in items && 0 <= k < |items[itemId].packUnits|
    ensures
      var selected' := selected[itemId := items[itemId].packUnits[k].id];
      var view := UseUnitVariant(Some(items[itemId]), Some(selected'[itemId]), unitName, unitLabel);
      view.variantsControl.Some? && view.variantsControl.value.activeVariant.id == items[itemId].packUnits[k].id
  {
    var units := items[itemId].packUnits;
    assert WithId(Some(units[k].id))(units[k]);
  }
}
