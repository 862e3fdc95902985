/** The `Ingredient` record of client/src/lib/types.ts, the partial record
    that edits are sent as, and the spread that merges the two. */
module Ingredients {
  import opened Wrappers
  import opened Units

  /** `packageSizeManuallySet` is an optional field: `None` is absent. */
  datatype Ingredient = Ingredient(
    id: string,
    name: string,
    usedQuantity: real,
    usedUnit: Unit,
    packageCost: real,
    packageSize: real,
    packageUnit: Unit,
    calculatedCost: real,
    packageSizeManuallySet: Option<bool>)

  /** `!ingredient.packageSizeManuallySet` is false only for a present `true`. */
  predicate ManuallySet(ing: Ingredient)
  {
    ing.packageSizeManuallySet == Some(true)
  }

  /** `Partial<Ingredient>`: a field is `None` when the patch leaves it out. */
  datatype Patch = Patch(
    id: Option<string>,
    name: Option<string>,
    usedQuantity: Option<real>,
    usedUnit: Option<Unit>,
    packageCost: Option<real>,
    packageSize: Option<real>,
    packageUnit: Option<Unit>,
    calculatedCost: Option<real>,
    packageSizeManuallySet: Option<bool>)

  const EmptyPatch := Patch(None, None, None, None, None, None, None, None, None)

  function Pick<T>(p: Option<T>, old_: T): T
  {
    if p.Some? then p.value else old_
  }

  /** `{ ...ing, ...updates }`: every field the patch carries overrides the
      record's field; every other field is the record's. */
  function Merge(ing: Ingredient, p: Patch): (m: Ingredient)
    ensures m.id == Pick(p.id, ing.id) && m.name == Pick(p.name, ing.name)
    ensures m.usedQuantity == Pick(p.usedQuantity, ing.usedQuantity)
    ensures m.usedUnit == Pick(p.usedUnit, ing.usedUnit)
    ensures m.packageCost == Pick(p.packageCost, ing.packageCost)
    ensures m.packageSize == Pick(p.packageSize, ing.packageSize)
    ensures m.packageUnit == Pick(p.packageUnit, ing.packageUnit)
    ensures m.calculatedCost == Pick(p.calculatedCost, ing.calculatedCost)
    ensures m.packageSizeManuallySet ==
              (if p.packageSizeManuallySet.Some? then p.packageSizeManuallySet else ing.packageSizeManuallySet)
  {
    Ingredient(
      Pick(p.id, ing.id),
      Pick(p.name, ing.name),
      Pick(p.usedQuantity, ing.usedQuantity),
      Pick(p.usedUnit, ing.usedUnit),
      Pick(p.packageCost, ing.packageCost),
      Pick(p.packageSize, ing.packageSize),
      Pick(p.packageUnit, ing.packageUnit),
      Pick(p.calculatedCost, ing.calculatedCost),
      if p.packageSizeManuallySet.Some? then p.packageSizeManuallySet else ing.packageSizeManuallySet)
  }

  /** Merging is idempotent, and the empty patch changes nothing. */
  lemma MergeLaws(ing: Ingredient, p: Patch)
    ensures Merge(Merge(ing, p), p) == Merge(ing, p)
    ensures Merge(ing, EmptyPatch) == ing
  {
  }

  /** One user edit of one input field, with the value the form supplies
      (text for the name, a parsed number, or a unit tag). */
  datatype Edit =
    | EditName(name: string)
    | EditUsedQuantity(quantity: real)
    | EditUsedUnit(unit: Unit)
    | EditPackageCost(cost: real)
    | EditPackageSize(size: real)
    | EditPackageUnit(unit: Unit)

  /** `{ [field]: value }`: the patch holding only the edited field. This
      is the whole patch of the plain card (IngredientCard.tsx:35-37) and
      the starting patch of the enhanced card. */
  function RawPatch(e: Edit): (p: Patch)
    ensures p.id.None? && p.calculatedCost.None? && p.packageSizeManuallySet.None?
  {
    match e
    case EditName(n) => EmptyPatch.(name := Some(n))
    case EditUsedQuantity(q) => EmptyPatch.(usedQuantity := Some(q))
    case EditUsedUnit(u) => EmptyPatch.(usedUnit := Some(u))
    case EditPackageCost(c) => EmptyPatch.(packageCost := Some(c))
    case EditPackageSize(s) => EmptyPatch.(packageSize := Some(s))
    case EditPackageUnit(u) => EmptyPatch.(packageUnit := Some(u))
  }

  /** The value `{ [field]: value }` applies, read back from a record: a raw
      patch sets exactly the edited field to the edited value. */
  lemma RawPatchSetsOnlyItsField(ing: Ingredient, e: Edit)
    ensures var m := Merge(ing, RawPatch(e));
            m.id == ing.id && m.calculatedCost == ing.calculatedCost
            && m.packageSizeManuallySet == ing.packageSizeManuallySet
            && m.name == (if e.EditName? then e.name else ing.name)
            && m.usedQuantity == (if e.EditUsedQuantity? then e.quantity else ing.usedQuantity)
            && m.usedUnit == (if e.EditUsedUnit? then e.unit else ing.usedUnit)
            && m.packageCost == (if e.EditPackageCost? then e.cost else ing.packageCost)
            && m.packageSize == (if e.EditPackageSize? then e.size else ing.packageSize)
            && m.packageUnit == (if e.EditPackageUnit? then e.unit else ing.packageUnit)
  {
  }
}
