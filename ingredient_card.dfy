/** The edit-reaction rules and the field validation of
    client/src/components/EnhancedIngredientCard.tsx. */
module EnhancedCard {
  import opened Wrappers
  import opened Units
  import opened Ingredients

  /** The toast a change shows, if any. */
  datatype Notice = NoNotice | CategorySwitched(category: Category) | IncompatibleUnitWarning

  /** The analytics calls a change makes, in order. */
  datatype CardLog =
    | FieldComplete
    | ConversionAttempted(from: Unit, to: Unit)
    | ConversionSucceeded(from: Unit, to: Unit)
    | ConversionFailed(from: Unit, to: Unit)

  /** The JavaScript truthiness test `value && value !== 0 && value !== ''`. */
  predicate Truthy(e: Edit)
  {
    match e
    case EditName(n) => n != ""
    case EditUsedQuantity(q) => q != 0.0
    case EditPackageCost(c) => c != 0.0
    case EditPackageSize(s) => s != 0.0
    case _ => true
  }

  /** The reaction table, field by field: the patch an edit of `ing` sends.
      This is the reference the imperative HandleChange is proved against. */
  function EditPatch(ing: Ingredient, e: Edit): (p: Patch)
  {
    var raw := RawPatch(e);
    match e
    case EditPackageSize(_) => raw.(packageSizeManuallySet := Some(true))
    case EditUsedUnit(u) =>
      var newCategory := GetUnitCategory(u);
      if GetUnitCategory(ing.usedUnit) != newCategory then
        raw.(packageUnit := Some(DefaultUnit(newCategory)), packageSize := Some(0.0),
             packageSizeManuallySet := Some(false))
      else
        raw.(packageUnit := Some(u), packageSizeManuallySet := Some(false))
    case EditUsedQuantity(q) =>
      if ManuallySet(ing) then raw else raw.(packageSize := Some(q))
    case EditPackageUnit(u) =>
      var usedCategory := GetUnitCategory(ing.usedUnit);
      if usedCategory != GetUnitCategory(u) then raw.(packageUnit := Some(DefaultUnit(usedCategory)))
      else raw.(packageSizeManuallySet := Some(true))
    case _ => raw
  }

  /** The toast an edit shows. */
  function EditNotice(ing: Ingredient, e: Edit): Notice
  {
    match e
    case EditUsedUnit(u) =>
      if GetUnitCategory(ing.usedUnit) != GetUnitCategory(u) then CategorySwitched(GetUnitCategory(u))
      else NoNotice
    case EditPackageUnit(u) =>
      if GetUnitCategory(ing.usedUnit) != GetUnitCategory(u) then IncompatibleUnitWarning
      else NoNotice
    case _ => NoNotice
  }

  /** `handleChange`: builds the `updates` object by successive conditional
      assignments and makes exactly one `onUpdate` call, returned here as the
      id and the patch it carries. */
  method HandleChange(ing: Ingredient, e: Edit)
    returns (updateId: string, updates: Patch, notice: Notice, logs: seq<CardLog>)
    ensures updateId == ing.id
    ensures updates == EditPatch(ing, e)
    ensures notice == EditNotice(ing, e)
    ensures (FieldComplete in logs) <==> Truthy(e)
    ensures !e.EditUsedUnit? && !e.EditPackageUnit? ==> |logs| <= 1
    ensures e.EditPackageUnit? ==>
              (ConversionFailed(ing.usedUnit, e.unit) in logs <==> !CanConvert(ing.usedUnit, e.unit))
  {
    updates := RawPatch(e);
    logs := [];
    notice := NoNotice;

    if Truthy(e) {
      logs := logs + [FieldComplete];
    }

    if e.EditPackageSize? {
      updates := updates.(packageSizeManuallySet := Some(true));
    }

    if e.EditUsedUnit? {
      var oldCategory := GetUnitCategory(ing.usedUnit);
      var newCategory := GetUnitCategory(e.unit);
      logs := logs + [ConversionAttempted(ing.usedUnit, e.unit)];
      if oldCategory != newCategory {
        updates := updates.(packageUnit := Some(DefaultUnit(newCategory)));
        updates := updates.(packageSize := Some(0.0));
        updates := updates.(packageSizeManuallySet := Some(false));
        notice := CategorySwitched(newCategory);
        logs := logs + [ConversionSucceeded(ing.usedUnit, e.unit)];
      } else {
        updates := updates.(packageUnit := Some(e.unit));
        updates := updates.(packageSizeManuallySet := Some(false));
        logs := logs + [ConversionSucceeded(ing.usedUnit, e.unit)];
      }
    }

    if e.EditUsedQuantity? && !ManuallySet(ing) {
      updates := updates.(packageSize := Some(e.quantity));
    }

    if e.EditPackageUnit? {
      var usedCategory := GetUnitCategory(ing.usedUnit);
      var newPackageCategory := GetUnitCategory(e.unit);
      if usedCategory != newPackageCategory {
        updates := updates.(packageUnit := Some(DefaultUnit(usedCategory)));
        notice := IncompatibleUnitWarning;
        logs := logs + [ConversionFailed(ing.usedUnit, e.unit)];
      } else {
        updates := updates.(packageSizeManuallySet := Some(true));
      }
    }

    updateId := ing.id;
  }

  /** Editing the package size always marks it as set by hand. */
  lemma PackageSizeEditMarksManual(ing: Ingredient, s: real)
    ensures EditPatch(ing, EditPackageSize(s)).packageSizeManuallySet == Some(true)
    ensures Merge(ing, EditPatch(ing, EditPackageSize(s))).packageSize == s
    ensures ManuallySet(Merge(ing, EditPatch(ing, EditPackageSize(s))))
  {
  }

  /** Switching the used unit into another category resets the package unit
      to that category's default, the package size to 0 and clears the flag;
      within the category the package unit follows the used unit. */
  lemma UsedUnitEditResets(ing: Ingredient, u: Unit)
    ensures var m := Merge(ing, EditPatch(ing, EditUsedUnit(u)));
            m.usedUnit == u && m.packageSizeManuallySet == Some(false)
            && (GetUnitCategory(ing.usedUnit) != GetUnitCategory(u) ==>
                  m.packageUnit == DefaultUnit(GetUnitCategory(u)) && m.packageSize == 0.0)
            && (GetUnitCategory(ing.usedUnit) == GetUnitCategory(u) ==>
                  m.packageUnit == u && m.packageSize == ing.packageSize)
  {
  }

  /** A quantity edit copies the quantity into the package size exactly when
      the size was not set by hand; otherwise the patch has no size at all. */
  lemma QuantityEditAutoSyncs(ing: Ingredient, q: real)
    ensures EditPatch(ing, EditUsedQuantity(q)).packageSize.Some? <==> !ManuallySet(ing)
    ensures !ManuallySet(ing) ==> Merge(ing, EditPatch(ing, EditUsedQuantity(q))).packageSize == q
    ensures ManuallySet(ing) ==> Merge(ing, EditPatch(ing, EditUsedQuantity(q))).packageSize == ing.packageSize
  {
  }

  /** An incompatible package unit is replaced by the default of the used
      unit's category, leaving the flag alone, and warns; a compatible one is
      accepted and marks the size as set by hand. */
  lemma PackageUnitEditGuards(ing: Ingredient, u: Unit)
    ensures var m := Merge(ing, EditPatch(ing, EditPackageUnit(u)));
            (!CanConvert(ing.usedUnit, u) ==>
               m.packageUnit == DefaultUnit(GetUnitCategory(ing.usedUnit))
               && m.packageSizeManuallySet == ing.packageSizeManuallySet
               && EditNotice(ing, EditPackageUnit(u)) == IncompatibleUnitWarning)
            && (CanConvert(ing.usedUnit, u) ==>
               m.packageUnit == u && ManuallySet(m) && EditNotice(ing, EditPackageUnit(u)) == NoNotice)
  {
  }

  /** After an edit of either unit the two units are convertible, whatever
      they were before. */
  lemma UnitEditsLeaveUnitsCompatible(ing: Ingredient, e: Edit)
    requires e.EditUsedUnit? || e.EditPackageUnit?
    ensures var m := Merge(ing, EditPatch(ing, e));
            CanConvert(m.usedUnit, m.packageUnit)
  {
  }

  /** No edit of the card changes the id or the stored cost. */
  lemma EditPatchKeepsIdentity(ing: Ingredient, e: Edit)
    ensures EditPatch(ing, e).id.None? && EditPatch(ing, e).calculatedCost.None?
    ensures Merge(ing, EditPatch(ing, e)).id == ing.id
  {
  }

  /** Starting from convertible units, every edit keeps them convertible. */
  lemma EditPreservesCompatibility(ing: Ingredient, e: Edit)
    requires CanConvert(ing.usedUnit, ing.packageUnit)
    ensures var m := Merge(ing, EditPatch(ing, e));
            CanConvert(m.usedUnit, m.packageUnit)
  {
    if e.EditUsedUnit? || e.EditPackageUnit? {
      UnitEditsLeaveUnitsCompatible(ing, e);
    }
  }

  // ----- Field validation -----

  /** The characters JavaScript's `String.prototype.trim` removes. */
  predicate IsWhitespace(c: char)
  {
    c == ' ' || c == '\t' || c == '\n' || c == '\r' || c == '\U{000B}' || c == '\U{000C}'
    || c == '\U{00A0}' || c == '\U{1680}' || ('\U{2000}' <= c <= '\U{200A}')
    || c == '\U{2028}' || c == '\U{2029}' || c == '\U{202F}' || c == '\U{205F}'
    || c == '\U{3000}' || c == '\U{FEFF}'
  }

  function TrimStart(s: string): string
  {
    if s != [] && IsWhitespace(s[0]) then TrimStart(s[1..]) else s
  }

  function TrimEnd(s: string): string
  {
    if s != [] && IsWhitespace(s[|s| - 1]) then TrimEnd(s[..|s| - 1]) else s
  }

  function Trim(s: string): string
  {
    TrimEnd(TrimStart(s))
  }

  /** A string trims to the empty string exactly when every character of it
      is white space. */
  lemma {:induction false} TrimEmptyIff(s: string)
    ensures Trim(s) == "" <==> forall i :: 0 <= i < |s| ==> IsWhitespace(s[i])
  {
    TrimStartEmptyIff(s);
    var t := TrimStart(s);
    TrimStartIsSuffix(s);
    if t != "" {
      assert !IsWhitespace(t[0]);
      TrimEndKeepsFirst(t);
    }
  }

  lemma {:induction false} TrimStartEmptyIff(s: string)
    ensures TrimStart(s) == "" <==> forall i :: 0 <= i < |s| ==> IsWhitespace(s[i])
  {
    if s != [] && IsWhitespace(s[0]) {
      TrimStartEmptyIff(s[1..]);
      assert forall i :: 1 <= i < |s| ==> s[i] == s[1..][i - 1];
    }
  }

  lemma {:induction false} TrimStartIsSuffix(s: string)
    ensures TrimStart(s) == "" || !IsWhitespace(TrimStart(s)[0])
  {
    if s != [] && IsWhitespace(s[0]) {
      TrimStartIsSuffix(s[1..]);
    }
  }

  /** Trimming the end of a string that starts with a non-space keeps it
      non-empty. */
  lemma {:induction false} TrimEndKeepsFirst(t: string)
    requires t != "" && !IsWhitespace(t[0])
    ensures TrimEnd(t) != ""
  {
    if IsWhitespace(t[|t| - 1]) {
      assert |t| > 1;
      TrimEndKeepsFirst(t[..|t| - 1]);
    }
  }

  datatype FieldValidation = FieldValidation(isValid: bool, hasErrorMessage: bool)

  /** The `validations` record, in the order the effect fills it. */
  datatype Validations = Validations(
    name: FieldValidation,
    usedQuantity: FieldValidation,
    packageCost: FieldValidation,
    packageSize: FieldValidation)

  /** The validation effect: fills the record one field at a time. A field
      with no error message is a valid one. */
  method ValidateFields(ing: Ingredient) returns (v: Validations)
    ensures v.name.isValid <==> exists i :: 0 <= i < |ing.name| && !IsWhitespace(ing.name[i])
    ensures v.usedQuantity.isValid <==> ing.usedQuantity > 0.0
    ensures v.packageCost.isValid <==> ing.packageCost > 0.0
    ensures v.packageSize.isValid <==> ing.packageSize > 0.0
    ensures forall f :: f in Values(v) ==> (f.hasErrorMessage <==> !f.isValid)
  {
    var name, quantity, cost, size;
    TrimEmptyIff(ing.name);
    if Trim(ing.name) == "" {
      name := FieldValidation(false, true);
    } else {
      name := FieldValidation(true, false);
    }
    if ing.usedQuantity <= 0.0 {
      quantity := FieldValidation(false, true);
    } else {
      quantity := FieldValidation(true, false);
    }
    if ing.packageCost <= 0.0 {
      cost := FieldValidation(false, true);
    } else {
      cost := FieldValidation(true, false);
    }
    if ing.packageSize <= 0.0 {
      size := FieldValidation(false, true);
    } else {
      size := FieldValidation(true, false);
    }
    v := Validations(name, quantity, cost, size);
  }

  /** `Object.values(fieldValidations)`. */
  function Values(v: Validations): seq<FieldValidation>
  {
    [v.name, v.usedQuantity, v.packageCost, v.packageSize]
  }

  /** `filter(v => v.isValid).length`. */
  function CountValid(fs: seq<FieldValidation>): nat
  {
    if fs == [] then 0 else CountValid(fs[..|fs| - 1]) + (if fs[|fs| - 1].isValid then 1 else 0)
  }

  /** `every(v => v.isValid)`. */
  predicate AllFieldsComplete(v: Validations)
  {
    forall f :: f in Values(v) ==> f.isValid
  }

  /** The completion percentage over the four validated fields. */
  function CompletionPercentage(v: Validations): real
  {
    (CountValid(Values(v)) as real / |Values(v)| as real) * 100.0
  }

  lemma {:induction false} CountValidBounds(fs: seq<FieldValidation>)
    ensures CountValid(fs) <= |fs|
    ensures CountValid(fs) == |fs| <==> forall i :: 0 <= i < |fs| ==> fs[i].isValid
  {
    if fs != [] {
      CountValidBounds(fs[..|fs| - 1]);
      assert forall i :: 0 <= i < |fs| - 1 ==> fs[..|fs| - 1][i] == fs[i];
    }
  }

  /** The percentage is one of 0, 25, 50, 75 and 100, and it is 100 exactly
      when every field is complete. */
  lemma CompletionPercentageMeaning(v: Validations)
    ensures CompletionPercentage(v) == 25.0 * CountValid(Values(v)) as real
    ensures 0.0 <= CompletionPercentage(v) <= 100.0
    ensures CompletionPercentage(v) == 100.0 <==> AllFieldsComplete(v)
  {
    var fs := Values(v);
    CountValidBounds(fs);
    assert forall f :: f in fs ==> exists i :: 0 <= i < |fs| && fs[i] == f;
  }
}
