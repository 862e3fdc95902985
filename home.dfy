/** The working set of ingredients owned by client/src/pages/Home.tsx:
    add, update with cost recomputation, delete, duplicate, the seed on
    mount and the running total. */
module Home {
  import opened Wrappers
  import opened Units
  import opened Ingredients
  import EnhancedCard

  /** The three numeric inputs of the cost are all positive. */
  predicate PositiveInputs(u: Ingredient)
  {
    u.usedQuantity > 0.0 && u.packageCost > 0.0 && u.packageSize > 0.0
  }

  /** The outcome of the recompute: the new cost and whether the
      unit-mismatch toast is shown. */
  datatype Recalc = Recalc(cost: real, mismatch: bool)

  /** The guarded recompute of `calculatedCost` for a merged record: only
      positive inputs give a cost; incompatible units then give 0 and the
      toast. */
  function RecomputeCost(u: Ingredient): (r: Recalc)
    ensures r.mismatch <==> PositiveInputs(u) && !CanConvert(u.usedUnit, u.packageUnit)
    ensures !PositiveInputs(u) || !CanConvert(u.usedUnit, u.packageUnit) ==> r.cost == 0.0
  {
    if PositiveInputs(u) then
      if !CanConvert(u.usedUnit, u.packageUnit) then Recalc(0.0, true)
      else
        Recalc(CostOrZero(CalculateIngredientCost(u.usedQuantity, u.usedUnit, u.packageCost,
                                                  u.packageSize, u.packageUnit)), false)
    else Recalc(0.0, false)
  }

  /** The `try`/`catch`: a thrown error or a non-finite cost gives 0. */
  function CostOrZero(r: Result<Num, UnitError>): real
  {
    match r
    case Success(Finite(c)) => c
    case _ => 0.0
  }

  /** What the recomputed cost means: 0 unless the inputs are positive and
      the units convertible, and otherwise a positive cost that is the used
      quantity's share of the package cost. The `catch` fallback is never
      reached under the guard. */
  lemma RecomputeCostMeaning(u: Ingredient)
    ensures RecomputeCost(u).cost >= 0.0
    ensures RecomputeCost(u).cost > 0.0 <==> PositiveInputs(u) && CanConvert(u.usedUnit, u.packageUnit)
    ensures PositiveInputs(u) && CanConvert(u.usedUnit, u.packageUnit) ==>
              CalculateIngredientCost(u.usedQuantity, u.usedUnit, u.packageCost, u.packageSize, u.packageUnit)
                == Success(Finite(RecomputeCost(u).cost))
              && RecomputeCost(u).cost * u.packageSize * ConversionToBase(u.packageUnit)
                   == u.usedQuantity * ConversionToBase(u.usedUnit) * u.packageCost
  {
    if PositiveInputs(u) && CanConvert(u.usedUnit, u.packageUnit) {
      PositiveShare(u);
      IngredientCostIsShareOfPackage(u.usedQuantity, u.usedUnit, u.packageCost, u.packageSize, u.packageUnit);
    }
  }

  /** With positive inputs, the share of the package cost is positive. */
  lemma PositiveShare(u: Ingredient)
    requires PositiveInputs(u) && CanConvert(u.usedUnit, u.packageUnit)
    ensures var r := CalculateIngredientCost(u.usedQuantity, u.usedUnit, u.packageCost, u.packageSize, u.packageUnit);
            r.Success? && r.value.Finite? && r.value.value > 0.0
  {
    FactorsPositive(u.usedUnit);
    FactorsPositive(u.packageUnit);
    IngredientCostValue(u.usedQuantity, u.usedUnit, u.packageCost, u.packageSize, u.packageUnit);
    var used := u.usedQuantity * ConversionToBase(u.usedUnit) / ConversionToBase(u.packageUnit);
    var per := u.packageCost / u.packageSize;
    assert used > 0.0;
    assert per > 0.0;
    assert used * per > 0.0;
  }

  function GuardedCost(u: Ingredient): real
  {
    RecomputeCost(u).cost
  }

  /** The guarded cost reads only the five inputs of the cost. */
  lemma GuardedCostReadsInputs(u: Ingredient, v: Ingredient)
    requires u.usedQuantity == v.usedQuantity && u.usedUnit == v.usedUnit
    requires u.packageCost == v.packageCost && u.packageSize == v.packageSize
    requires u.packageUnit == v.packageUnit
    ensures GuardedCost(u) == GuardedCost(v)
  {
  }

  /** The record the `map` callback returns for a matching id. */
  function UpdateOne(ing: Ingredient, updates: Patch): Ingredient
  {
    var updated := Merge(ing, updates);
    updated.(calculatedCost := GuardedCost(updated))
  }

  /** `prev.map(...)`: records with another id are returned unchanged. */
  function UpdateAll(s: seq<Ingredient>, id: string, updates: Patch): (t: seq<Ingredient>)
    ensures |t| == |s|
    ensures forall i :: 0 <= i < |s| ==> t[i] == if s[i].id != id then s[i] else UpdateOne(s[i], updates)
  {
    seq(|s|, i requires 0 <= i < |s| => if s[i].id != id then s[i] else UpdateOne(s[i], updates))
  }

  /** Whether some matching record raises the unit-mismatch toast. */
  predicate MismatchWarned(s: seq<Ingredient>, id: string, updates: Patch)
  {
    exists i :: 0 <= i < |s| && s[i].id == id && RecomputeCost(Merge(s[i], updates)).mismatch
  }

  /** Every stored cost is the guarded cost of its own record. */
  predicate CostsConsistent(s: seq<Ingredient>)
  {
    forall i :: 0 <= i < |s| ==> s[i].calculatedCost == GuardedCost(s[i])
  }

  /** An updated record's stored cost is the guarded cost of its merged
      fields, whatever the patch carried, so the record is consistent. */
  lemma UpdateOneIsConsistent(ing: Ingredient, updates: Patch)
    ensures UpdateOne(ing, updates).calculatedCost == GuardedCost(Merge(ing, updates))
    ensures UpdateOne(ing, updates).calculatedCost == GuardedCost(UpdateOne(ing, updates))
  {
    GuardedCostReadsInputs(Merge(ing, updates), UpdateOne(ing, updates));
  }

  /** Updating keeps every stored cost consistent. */
  lemma UpdatePreservesConsistency(s: seq<Ingredient>, id: string, updates: Patch)
    requires CostsConsistent(s)
    ensures CostsConsistent(UpdateAll(s, id, updates))
  {
    forall i | 0 <= i < |s| && s[i].id == id {
      UpdateOneIsConsistent(s[i], updates);
    }
  }

  /** The new record of `addIngredient`. */
  function NewIngredient(id: string): Ingredient
  {
    Ingredient(id, "", 0.0, Cup, 0.0, 0.0, Cup, 0.0, None)
  }

  /** `ingredients.reduce((sum, ing) => sum + ing.calculatedCost, 0)`. */
  function SumCosts(s: seq<Ingredient>): real
  {
    if s == [] then 0.0 else SumCosts(s[..|s| - 1]) + s[|s| - 1].calculatedCost
  }

  lemma {:induction false} SumCostsAppend(s: seq<Ingredient>, t: seq<Ingredient>)
    ensures SumCosts(s + t) == SumCosts(s) + SumCosts(t)
  {
    if t == [] {
      assert s + t == s;
    } else {
      assert (s + t)[..|s + t| - 1] == s + t[..|t| - 1];
      assert (s + t)[|s + t| - 1] == t[|t| - 1];
      SumCostsAppend(s, t[..|t| - 1]);
    }
  }

  /** The total of [0.75, 0.28, 1.20] is 2.23. */
  lemma TotalExample(a: Ingredient, b: Ingredient, c: Ingredient)
    requires a.calculatedCost == 0.75 && b.calculatedCost == 0.28 && c.calculatedCost == 1.20
    ensures SumCosts([a, b, c]) == 2.23
  {
    assert [a, b, c][..2] == [a, b];
    assert [a, b][..1] == [a];
    assert [a][..0] == [];
    assert SumCosts([a]) == 0.75;
    assert SumCosts([a, b]) == 0.75 + 0.28;
  }

  /** The total is not negative when every stored cost is consistent. */
  lemma {:induction false} ConsistentTotalNonNegative(s: seq<Ingredient>)
    requires CostsConsistent(s)
    ensures SumCosts(s) >= 0.0
  {
    if s != [] {
      assert CostsConsistent(s[..|s| - 1]) by {
        forall i | 0 <= i < |s| - 1 ensures s[..|s| - 1][i] == s[i] { }
      }
      ConsistentTotalNonNegative(s[..|s| - 1]);
    }
  }

  /** `prev.filter((ing) => ing.id !== id)`. */
  function RemoveId(s: seq<Ingredient>, id: string): (t: seq<Ingredient>)
    ensures forall x :: x in t <==> x in s && x.id != id
    ensures |t| <= |s|
  {
    if s == [] then []
    else RemoveId(s[..|s| - 1], id) + (if s[|s| - 1].id != id then [s[|s| - 1]] else [])
  }

  /** `filter` keeps the survivors in their relative order: two kept
      records come from positions of `s` in the same order. */
  lemma {:induction false} RemoveIdOrder(s: seq<Ingredient>, id: string, i: nat, j: nat)
    requires i < j < |RemoveId(s, id)|
    ensures exists a, b :: 0 <= a < b < |s| && s[a] == RemoveId(s, id)[i] && s[b] == RemoveId(s, id)[j]
  {
    var init := s[..|s| - 1];
    var t := RemoveId(s, id);
    var t0 := RemoveId(init, id);
    assert t == t0 + (if s[|s| - 1].id != id then [s[|s| - 1]] else []);
    if j < |t0| {
      RemoveIdOrder(init, id, i, j);
      var a, b :| 0 <= a < b < |init| && init[a] == t0[i] && init[b] == t0[j];
      assert s[a] == t[i] && s[b] == t[j];
    } else {
      assert t[j] == s[|s| - 1];
      assert t[i] in init by { assert t[i] == t0[i]; }
      var a :| 0 <= a < |init| && init[a] == t[i];
      assert s[a] == t[i];
    }
  }

  /** Nothing is lost or duplicated: the kept records and the removed
      ones together are the original records, counted with multiplicity. */
  lemma {:induction false} RemoveIdPartition(s: seq<Ingredient>, id: string)
    ensures multiset(RemoveId(s, id)) + multiset(OnlyId(s, id)) == multiset(s)
  {
    if s != [] {
      var init, last := s[..|s| - 1], s[|s| - 1];
      RemoveIdPartition(init, id);
      assert s == init + [last];
    }
  }

  /** Deleting removes every record with the id, keeps the others, and
      lowers the total by exactly their costs. */
  lemma {:induction false} RemoveIdTotal(s: seq<Ingredient>, id: string)
    ensures SumCosts(RemoveId(s, id)) == SumCosts(s) - SumCosts(OnlyId(s, id))
  {
    if s != [] {
      var init, last := s[..|s| - 1], s[|s| - 1];
      RemoveIdTotal(init, id);
      SumCostsAppend(RemoveId(init, id), if last.id != id then [last] else []);
      SumCostsAppend(OnlyId(init, id), if last.id == id then [last] else []);
      assert SumCosts([last]) == last.calculatedCost by {
        assert [last][..0] == [];
      }
    }
  }

  /** The records with the id, in order. */
  function OnlyId(s: seq<Ingredient>, id: string): seq<Ingredient>
  {
    if s == [] then []
    else OnlyId(s[..|s| - 1], id) + (if s[|s| - 1].id == id then [s[|s| - 1]] else [])
  }

  /** `findIndex`: the first index with the id, or -1. */
  function FindIndex(s: seq<Ingredient>, id: string): (k: int)
    ensures -1 <= k < |s|
    ensures k >= 0 ==> s[k].id == id && forall j :: 0 <= j < k ==> s[j].id != id
    ensures k == -1 ==> forall j :: 0 <= j < |s| ==> s[j].id != id
  {
    if s == [] then -1
    else if s[0].id == id then 0
    else
      var k := FindIndex(s[1..], id);
      if k == -1 then -1 else k + 1
  }

  /** The duplicate inserted right after the first record with the id. */
  function DuplicateAfter(s: seq<Ingredient>, id: string, freshId: string): (t: seq<Ingredient>)
  {
    var k := FindIndex(s, id);
    if k < 0 then s
    else s[..k + 1] + [s[k].(id := freshId)] + s[k + 1..]
  }

  /** Duplication inserts after the source a copy that differs only in its
      id, keeps everything else in place, and raises the total by the
      source's cost; an unknown id changes nothing. */
  lemma DuplicateAfterMeaning(s: seq<Ingredient>, id: string, freshId: string)
    ensures var k := FindIndex(s, id);
            var t := DuplicateAfter(s, id, freshId);
            (k < 0 ==> t == s)
            && (k >= 0 ==>
                  |t| == |s| + 1 && t[..k + 1] == s[..k + 1] && t[k + 2..] == s[k + 1..]
                  && t[k + 1] == s[k].(id := freshId)
                  && SumCosts(t) == SumCosts(s) + s[k].calculatedCost)
  {
    var k := FindIndex(s, id);
    if k >= 0 {
      var t := DuplicateAfter(s, id, freshId);
      var copy := s[k].(id := freshId);
      SumCostsAppend(s[..k + 1] + [copy], s[k + 1..]);
      SumCostsAppend(s[..k + 1], [copy]);
      SumCostsAppend(s[..k + 1], s[k + 1..]);
      assert s[..k + 1] + s[k + 1..] == s;
      assert [copy][..0] == [];
    }
  }

  /** The copy has the source's inputs and cost, so it is as consistent as
      the source. */
  lemma DuplicatePreservesConsistency(s: seq<Ingredient>, id: string, freshId: string)
    requires CostsConsistent(s)
    ensures CostsConsistent(DuplicateAfter(s, id, freshId))
  {
    var k := FindIndex(s, id);
    if k >= 0 {
      GuardedCostReadsInputs(s[k], s[k].(id := freshId));
      var t := DuplicateAfter(s, id, freshId);
      forall i | 0 <= i < |t| ensures t[i].calculatedCost == GuardedCost(t[i]) {
        if i <= k { assert t[i] == s[i]; }
        else if i > k + 1 { assert t[i] == s[i - 1]; }
      }
    }
  }

  /** Each record updated with the same patch, in order. */
  function UpdateEach(s: seq<Ingredient>, updates: Patch): (t: seq<Ingredient>)
    ensures |t| == |s| && forall i :: 0 <= i < |s| ==> t[i] == UpdateOne(s[i], updates)
  {
    seq(|s|, i requires 0 <= i < |s| => UpdateOne(s[i], updates))
  }

  /** The updated total: each matching record's old cost is replaced by the
      cost recomputed for it, whatever the patch does to its id. */
  lemma {:induction false} UpdateAllTotal(s: seq<Ingredient>, id: string, updates: Patch)
    ensures SumCosts(UpdateAll(s, id, updates))
              == SumCosts(s) - SumCosts(OnlyId(s, id)) + SumCosts(UpdateEach(OnlyId(s, id), updates))
  {
    if s != [] {
      var init, last := s[..|s| - 1], s[|s| - 1];
      var t := UpdateAll(s, id, updates);
      var m0 := OnlyId(init, id);
      var tail := if last.id == id then [last] else [];
      assert UpdateAll(init, id, updates) == t[..|t| - 1];
      assert t == t[..|t| - 1] + [t[|t| - 1]];
      UpdateAllTotal(init, id, updates);
      assert UpdateEach(m0 + tail, updates) == UpdateEach(m0, updates) + UpdateEach(tail, updates);
      SumCostsAppend(t[..|t| - 1], [t[|t| - 1]]);
      SumCostsAppend(m0, tail);
      SumCostsAppend(UpdateEach(m0, updates), UpdateEach(tail, updates));
      assert [last][..0] == [];
      assert [t[|t| - 1]][..0] == [];
      assert UpdateEach([last], updates) == [UpdateOne(last, updates)];
      assert [UpdateOne(last, updates)][..0] == [];
    }
  }

  /** All records have convertible units. */
  predicate AllCompatible(s: seq<Ingredient>)
  {
    forall i :: 0 <= i < |s| ==> CanConvert(s[i].usedUnit, s[i].packageUnit)
  }

  /** The enhanced card's patches never reach the unit-mismatch branch: if
      every record is convertible and the card shows the stored record,
      the update raises no mismatch toast and every record stays
      convertible. */
  lemma EnhancedEditsNeverMismatch(s: seq<Ingredient>, ing: Ingredient, e: Edit)
    requires AllCompatible(s)
    requires forall i :: 0 <= i < |s| && s[i].id == ing.id ==> s[i] == ing
    ensures !MismatchWarned(s, ing.id, EnhancedCard.EditPatch(ing, e))
    ensures AllCompatible(UpdateAll(s, ing.id, EnhancedCard.EditPatch(ing, e)))
  {
    var p := EnhancedCard.EditPatch(ing, e);
    forall i | 0 <= i < |s| && s[i].id == ing.id
      ensures CanConvert(Merge(s[i], p).usedUnit, Merge(s[i], p).packageUnit)
    {
      EnhancedCard.EditPreservesCompatibility(ing, e);
    }
  }

  /** The stored cost after an enhanced-card edit: the ingredient cost of the
      merged fields when the three inputs are positive, and 0 otherwise; with
      the card's patches the units are never the reason for a 0. */
  lemma EnhancedEditCost(s: seq<Ingredient>, ing: Ingredient, e: Edit, i: nat)
    requires AllCompatible(s)
    requires i < |s| && s[i] == ing
    ensures var m := Merge(ing, EnhancedCard.EditPatch(ing, e));
            var stored := UpdateAll(s, ing.id, EnhancedCard.EditPatch(ing, e))[i].calculatedCost;
            (PositiveInputs(m) ==>
               CalculateIngredientCost(m.usedQuantity, m.usedUnit, m.packageCost, m.packageSize, m.packageUnit)
                 == Success(Finite(stored)))
            && (!PositiveInputs(m) ==> stored == 0.0)
  {
    var p := EnhancedCard.EditPatch(ing, e);
    var m := Merge(ing, p);
    EnhancedCard.EditPreservesCompatibility(ing, e);
    if PositiveInputs(m) {
      PositiveShare(m);
    }
  }

  /** The plain card that Home.tsx wires sends raw patches, and those do
      reach the mismatch branch: a priced cup ingredient whose package unit
      is switched to pounds gets cost 0 and the toast. */
  lemma RawEditCanMismatch()
    ensures var ing := Ingredient("a", "Flour", 1.0, Cup, 2.0, 1.0, Cup, 0.0, None);
            MismatchWarned([ing], "a", RawPatch(EditPackageUnit(Lb)))
            && UpdateAll([ing], "a", RawPatch(EditPackageUnit(Lb)))[0].calculatedCost == 0.0
  {
    var ing := Ingredient("a", "Flour", 1.0, Cup, 2.0, 1.0, Cup, 0.0, None);
    assert [ing][0].id == "a";
    assert RecomputeCost(Merge([ing][0], RawPatch(EditPackageUnit(Lb)))).mismatch;
  }

  /** The ingredient list and recipe settings of the Home page. */
  class HomePage {
    var ingredients: seq<Ingredient>
    var servings: int
    var batchMultiplier: int

    /** The initial state: no ingredients, 4 servings, 1 batch. */
    constructor ()
      ensures ingredients == [] && servings == 4 && batchMultiplier == 1
    {
      ingredients := [];
      servings := 4;
      batchMultiplier := 1;
    }

    function TotalCost(): real
      reads this
    {
      SumCosts(ingredients)
    }

    /** `addIngredient` with the id `nanoid()` returned. */
    method AddIngredient(freshId: string)
      modifies this`ingredients
      ensures ingredients == old(ingredients) + [NewIngredient(freshId)]
      ensures TotalCost() == old(TotalCost())
      ensures CostsConsistent(old(ingredients)) ==> CostsConsistent(ingredients)
    {
      SumCostsAppend(ingredients, [NewIngredient(freshId)]);
      assert [NewIngredient(freshId)][..0] == [];
      ingredients := ingredients + [NewIngredient(freshId)];
    }

    /** `updateIngredient`. Returns whether the mismatch toast was shown. */
    method UpdateIngredient(id: string, updates: Patch) returns (mismatchToast: bool)
      modifies this`ingredients
      ensures ingredients == UpdateAll(old(ingredients), id, updates)
      ensures mismatchToast <==> MismatchWarned(old(ingredients), id, updates)
      ensures CostsConsistent(old(ingredients)) ==> CostsConsistent(ingredients)
    {
      if CostsConsistent(ingredients) {
        UpdatePreservesConsistency(ingredients, id, updates);
      }
      mismatchToast := MismatchWarned(ingredients, id, updates);
      ingredients := UpdateAll(ingredients, id, updates);
    }

    /** `deleteIngredient`. */
    method DeleteIngredient(id: string)
      modifies this`ingredients
      ensures ingredients == RemoveId(old(ingredients), id)
      ensures TotalCost() == old(TotalCost()) - SumCosts(OnlyId(old(ingredients), id))
      ensures CostsConsistent(old(ingredients)) ==> CostsConsistent(ingredients)
    {
      RemoveIdTotal(ingredients, id);
      ingredients := RemoveId(ingredients, id);
    }

    /** `duplicateIngredient` with the id `nanoid()` returned. */
    method DuplicateIngredient(id: string, freshId: string) returns (duplicated: bool)
      modifies this`ingredients
      ensures duplicated <==> exists i :: 0 <= i < |old(ingredients)| && old(ingredients)[i].id == id
      ensures ingredients == DuplicateAfter(old(ingredients), id, freshId)
      ensures CostsConsistent(old(ingredients)) ==> CostsConsistent(ingredients)
    {
      if CostsConsistent(ingredients) {
        DuplicatePreservesConsistency(ingredients, id, freshId);
      }
      var k := FindIndex(ingredients, id);
      duplicated := k >= 0;
      if duplicated {
        var source := ingredients[k];
        ingredients := ingredients[..k + 1] + [source.(id := freshId)] + ingredients[k + 1..];
      }
    }

    /** The mount effect: an empty list gets one new ingredient. */
    method SeedOnMount(freshId: string)
      modifies this`ingredients
      ensures old(ingredients) == [] ==> ingredients == [NewIngredient(freshId)]
      ensures old(ingredients) != [] ==> ingredients == old(ingredients)
    {
      if |ingredients| == 0 {
        AddIngredient(freshId);
      }
    }
  }
}
