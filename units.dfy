/** The unit taxonomy, the conversion table and the cost arithmetic of
    client/src/lib/unitConversions.ts. Arithmetic is over the reals. */
module Units {
  import opened Wrappers

  /** The ten unit tags. `Each` is the tag the source writes 'unit'. */
  datatype Unit = Tsp | Tbsp | Cup | Oz | Lb | G | Kg | Ml | L | Each

  datatype Category = Volume | Weight | Count

  /** One entry of the `unitCategories` table. */
  datatype CategoryEntry = CategoryEntry(kind: Category, units: seq<Unit>)

  const UnitCategories: seq<CategoryEntry> := [
    CategoryEntry(Volume, [Tsp, Tbsp, Cup, Ml, L]),
    CategoryEntry(Weight, [Oz, Lb, G, Kg]),
    CategoryEntry(Count, [Each])
  ]

  /** Factor from a unit to its category's base unit (ml, g or 'unit'). */
  function ConversionToBase(u: Unit): real
  {
    match u
    case Tsp => 4.92892
    case Tbsp => 14.7868
    case Cup => 236.588
    case Ml => 1.0
    case L => 1000.0
    case Oz => 28.3495
    case Lb => 453.592
    case G => 1.0
    case Kg => 1000.0
    case Each => 1.0
  }

  /** Every factor is positive, and each base unit has factor 1. */
  lemma FactorsPositive(u: Unit)
    ensures ConversionToBase(u) > 0.0
    ensures u in {Ml, G, Each} ==> ConversionToBase(u) == 1.0
  {
  }

  /** The volume list, then the weight list, then count for everything
      else. */
  function GetUnitCategory(u: Unit): Category
  {
    match u
    case Tsp | Tbsp | Cup | Ml | L => Volume
    case Oz | Lb | G | Kg => Weight
    case _ => Count
  }

  /** `getUnitCategory` agrees with the `unitCategories` table: every unit
      lies in exactly one list of the table, and that list's kind is the
      unit's category. */
  lemma {:induction false} TableAgreesWithCategory(u: Unit)
    ensures exists k :: 0 <= k < |UnitCategories| && u in UnitCategories[k].units
    ensures forall k :: 0 <= k < |UnitCategories| && u in UnitCategories[k].units ==>
              UnitCategories[k].kind == GetUnitCategory(u)
    ensures forall j, k :: 0 <= j < k < |UnitCategories| ==>
              !(u in UnitCategories[j].units && u in UnitCategories[k].units)
  {
    var k := match GetUnitCategory(u) case Volume => 0 case Weight => 1 case Count => 2;
    assert u in UnitCategories[k].units;
  }

  /** `getUnitCategory` is total and sends the volume, weight and count
      tags to their categories. */
  lemma CategoryOfEachUnit(u: Unit)
    ensures GetUnitCategory(u) == Volume <==> u in {Tsp, Tbsp, Cup, Ml, L}
    ensures GetUnitCategory(u) == Weight <==> u in {Oz, Lb, G, Kg}
    ensures GetUnitCategory(u) == Count <==> u == Each
  {
  }

  function CanConvert(from: Unit, to: Unit): bool
  {
    GetUnitCategory(from) == GetUnitCategory(to)
  }

  /** Convertibility is an equivalence relation whose classes are the
      categories. */
  lemma CanConvertIsEquivalence(a: Unit, b: Unit, c: Unit)
    ensures CanConvert(a, a)
    ensures CanConvert(a, b) == CanConvert(b, a)
    ensures CanConvert(a, b) && CanConvert(b, c) ==> CanConvert(a, c)
    ensures CanConvert(a, b) <==> GetUnitCategory(a) == GetUnitCategory(b)
  {
  }

  /** The two errors the file throws: `convertUnit`'s "Cannot convert from
      ... - different unit types" and `calculateIngredientCost`'s "Cannot
      calculate cost - incompatible units", each naming both units. */
  datatype UnitError = DifferentUnitTypes(from: Unit, to: Unit) | IncompatibleUnits(usedUnit: Unit, packageUnit: Unit)

  /** `convertUnit`: to the base unit, then from the base unit. Fails, naming
      both units, when the categories differ. On success the amount of base
      units is preserved. */
  function ConvertUnit(value: real, from: Unit, to: Unit): (r: Result<real, UnitError>)
    ensures r.Failure? <==> !CanConvert(from, to)
    ensures r.Failure? ==> r.error == DifferentUnitTypes(from, to)
    ensures r.Success? ==> r.value * ConversionToBase(to) == value * ConversionToBase(from)
  {
    if !CanConvert(from, to) then Failure(DifferentUnitTypes(from, to))
    else
      var baseValue := value * ConversionToBase(from);
      Success(baseValue / ConversionToBase(to))
  }

  /** Converting into the same unit returns the value itself. */
  lemma ConvertIdentity(x: real, u: Unit)
    ensures ConvertUnit(x, u, u) == Success(x)
  {
    FactorsPositive(u);
  }

  /** Converting u -> v -> u returns the original value. */
  lemma ConvertRoundTrip(x: real, u: Unit, v: Unit)
    requires CanConvert(u, v)
    ensures ConvertUnit(x, u, v).Success?
    ensures ConvertUnit(ConvertUnit(x, u, v).value, v, u) == Success(x)
  {
    FactorsPositive(u);
    FactorsPositive(v);
    var fu, fv := ConversionToBase(u), ConversionToBase(v);
    CanConvertIsEquivalence(u, v, u);
    ConvertValue(x, u, v);
    var y := ConvertUnit(x, u, v).value;
    ConvertValue(y, v, u);
    RoundTripAlgebra(x, fu, fv);
  }

  /** Scaling by `a / b` and then by `b / a` is the identity. */
  lemma RoundTripAlgebra(x: real, a: real, b: real)
    requires a > 0.0 && b > 0.0
    ensures (x * a / b) * b / a == x
  {
    RatioAlgebra(x, a, b, a);
    CancelFactor(x, a);
  }

  /** Converting u -> v -> w is the same as converting u -> w. */
  lemma ConvertComposes(x: real, u: Unit, v: Unit, w: Unit)
    requires CanConvert(u, v) && CanConvert(v, w)
    ensures ConvertUnit(x, u, w).Success?
    ensures ConvertUnit(ConvertUnit(x, u, v).value, v, w) == ConvertUnit(x, u, w)
  {
    FactorsPositive(v);
    FactorsPositive(w);
    var fu, fv, fw := ConversionToBase(u), ConversionToBase(v), ConversionToBase(w);
    RatioAlgebra(x, fu, fv, fw);
    ConvertValue(x, u, v);
    ConvertValue(x * fu / fv, v, w);
    ConvertValue(x, u, w);
  }

  /** The closed form of a successful conversion. */
  lemma ConvertValue(x: real, u: Unit, v: Unit)
    requires CanConvert(u, v)
    ensures ConvertUnit(x, u, v) == Success(x * ConversionToBase(u) / ConversionToBase(v))
  {
  }

  /** Multiplying and dividing by the same factor cancels. */
  lemma CancelFactor(x: real, a: real)
    requires a > 0.0
    ensures x * a / a == x
  {
  }

  /** Going through an intermediate factor cancels it. */
  lemma RatioAlgebra(x: real, a: real, b: real, c: real)
    requires b > 0.0 && c > 0.0
    ensures ((x * a / b) * b) / c == x * a / c
  {
    assert (x * a / b) * b == x * a;
  }

  /** `calculateCostPerUnit`: the cost of one base unit (ml, g or 'unit')
      of the package. JavaScript's division gives a non-finite number for
      a package of size 0. */
  function CalculateCostPerUnit(totalCost: real, packageSize: real, packageUnit: Unit): (r: Num)
    ensures r.Finite? <==> packageSize != 0.0
    ensures r.Finite? ==> r.value * (packageSize * ConversionToBase(packageUnit)) == totalCost
  {
    FactorsPositive(packageUnit);
    var baseQuantity := packageSize * ConversionToBase(packageUnit);
    Div(totalCost, baseQuantity)
  }

  /** `calculateIngredientCost`: the used quantity, in package units, times
      the package's cost per package unit. Fails on incompatible units; a
      package of size 0 gives a non-finite number, as in JavaScript. */
  function CalculateIngredientCost(usedQuantity: real, usedUnit: Unit, packageCost: real,
                                    packageSize: real, packageUnit: Unit): (r: Result<Num, UnitError>)
    ensures r.Failure? <==> !CanConvert(usedUnit, packageUnit)
    ensures r.Failure? ==> r.error == IncompatibleUnits(usedUnit, packageUnit)
    ensures r.Success? ==> (r.value.Finite? <==> packageSize != 0.0)
  {
    if !CanConvert(usedUnit, packageUnit) then Failure(IncompatibleUnits(usedUnit, packageUnit))
    else
      var usedInPackageUnits := ConvertUnit(usedQuantity, usedUnit, packageUnit).value;
      var costPerPackageUnit := Div(packageCost, packageSize);
      Success(MulNum(usedInPackageUnits, costPerPackageUnit))
  }

  /** For a non-empty package in a compatible unit, the ingredient cost is
      finite and is the used quantity's share of the package cost: cost
      times package base amount equals used base amount times package cost. */
  lemma IngredientCostIsShareOfPackage(usedQuantity: real, usedUnit: Unit, packageCost: real,
                                       packageSize: real, packageUnit: Unit)
    requires CanConvert(usedUnit, packageUnit) && packageSize != 0.0
    ensures var r := CalculateIngredientCost(usedQuantity, usedUnit, packageCost, packageSize, packageUnit);
            r.Success? && r.value.Finite? &&
            r.value.value * packageSize * ConversionToBase(packageUnit)
              == usedQuantity * ConversionToBase(usedUnit) * packageCost
  {
    FactorsPositive(packageUnit);
    IngredientCostValue(usedQuantity, usedUnit, packageCost, packageSize, packageUnit);
    ShareAlgebra(usedQuantity, ConversionToBase(usedUnit), ConversionToBase(packageUnit),
                 packageCost, packageSize);
  }

  /** The ingredient cost equals the used quantity in base units times the
      package's `calculateCostPerUnit`. */
  lemma IngredientCostViaCostPerUnit(usedQuantity: real, usedUnit: Unit, packageCost: real,
                                     packageSize: real, packageUnit: Unit)
    requires CanConvert(usedUnit, packageUnit) && packageSize != 0.0
    ensures var r := CalculateIngredientCost(usedQuantity, usedUnit, packageCost, packageSize, packageUnit);
            r.Success? && r.value.Finite? &&
            r.value.value == usedQuantity * ConversionToBase(usedUnit)
                             * CalculateCostPerUnit(packageCost, packageSize, packageUnit).value
  {
    FactorsPositive(packageUnit);
    IngredientCostValue(usedQuantity, usedUnit, packageCost, packageSize, packageUnit);
    CostPerUnitValue(packageCost, packageSize, packageUnit);
    ShareAlgebra(usedQuantity, ConversionToBase(usedUnit), ConversionToBase(packageUnit),
                 packageCost, packageSize);
  }

  /** The closed form of a successful `calculateIngredientCost`. */
  lemma IngredientCostValue(q: real, uu: Unit, pc: real, ps: real, pu: Unit)
    requires CanConvert(uu, pu) && ps != 0.0
    ensures var r := CalculateIngredientCost(q, uu, pc, ps, pu);
            r.Success? && r.value.Finite? &&
            r.value.value == (q * ConversionToBase(uu) / ConversionToBase(pu)) * (pc / ps)
  {
  }

  /** The closed form of a finite `calculateCostPerUnit`. */
  lemma CostPerUnitValue(pc: real, ps: real, pu: Unit)
    requires ps != 0.0
    ensures CalculateCostPerUnit(pc, ps, pu).Finite?
    ensures CalculateCostPerUnit(pc, ps, pu).value == pc / (ps * ConversionToBase(pu))
  {
    FactorsPositive(pu);
  }

  /** The field identities behind IngredientCostIsShareOfPackage. */
  lemma ShareAlgebra(q: real, fu: real, fp: real, pc: real, ps: real)
    requires fp > 0.0 && ps != 0.0
    ensures (q * fu / fp) * (pc / ps) * ps * fp == q * fu * pc
    ensures (q * fu / fp) * (pc / ps) == q * fu * (pc / (ps * fp))
  {
    var used := q * fu / fp;
    var per := pc / ps;
    assert used * fp == q * fu;
    assert per * ps == pc;
    calc {
      used * per * ps * fp;
      (used * fp) * (per * ps);
      q * fu * pc;
    }
    var cpu := pc / (ps * fp);
    assert cpu * (ps * fp) == pc;
    assert used * per == q * fu * cpu by {
      assert (q * fu * cpu) * (ps * fp) == q * fu * pc;
      assert (used * per) * (ps * fp) == q * fu * pc;
      assert ps * fp != 0.0;
    }
  }

  /** Half a pound (8 oz) out of a 16 oz package at 1.49 costs 0.745; one
      pound out of the same package costs the whole 1.49. */
  lemma PastaExamples()
    ensures CalculateIngredientCost(8.0, Oz, 1.49, 16.0, Oz) == Success(Finite(0.745))
    ensures CalculateIngredientCost(1.0, Lb, 1.49, 16.0, Oz) == Success(Finite(1.49))
  {
  }

  /** `formatUnit`: the display label of a unit, which is its source tag. */
  function FormatUnit(u: Unit): (s: string)
    ensures |s| >= 1
  {
    match u
    case Tsp => "tsp"
    case Tbsp => "tbsp"
    case Cup => "cup"
    case Oz => "oz"
    case Lb => "lb"
    case G => "g"
    case Kg => "kg"
    case Ml => "ml"
    case L => "L"
    case Each => "unit"
  }

  /** No two units share a label. */
  lemma FormatUnitInjective(u: Unit, v: Unit)
    ensures FormatUnit(u) == FormatUnit(v) ==> u == v
  {
  }

  /** The default package unit of a category: cup, lb or unit. */
  function DefaultUnit(c: Category): (u: Unit)
    ensures GetUnitCategory(u) == c
  {
    match c
    case Volume => Cup
    case Weight => Lb
    case Count => Each
  }
}
