/**
 * The catalogue of the 31 evaluation variables the game starts from, each with
 * its bounds, its category and a single history point on 2025-01-01, and the
 * lookups over it. The record is an object literal keyed by id; `Keys` lists its
 * keys and `Catalogue` its values, both in declaration order, which is the order
 * `Object.keys` and `Object.values` give.
 */
module Variables {
  import opened Types
  import opened Sequences

  /** A catalogue entry: the value starts as its own first, natural history point. */
  function Initial(id: string, value: real, minValue: real, maxValue: real, category: Category,
                   explanation: string): (v: Variable)
    ensures v.id == id && v.value == value && v.minValue == minValue && v.maxValue == maxValue
    ensures v.history == [HistoryPoint(GameDate(2025, 1, 1), value, Natural, None, explanation)]
  {
    Variable(id, value, minValue, maxValue, category,
             [HistoryPoint(GameDate(2025, 1, 1), value, Natural, None, explanation)])
  }

  /** The keys of the record, in declaration order, in four groups. */
  const Keys: seq<string> := KeysA + KeysB + KeysC + KeysD

  const KeysA: seq<string> := [
    "popularity", "coalition_social", "coalition_liberal", "unemployment", "economic_growth",
    "investment_attractiveness", "median_income", "tax_revenue"
  ]

  const KeysB: seq<string> := [
    "debt", "interest_costs", "inflation_rate", "financial_sustainability", "foreign_dependency",
    "security", "energy_security", "age_ratio"
  ]

  const KeysC: seq<string> := [
    "emigration", "immigration_eu", "immigration_non_eu", "gini_coefficient", "broadband_coverage",
    "digitalization_index", "bureaucracy_index", "future_viability_index"
  ]

  const KeysD: seq<string> := [
    "corruption_perception_index", "co2_reduction", "co2_reduction_path", "electrification_level",
    "renewable_electricity", "renewable_energy_total", "overall_rating"
  ]

  /** The entries of the record, in declaration order, in the same four groups. */
  const Catalogue: seq<Variable> := CatalogueA + CatalogueB + CatalogueC + CatalogueD

  const CatalogueA: seq<Variable> := [
    Initial("popularity", 50.0, 20.0, 80.0, Politics,
            "Ausgangswert zu Legislaturperioden-Beginn"),
    Initial("coalition_social", 50.0, 0.0, 90.0, Politics,
            "Koalitionsstart mit neutraler Zufriedenheit"),
    Initial("coalition_liberal", 50.0, 0.0, 90.0, Politics,
            "Koalitionsstart mit neutraler Zufriedenheit"),
    Initial("unemployment", 5.0, 1.0, 7.0, Economy,
            "Durchschnittliche Arbeitslosenquote 2025"),
    Initial("economic_growth", 0.0, -5.0, 5.0, Economy,
            "Wirtschaftsstagnation zu Jahresbeginn 2025"),
    Initial("investment_attractiveness", 50.0, 10.0, 95.0, Economy,
            "Mittlere Attraktivität im internationalen Vergleich"),
    Initial("median_income", 52000.0, 40000.0, 80000.0, Economy,
            "Ausgangswert Medianeinkommen 2025"),
    Initial("tax_revenue", 420.0, 300.0, 600.0, Economy,
            "Steueraufkommen basierend auf Wirtschaftslage 2025")
  ]

  const CatalogueB: seq<Variable> := [
    Initial("debt", 0.0, -500.0, 0.0, Economy,
            "Schuldenneutrale Ausgangslage"),
    Initial("interest_costs", 0.0, 0.0, 50.0, Economy,
            "Keine Zinszahlungen bei null Schulden"),
    Initial("inflation_rate", 2.5, -2.0, 8.0, Economy,
            "Moderate Inflation zu Jahresbeginn"),
    Initial("financial_sustainability", 50.0, 0.0, 100.0, Economy,
            "Ausgeglichene finanzielle Situation"),
    Initial("foreign_dependency", 70.0, 20.0, 90.0, Category.Security,
            "Hohe Abhängigkeit von Nicht-EU-Ländern"),
    Initial("security", 50.0, 20.0, 90.0, Category.Security,
            "Durchschnittliche Sicherheitslage"),
    Initial("energy_security", 50.0, 10.0, 95.0, Category.Security,
            "Mittlere Energiesicherheit nach Ende der Russland-Abhängigkeit"),
    Initial("age_ratio", 35.0, 25.0, 55.0, Society,
            "Demografischer Wandel - steigender Altersanteil")
  ]

  const CatalogueC: seq<Variable> := [
    Initial("emigration", 150000.0, 80000.0, 300000.0, Society,
            "Durchschnittliche Auswanderungsrate"),
    Initial("immigration_eu", 200000.0, 100000.0, 400000.0, Society,
            "EU-interne Mobilität und Fachkräftezuzug"),
    Initial("immigration_non_eu", 400000.0, 200000.0, 800000.0, Society,
            "Hohe Einwanderung aufgrund globaler Krisen und Fachkräftemangel"),
    Initial("gini_coefficient", 0.31, 0.25, 0.45, Society,
            "Mittlere Einkommensungleichheit in Deutschland"),
    Initial("broadband_coverage", 75.0, 40.0, 100.0, Society,
            "Fortschrittliche aber nicht flächendeckende Breitbandversorgung"),
    Initial("digitalization_index", 45.0, 20.0, 95.0, Society,
            "Deutschland hinkt bei Digitalisierung hinterher"),
    Initial("bureaucracy_index", 65.0, 20.0, 90.0, Society,
            "Hohe Bürokratiebelastung in Deutschland"),
    Initial("future_viability_index", 50.0, 20.0, 90.0, Overall,
            "Durchschnittliche Zukunftsfähigkeit")
  ]

  const CatalogueD: seq<Variable> := [
    Initial("corruption_perception_index", 75.0, 30.0, 95.0, Politics,
            "Deutschlands guter Ruf bei Korruptionsbekämpfung"),
    Initial("co2_reduction", 0.0, 0.0, 500.0, Environment,
            "Start der CO₂-Reduktion in 2025"),
    Initial("co2_reduction_path", 50.0, 0.0, 100.0, Environment,
            "Startposition auf dem Weg zu Klimaneutralität"),
    Initial("electrification_level", 35.0, 20.0, 90.0, Environment,
            "Beginnende Elektrifizierung aller Sektoren"),
    Initial("renewable_electricity", 45.0, 20.0, 100.0, Environment,
            "Fortschrittlicher Ausbau erneuerbarer Stromquellen"),
    Initial("renewable_energy_total", 20.0, 10.0, 90.0, Environment,
            "Niedrigerer Anteil wenn alle Sektoren einbezogen werden"),
    Initial("overall_rating", 50.0, 5.0, 98.0, Overall,
            "Durchschnittliche Ausgangslage zu Regierungsantritt")
  ]

  /** The 31 variables by name, in declaration order. */
  datatype VariableId =
    Popularity | CoalitionSocial | CoalitionLiberal | Unemployment | EconomicGrowth
    | InvestmentAttractiveness | MedianIncome | TaxRevenue | Debt | InterestCosts | InflationRate
    | FinancialSustainability | ForeignDependency | Security | EnergySecurity | AgeRatio
    | Emigration | ImmigrationEu | ImmigrationNonEu | GiniCoefficient | BroadbandCoverage
    | DigitalizationIndex | BureaucracyIndex | FutureViabilityIndex | CorruptionPerceptionIndex
    | Co2Reduction | Co2ReductionPath | ElectrificationLevel | RenewableElectricity
    | RenewableEnergyTotal | OverallRating

  /** The key a variable is recorded under. */
  function Name(v: VariableId): string
  {
    match v
    case Popularity => "popularity"
    case CoalitionSocial => "coalition_social"
    case CoalitionLiberal => "coalition_liberal"
    case Unemployment => "unemployment"
    case EconomicGrowth => "economic_growth"
    case InvestmentAttractiveness => "investment_attractiveness"
    case MedianIncome => "median_income"
    case TaxRevenue => "tax_revenue"
    case Debt => "debt"
    case InterestCosts => "interest_costs"
    case InflationRate => "inflation_rate"
    case FinancialSustainability => "financial_sustainability"
    case ForeignDependency => "foreign_dependency"
    case Security => "security"
    case EnergySecurity => "energy_security"
    case AgeRatio => "age_ratio"
    case Emigration => "emigration"
    case ImmigrationEu => "immigration_eu"
    case ImmigrationNonEu => "immigration_non_eu"
    case GiniCoefficient => "gini_coefficient"
    case BroadbandCoverage => "broadband_coverage"
    case DigitalizationIndex => "digitalization_index"
    case BureaucracyIndex => "bureaucracy_index"
    case FutureViabilityIndex => "future_viability_index"
    case CorruptionPerceptionIndex => "corruption_perception_index"
    case Co2Reduction => "co2_reduction"
    case Co2ReductionPath => "co2_reduction_path"
    case ElectrificationLevel => "electrification_level"
    case RenewableElectricity => "renewable_electricity"
    case RenewableEnergyTotal => "renewable_energy_total"
    case OverallRating => "overall_rating"
  }

  function Position(v: VariableId): (r: int)
    ensures 0 <= r < |Keys| && Keys[r] == Name(v)
  {
    match v
    case Popularity => 0
    case CoalitionSocial => 1
    case CoalitionLiberal => 2
    case Unemployment => 3
    case EconomicGrowth => 4
    case InvestmentAttractiveness => 5
    case MedianIncome => 6
    case TaxRevenue => 7
    case Debt => 8
    case InterestCosts => 9
    case InflationRate => 10
    case FinancialSustainability => 11
    case ForeignDependency => 12
    case Security => 13
    case EnergySecurity => 14
    case AgeRatio => 15
    case Emigration => 16
    case ImmigrationEu => 17
    case ImmigrationNonEu => 18
    case GiniCoefficient => 19
    case BroadbandCoverage => 20
    case DigitalizationIndex => 21
    case BureaucracyIndex => 22
    case FutureViabilityIndex => 23
    case CorruptionPerceptionIndex => 24
    case Co2Reduction => 25
    case Co2ReductionPath => 26
    case ElectrificationLevel => 27
    case RenewableElectricity => 28
    case RenewableEnergyTotal => 29
    case OverallRating => 30
  }

  /** An id that names one of the variables. */
  ghost predicate Named(id: string)
  {
    exists v :: Name(v) == id
  }

  /** Every named variable is a key of the record. */
  lemma NamedIsKey(id: string)
    requires Named(id)
    ensures id in Keys
  {
    var v :| Name(v) == id;
    var _ := Position(v);
  }

  /** A variable whose value lies within its bounds and which has a history. */
  predicate WellFormed(v: Variable)
  {
    v.minValue < v.maxValue && v.minValue <= v.value <= v.maxValue && |v.history| >= 1
  }

  /** The object literal with `keys[i]` bound to `values[i]`; a later key wins. */
  function Record(keys: seq<string>, values: seq<Variable>): (m: map<string, Variable>)
    requires |keys| == |values|
    ensures m.Keys == set i | 0 <= i < |keys| :: keys[i]
    ensures forall k :: k in m ==> m[k] in values
  {
    if keys == [] then map[]
    else
      var n := |keys| - 1;
      var m := Record(keys[..n], values[..n]);
      assert forall i :: 0 <= i < n ==> keys[..n][i] == keys[i];
      assert forall v :: v in values[..n] ==> v in values;
      m[keys[n] := values[n]]
  }

  /** With distinct keys, each value is found under its own key. */
  lemma {:induction false} RecordFinds(keys: seq<string>, values: seq<Variable>, i: int)
    requires |keys| == |values| && Distinct(keys) && 0 <= i < |keys|
    ensures keys[i] in Record(keys, values) && Record(keys, values)[keys[i]] == values[i]
  {
    var n := |keys| - 1;
    if i < n {
      assert keys[..n][i] == keys[i] && values[..n][i] == values[i];
      assert Distinct(keys[..n]);
      RecordFinds(keys[..n], values[..n], i);
    }
  }

  lemma {:induction false} DistinctCardinality(ids: seq<string>)
    requires Distinct(ids)
    ensures |set i | 0 <= i < |ids| :: ids[i]| == |ids|
  {
    if ids != [] {
      var n := |ids| - 1;
      var init := ids[..n];
      assert Distinct(init);
      DistinctCardinality(init);
      var s := set i | 0 <= i < |init| :: init[i];
      assert (set i | 0 <= i < |ids| :: ids[i]) == s + {ids[n]};
      assert ids[n] !in s;
    }
  }

  /** `initialVariables`. */
  function InitialVariables(): map<string, Variable>
  {
    Record(Keys, Catalogue)
  }

  /** Each entry is the variable of the key declared with it. */
  predicate KeyedBy(vs: seq<Variable>, keys: seq<string>)
  {
    |vs| == |keys| && forall i :: 0 <= i < |vs| ==> vs[i].id == keys[i]
  }

  /** An entry as the record declares it: within its bounds, with a single natural
      history point at the game's start that carries its initial value. */
  predicate Declared(v: Variable)
  {
    WellFormed(v) && |v.history| == 1 && v.history[0].date == GameDate(2025, 1, 1) &&
    v.history[0].value == v.value && v.history[0].source == Natural
  }

  predicate AllDeclared(vs: seq<Variable>)
  {
    forall i :: 0 <= i < |vs| ==> Declared(vs[i])
  }

  lemma KeyedConcat(a: seq<Variable>, b: seq<Variable>, ka: seq<string>, kb: seq<string>)
    requires KeyedBy(a, ka) && KeyedBy(b, kb)
    ensures KeyedBy(a + b, ka + kb)
  {
    forall i | 0 <= i < |a + b|
      ensures (a + b)[i].id == (ka + kb)[i]
    {
      if i >= |a| { assert (a + b)[i] == b[i - |a|] && (ka + kb)[i] == kb[i - |a|]; }
    }
  }

  lemma DeclaredConcat(a: seq<Variable>, b: seq<Variable>)
    requires AllDeclared(a) && AllDeclared(b)
    ensures AllDeclared(a + b)
  {
    forall i | 0 <= i < |a + b|
      ensures Declared((a + b)[i])
    {
      if i >= |a| { assert (a + b)[i] == b[i - |a|]; }
    }
  }

  // The record checked group by group.
  lemma GroupA() ensures Distinct(KeysA) && KeyedBy(CatalogueA, KeysA) && AllDeclared(CatalogueA) { }
  lemma GroupB() ensures Distinct(KeysB) && KeyedBy(CatalogueB, KeysB) && AllDeclared(CatalogueB) { }
  lemma GroupC() ensures Distinct(KeysC) && KeyedBy(CatalogueC, KeysC) && AllDeclared(CatalogueC) { }
  lemma GroupD() ensures Distinct(KeysD) && KeyedBy(CatalogueD, KeysD) && AllDeclared(CatalogueD) { }
  lemma KeysABApart() ensures Apart(KeysA, KeysB) { }
  lemma KeysACApart() ensures Apart(KeysA, KeysC) { }
  lemma KeysADApart() ensures Apart(KeysA, KeysD) { }
  lemma KeysBCApart() ensures Apart(KeysB, KeysC) { }
  lemma KeysBDApart() ensures Apart(KeysB, KeysD) { }
  lemma KeysCDApart() ensures Apart(KeysC, KeysD) { }

  /** 31 distinct keys, each the id of the entry declared under it. */
  lemma KeysFacts()
    ensures |Keys| == |Catalogue| == 31 && Distinct(Keys)
    ensures forall i :: 0 <= i < |Keys| ==> Catalogue[i].id == Keys[i]
  {
    GroupA(); GroupB(); GroupC(); GroupD();
    KeysABApart(); KeysACApart(); KeysADApart(); KeysBCApart(); KeysBDApart(); KeysCDApart();
    DistinctConcat(KeysA, KeysB);
    ApartConcat(KeysA, KeysB, KeysC);
    DistinctConcat(KeysA + KeysB, KeysC);
    ApartConcat(KeysA, KeysB, KeysD);
    ApartConcat(KeysA + KeysB, KeysC, KeysD);
    DistinctConcat(KeysA + KeysB + KeysC, KeysD);
    KeyedConcat(CatalogueA, CatalogueB, KeysA, KeysB);
    KeyedConcat(CatalogueA + CatalogueB, CatalogueC, KeysA + KeysB, KeysC);
    KeyedConcat(CatalogueA + CatalogueB + CatalogueC, CatalogueD, KeysA + KeysB + KeysC, KeysD);
  }

  /** Every entry lies within its bounds and has a single natural history point at
      the game's start that carries its initial value. */
  lemma CatalogueWellFormed()
    ensures forall i :: 0 <= i < |Catalogue| ==> Declared(Catalogue[i])
  {
    GroupA(); GroupB(); GroupC(); GroupD();
    DeclaredConcat(CatalogueA, CatalogueB);
    DeclaredConcat(CatalogueA + CatalogueB, CatalogueC);
    DeclaredConcat(CatalogueA + CatalogueB + CatalogueC, CatalogueD);
  }

  /** The initial record holds 31 variables, each under its own id. */
  lemma InitialVariablesFacts()
    ensures InitialVariables().Keys == set i | 0 <= i < |Keys| :: Keys[i]
    ensures |InitialVariables().Keys| == 31
    ensures forall i :: 0 <= i < |Keys| ==> InitialVariables()[Keys[i]] == Catalogue[i]
    ensures forall k :: k in InitialVariables() ==>
      InitialVariables()[k].id == k && Declared(InitialVariables()[k]) && InitialVariables()[k] in Catalogue
  {
    KeysFacts();
    CatalogueWellFormed();
    forall i | 0 <= i < |Keys|
      ensures Keys[i] in InitialVariables() && InitialVariables()[Keys[i]] == Catalogue[i]
    {
      RecordFinds(Keys, Catalogue, i);
    }
    forall k | k in InitialVariables()
      ensures InitialVariables()[k].id == k && Declared(InitialVariables()[k]) && InitialVariables()[k] in Catalogue
    {
      var i :| 0 <= i < |Keys| && Keys[i] == k;
      assert InitialVariables()[k] == Catalogue[i];
    }
    DistinctCardinality(Keys);
  }

  lemma RatingEntry()
    ensures |CatalogueA + CatalogueB + CatalogueC| == 24 && |KeysA + KeysB + KeysC| == 24
    ensures CatalogueD[6].minValue == 5.0 && CatalogueD[6].maxValue == 98.0
    ensures KeysD[6] == "overall_rating" && KeysA[0] == "popularity"
  {
    GroupA(); GroupB(); GroupC();
  }

  /** Popularity and the overall rating are present, and the rating's bounds are
      [5, 98]. */
  lemma InitialRatingBounds()
    ensures "popularity" in InitialVariables() && "overall_rating" in InitialVariables()
    ensures InitialVariables()["overall_rating"].minValue == 5.0
    ensures InitialVariables()["overall_rating"].maxValue == 98.0
  {
    InitialVariablesFacts();
    RatingEntry();
    assert Keys[0] == "popularity" && Keys[30] == "overall_rating";
    assert Catalogue[30] == CatalogueD[6];
    assert Keys[0] in InitialVariables() && Keys[30] in InitialVariables();
    assert InitialVariables()[Keys[30]] == Catalogue[30];
  }

  /** `getVariableById`. */
  function GetVariableById(id: string): (r: Option<Variable>)
    ensures r.Some? <==> id in Keys
    ensures r.Some? ==> r.value.id == id && WellFormed(r.value) && r.value in Catalogue
  {
    InitialVariablesFacts();
    Lookup(InitialVariables(), id)
  }

  /** The variables of one category, in order. */
  function Filter(vs: seq<Variable>, category: Category): (r: seq<Variable>)
    ensures forall v :: v in r <==> v in vs && v.category == category
    ensures |r| <= |vs|
  {
    if vs == [] then []
    else
      var n := |vs| - 1;
      var rest := Filter(vs[..n], category);
      assert vs == vs[..n] + [vs[n]];
      if vs[n].category == category then rest + [vs[n]] else rest
  }

  /** `getVariablesByCategory`. */
  function VariablesByCategory(category: Category): (r: seq<Variable>)
    ensures forall v :: v in r <==> v in Catalogue && v.category == category
  {
    Filter(Catalogue, category)
  }

  /** `getAllVariableIds`: the keys in declaration order, each naming its variable. */
  function AllVariableIds(): (r: seq<string>)
    ensures |r| == 31 && Distinct(r)
    ensures forall i :: 0 <= i < |r| ==> GetVariableById(r[i]) == Some(Catalogue[i])
  {
    InitialVariablesFacts();
    KeysFacts();
    Keys
  }

  /** `validateVariableValue`: false for an unknown id, else the inclusive bounds. */
  function ValidateVariableValue(id: string, value: real): (r: bool)
    ensures r <==> (id in InitialVariables() &&
                    InitialVariables()[id].minValue <= value <= InitialVariables()[id].maxValue)
  {
    InitialVariablesFacts();
    match GetVariableById(id)
    case None => false
    case Some(v) => value >= v.minValue && value <= v.maxValue
  }

  /** Every initial value validates, and no value outside a variable's bounds does. */
  lemma InitialValuesValidate(i: int, value: real)
    requires 0 <= i < |Catalogue|
    ensures ValidateVariableValue(Catalogue[i].id, Catalogue[i].value)
    ensures value < Catalogue[i].minValue || Catalogue[i].maxValue < value ==>
      !ValidateVariableValue(Catalogue[i].id, value)
  {
    InitialVariablesFacts();
    KeysFacts();
    var k := Keys[i];
    assert k == Catalogue[i].id && InitialVariables()[k] == Catalogue[i];
    assert WellFormed(InitialVariables()[k]);
  }

  /** The categories partition the catalogue. */
  lemma CategoriesPartition(v: Variable)
    requires v in Catalogue
    ensures v in VariablesByCategory(v.category)
    ensures forall c :: c != v.category ==> v !in VariablesByCategory(c)
  {
  }
}
