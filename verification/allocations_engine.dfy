/**
 The allocation engine of ui/allocations_engine.py: the per-country
 instrument rules, the `AllocationEngine` pipeline (filter eligible
 instruments, normalise to 100 %, apply investment caps, convert to money),
 the age-banded default models and the public `build_allocation_model`
 together with its age filter and its rounding normaliser.

 Allocations are dictionaries from instrument name to a percentage.
 */
module AllocationsEngine {
  import opened Common

  // ---------------------------------------------------------------------
  // Rules
  // ---------------------------------------------------------------------

  /** What a country allows for one instrument; `None` is "no limit". */
  datatype InstrumentRule = InstrumentRule(
    name: string,
    minAge: Option<int>,
    maxAge: Option<int>,
    maxAllocationPct: Option<real>,
    maxInvestmentAmount: Option<real>,
    enabled: bool)

  /** A rule with every optional field at its default. */
  function Plain(name: string): InstrumentRule {
    InstrumentRule(name, None, None, None, None, true)
  }

  /** Python truthiness of an optional number: `None` and zero are false. */
  predicate TruthyInt(o: Option<int>) { o.Some? && o.value != 0 }
  predicate TruthyReal(o: Option<real>) { o.Some? && o.value != 0.0 }

  const ScssMinAge: int := 60
  /** Rs 30 lakh, the SCSS investment ceiling. */
  const ScssMax: real := 3000000.0
  /** Rs 4.5 lakh, the POMIS ceiling for a single holder. */
  const PomisMaxSingle: real := 450000.0

  const IndiaRules: map<string, InstrumentRule> := map[
    "SWP" := Plain("SWP").(maxAllocationPct := Some(100.0)),
    "FD" := Plain("FD").(maxAllocationPct := Some(100.0)),
    "SCSS" := Plain("SCSS").(minAge := Some(60), maxAllocationPct := Some(100.0),
                             maxInvestmentAmount := Some(3000000.0)),
    "POMIS" := Plain("POMIS").(maxAllocationPct := Some(100.0),
                               maxInvestmentAmount := Some(450000.0))
  ]

  const UsRules: map<string, InstrumentRule> := map[
    "SWP" := Plain("SWP"), "401K" := Plain("401K"),
    "IRA" := Plain("IRA"), "BROKERAGE" := Plain("BROKERAGE")
  ]

  const UkRules: map<string, InstrumentRule> := map[
    "SWP" := Plain("SWP"), "PENSION" := Plain("PENSION"), "ISA" := Plain("ISA")
  ]

  /** `COUNTRY_RULES.get(country)`. */
  function CountryRules(country: string): Option<map<string, InstrumentRule>> {
    if country == "IN" then Some(IndiaRules)
    else if country == "US" then Some(UsRules)
    else if country == "UK" then Some(UkRules)
    else None
  }

  /** Each table is keyed by rule name, and every investment ceiling is positive. */
  lemma RulesWellFormed(country: string, inst: string)
    requires CountryRules(country).Some? && inst in CountryRules(country).value
    ensures CountryRules(country).value[inst].name == inst
    ensures CountryRules(country).value[inst].enabled
    ensures CountryRules(country).value[inst].maxAge.None?
    ensures CountryRules(country).value[inst].maxInvestmentAmount.Some? ==>
              CountryRules(country).value[inst].maxInvestmentAmount.value > 0.0
  {
  }

  // ---------------------------------------------------------------------
  // The engine
  // ---------------------------------------------------------------------

  datatype Engine = Engine(country: string, age: int, amount: real) {
    /** `self.rules`; the constructor only accepts a country that has a table. */
    function Rules(): map<string, InstrumentRule> {
      CountryRules(country).GetOr(map[])
    }

    /** The test `filter_eligible` applies to one instrument. */
    predicate Eligible(inst: string) {
      inst in Rules() && Rules()[inst].enabled
      && !(TruthyInt(Rules()[inst].minAge) && age < Rules()[inst].minAge.value)
      && !(TruthyInt(Rules()[inst].maxAge) && age > Rules()[inst].maxAge.value)
    }

    /** Whether `pct` of the investable amount exceeds the instrument's ceiling. */
    predicate OverCap(inst: string, pct: real)
      requires inst in Rules()
    {
      TruthyReal(Rules()[inst].maxInvestmentAmount)
      && amount * pct / 100.0 > Rules()[inst].maxInvestmentAmount.value
    }

    /** The percentage `apply_caps` keeps for one instrument. */
    function CappedPct(inst: string, pct: real): real
      requires inst in Rules()
    {
      if OverCap(inst, pct) then
        RulesWellFormed(country, inst);
        Rules()[inst].maxInvestmentAmount.value * 100.0 / amount
      else pct
    }
  }

  /** `AllocationEngine(country, age, investable_amount)`; an unknown country is a KeyError. */
  function NewEngine(country: string, age: int, investableAmount: real): (r: Result<Engine>)
    ensures r.Ok? <==> country in {"IN", "US", "UK"}
    ensures r.Err? ==> r.error == KeyError(country)
    ensures r.Ok? ==> r.value.Rules() == CountryRules(country).value
    ensures r.Ok? ==> r.value.age == age && r.value.amount == investableAmount
  {
    if CountryRules(country).None? then Err(KeyError(country))
    else Ok(Engine(country, age, investableAmount))
  }

  /** Step 1: drop instruments without an enabled rule or outside the rule's age range. */
  function FilterEligible(e: Engine, allocations: map<string, real>): (r: map<string, real>)
    ensures forall k :: k in r <==> k in allocations && e.Eligible(k)
    ensures forall k | k in r :: r[k] == allocations[k]
  {
    map k | k in allocations && e.Eligible(k) :: allocations[k]
  }

  /** In India SCSS is the only instrument with an age limit, and it opens at 60. */
  lemma FilterEligibleIndia(e: Engine, allocations: map<string, real>, k: string)
    requires e.country == "IN"
    ensures k in FilterEligible(e, allocations) <==>
              k in allocations && (k in {"SWP", "FD", "POMIS"} || (k == "SCSS" && e.age >= 60))
  {
  }

  /** In the US and UK every instrument with a rule is kept, whatever the age. */
  lemma FilterEligibleNoAgeLimits(e: Engine, allocations: map<string, real>)
    requires e.country in {"US", "UK"}
    ensures FilterEligible(e, allocations).Keys == allocations.Keys * e.Rules().Keys
  {
  }

  /** Filtering a filtered allocation changes nothing. */
  lemma FilterEligibleIdempotent(e: Engine, allocations: map<string, real>)
    ensures FilterEligible(e, FilterEligible(e, allocations)) == FilterEligible(e, allocations)
  {
  }

  /**
   Step 2: scale to a total of 100; a zero total is returned as it is.
   Otherwise each instrument's new value is its fraction of the total, as a
   percentage.
   */
  function Normalize(allocations: map<string, real>): (r: map<string, real>)
    ensures r.Keys == allocations.Keys
    ensures Sum(allocations) == 0.0 ==> r == allocations
    ensures Sum(allocations) != 0.0 ==> PercentShares(r, allocations, Sum(allocations))
  {
    if Sum(allocations) == 0.0 then allocations else ScaledTo100(allocations, Sum(allocations))
  }

  /** Each value of `r` is the matching value of `a` as a percentage of `total`: `r[k] * total == a[k] * 100`. */
  predicate PercentShares(r: map<string, real>, a: map<string, real>, total: real)
    requires r.Keys == a.Keys
  {
    forall k | k in r :: r[k] * total == a[k] * 100.0
  }

  /** Every value as a percentage of a non-zero `total`. */
  function ScaledTo100(allocations: map<string, real>, total: real): (r: map<string, real>)
    requires total != 0.0
    ensures r.Keys == allocations.Keys
    ensures PercentShares(r, allocations, total)
  {
    ScaleShares(allocations, total);
    Scale(allocations, 100.0 / total)
  }

  lemma ScaleShares(allocations: map<string, real>, total: real)
    requires total != 0.0
    ensures forall k | k in allocations :: Scale(allocations, 100.0 / total)[k] * total == allocations[k] * 100.0
    ensures forall k | k in allocations :: Scale(allocations, 100.0 / total)[k] == allocations[k] * 100.0 / total
  {
    forall k | k in allocations
      ensures Scale(allocations, 100.0 / total)[k] * total == allocations[k] * 100.0
      ensures Scale(allocations, 100.0 / total)[k] == allocations[k] * 100.0 / total
    {
      ShareArith(allocations[k], total);
    }
  }

  lemma ShareArith(a: real, total: real)
    requires total != 0.0
    ensures a * (100.0 / total) * total == a * 100.0
    ensures a * (100.0 / total) == a * 100.0 / total
  {
  }

  /** A non-zero total becomes exactly 100 (a negative total too); a zero total stays. */
  lemma NormalizeSum(allocations: map<string, real>)
    ensures Sum(allocations) == 0.0 ==> Normalize(allocations) == allocations
    ensures Sum(allocations) != 0.0 ==> Sum(Normalize(allocations)) == 100.0
  {
    if Sum(allocations) != 0.0 {
      ScaledTo100Sum(allocations, Sum(allocations));
    }
  }

  /** Scaling to percentages of the total takes the sum to exactly 100. */
  lemma ScaledTo100Sum(allocations: map<string, real>, total: real)
    requires Sum(allocations) == total && total != 0.0
    ensures Sum(ScaledTo100(allocations, total)) == 100.0
  {
    assert ScaledTo100(allocations, total) == Scale(allocations, 100.0 / total);
    ShareFactor(100.0, total, 100.0 / total);
    SumScale(allocations, 100.0 / total, total);
  }

  /** Normalising keeps every ratio between two instruments. */
  lemma NormalizeProportional(allocations: map<string, real>, j: string, k: string)
    requires j in allocations && k in allocations
    ensures Normalize(allocations)[j] * allocations[k] == Normalize(allocations)[k] * allocations[j]
  {
    var n := Normalize(allocations);
    if Sum(allocations) != 0.0 {
      RatioArith(n[j], n[k], allocations[j], allocations[k], Sum(allocations));
    } else {
      RatioArith(allocations[j], allocations[k], allocations[j], allocations[k], 100.0);
    }
  }

  lemma RatioArith(nj: real, nk: real, aj: real, ak: real, t: real)
    requires t != 0.0 && nj * t == aj * 100.0 && nk * t == ak * 100.0
    ensures nj * ak == nk * aj
  {
    assert nj * ak * t * 100.0 == (nj * t) * (ak * 100.0);
    assert nk * aj * t * 100.0 == (nk * t) * (aj * 100.0);
    assert (nj * ak) * (t * 100.0) == (nk * aj) * (t * 100.0);
  }

  /** Normalising a normalised allocation changes nothing. */
  lemma NormalizeIdempotent(allocations: map<string, real>)
    ensures Normalize(Normalize(allocations)) == Normalize(allocations)
  {
    var n := Normalize(allocations);
    NormalizeSum(allocations);
    if Sum(allocations) != 0.0 {
      NormalizeSum(n);
      assert Normalize(n) == Scale(n, 1.0);
      ScaleOne(n);
    }
  }

  lemma ScaleOne(m: map<string, real>)
    ensures Scale(m, 1.0) == m
  {
  }

  // ----- step 3: caps -----

  /** The first pass of `apply_caps`: every instrument over its ceiling is cut down to it. */
  function FirstPass(e: Engine, allocations: map<string, real>): (r: map<string, real>)
    requires allocations.Keys <= e.Rules().Keys
    ensures r.Keys == allocations.Keys
  {
    map k | k in allocations :: e.CappedPct(k, allocations[k])
  }

  /** What each instrument gave up in the first pass. */
  function Excess(e: Engine, allocations: map<string, real>): (r: map<string, real>)
    requires allocations.Keys <= e.Rules().Keys
    ensures r.Keys == allocations.Keys
  {
    map k | k in allocations ::
      if e.OverCap(k, allocations[k]) then allocations[k] - e.CappedPct(k, allocations[k]) else 0.0
  }

  /** The instruments that receive a share of the leftover. */
  function Receivers(first: map<string, real>): set<string> {
    set k | k in first && first[k] > 0.0
  }

  /** The leftover split equally over the instruments with a positive share. */
  function Spread(first: map<string, real>, leftover: real): (r: map<string, real>)
    ensures r.Keys == first.Keys
  {
    var eligible := Receivers(first);
    if leftover > 0.0 && |eligible| > 0 then
      map k | k in first :: if k in eligible then first[k] + leftover / |eligible| as real else first[k]
    else first
  }

  /** Step 3: cap, hand the leftover out equally, normalise. A key without a rule is a KeyError. */
  function ApplyCaps(e: Engine, allocations: map<string, real>): (r: Result<map<string, real>>)
    ensures r.Err? <==> !(allocations.Keys <= e.Rules().Keys)
    ensures r.Err? ==> r.error == KeyErrorAmong(allocations.Keys - e.Rules().Keys)
    ensures r.Ok? ==> r.value.Keys == allocations.Keys
  {
    if !(allocations.Keys <= e.Rules().Keys) then
      Err(KeyErrorAmong(allocations.Keys - e.Rules().Keys))
    else
      Ok(Normalize(Spread(FirstPass(e, allocations), Sum(Excess(e, allocations)))))
  }

  /** An instrument cut down in the first pass is invested exactly at its ceiling. */
  lemma CappedAtCeiling(e: Engine, inst: string, pct: real)
    requires inst in e.Rules() && e.OverCap(inst, pct)
    ensures e.amount * e.CappedPct(inst, pct) / 100.0 == e.Rules()[inst].maxInvestmentAmount.value
    ensures e.amount > 0.0 ==> e.CappedPct(inst, pct) < pct
  {
    RulesWellFormed(e.country, inst);
    var cap := e.Rules()[inst].maxInvestmentAmount.value;
    CapArith(e.amount, pct, cap);
  }

  lemma CapArith(a: real, pct: real, cap: real)
    requires cap > 0.0 && a * pct / 100.0 > cap
    ensures a != 0.0
    ensures a * (cap * 100.0 / a) / 100.0 == cap
    ensures a > 0.0 ==> cap * 100.0 / a < pct
  {
    if a > 0.0 {
      assert a * pct > cap * 100.0;
      assert cap * 100.0 < pct * a;
    }
  }

  /** The first pass takes away exactly the excess: weight is conserved. */
  lemma FirstPassConserves(e: Engine, allocations: map<string, real>)
    requires allocations.Keys <= e.Rules().Keys
    ensures Sum(FirstPass(e, allocations)) + Sum(Excess(e, allocations)) == Sum(allocations)
  {
    SumPlus(FirstPass(e, allocations), Excess(e, allocations), allocations);
  }

  /** Spreading adds the whole leftover when some instrument can receive it, and nothing otherwise. */
  lemma SpreadConserves(first: map<string, real>, leftover: real)
    ensures leftover > 0.0 && |Receivers(first)| > 0 ==> Sum(Spread(first, leftover)) == Sum(first) + leftover
    ensures !(leftover > 0.0 && |Receivers(first)| > 0) ==> Spread(first, leftover) == first
  {
    var eligible := Receivers(first);
    if leftover > 0.0 && |eligible| > 0 {
      SumSpread(first, eligible, leftover, Spread(first, leftover));
    }
  }

  /** With no instrument over its ceiling, `apply_caps` is plain normalisation. */
  lemma ApplyCapsUncapped(e: Engine, allocations: map<string, real>)
    requires allocations.Keys <= e.Rules().Keys
    requires forall k | k in allocations :: !e.OverCap(k, allocations[k])
    ensures ApplyCaps(e, allocations) == Ok(Normalize(allocations))
  {
    assert FirstPass(e, allocations) == allocations;
    SumZero(Excess(e, allocations));
  }

  /**
   When something was cut and some instrument can take the leftover, the
   total before the final normalisation is the input total, so a non-zero
   input comes out summing to 100.
   */
  lemma ApplyCapsConserves(e: Engine, allocations: map<string, real>)
    requires allocations.Keys <= e.Rules().Keys
    ensures Sum(Excess(e, allocations)) > 0.0 && |Receivers(FirstPass(e, allocations))| > 0 ==>
              Sum(Spread(FirstPass(e, allocations), Sum(Excess(e, allocations)))) == Sum(allocations)
    ensures Sum(Excess(e, allocations)) > 0.0 && |Receivers(FirstPass(e, allocations))| > 0 && Sum(allocations) != 0.0 ==>
              Sum(ApplyCaps(e, allocations).value) == 100.0
  {
    FirstPassConserves(e, allocations);
    SpreadFrom(Sum(allocations), FirstPass(e, allocations), Excess(e, allocations));
  }

  lemma SpreadFrom(total: real, first: map<string, real>, excess: map<string, real>)
    requires Sum(first) + Sum(excess) == total
    ensures Sum(excess) > 0.0 && |Receivers(first)| > 0 ==> Sum(Spread(first, Sum(excess))) == total
    ensures Sum(excess) > 0.0 && |Receivers(first)| > 0 && total != 0.0 ==>
              Sum(Normalize(Spread(first, Sum(excess)))) == 100.0
  {
    SpreadConserves(first, Sum(excess));
    NormalizeSum(Spread(first, Sum(excess)));
  }

  // ----- step 4 and the pipeline -----

  /** Step 4: the money each percentage stands for, rounded to cents. */
  function ToAmounts(e: Engine, allocations: map<string, real>): (r: map<string, real>)
    ensures r.Keys == allocations.Keys
    ensures forall k | k in allocations ::
              e.amount * allocations[k] / 100.0 - 0.005 < r[k] <= e.amount * allocations[k] / 100.0 + 0.005
  {
    RoundValues(PercentOf(e.amount, allocations))
  }

  /** Amounts of an allocation summing to 100 add up to the investable amount, up to half a cent per instrument. */
  lemma ToAmountsTotal(e: Engine, allocations: map<string, real>)
    requires Sum(allocations) == 100.0
    ensures e.amount - 0.005 * |allocations| as real <= Sum(ToAmounts(e, allocations))
    ensures Sum(ToAmounts(e, allocations)) <= e.amount + 0.005 * |allocations| as real
  {
    ExactAmountsTotal(e, allocations);
    ToAmountsClose(e, allocations);
  }

  lemma ExactAmountsTotal(e: Engine, allocations: map<string, real>)
    requires Sum(allocations) == 100.0
    ensures Sum(PercentOf(e.amount, allocations)) == e.amount
  {
    SumPercentOfHundred(e.amount, allocations);
  }

  lemma ToAmountsClose(e: Engine, allocations: map<string, real>)
    ensures Sum(PercentOf(e.amount, allocations)) - 0.005 * |allocations| as real <= Sum(ToAmounts(e, allocations))
    ensures Sum(ToAmounts(e, allocations)) <= Sum(PercentOf(e.amount, allocations)) + 0.005 * |allocations| as real
  {
    var exact := PercentOf(e.amount, allocations);
    assert |exact| == |allocations| by { assert exact.Keys == allocations.Keys; }
    SumClose(exact, ToAmounts(e, allocations));
  }

  datatype Built = Built(finalPercentages: map<string, real>, finalAmounts: map<string, real>)

  /** `build`: the four steps in order. The KeyError of step 3 cannot arise after step 1. */
  function Build(e: Engine, rawAllocations: map<string, real>): (r: Built)
    ensures r.finalPercentages.Keys == r.finalAmounts.Keys
    ensures forall k :: k in r.finalPercentages <==> k in rawAllocations && e.Eligible(k)
    ensures r.finalAmounts == ToAmounts(e, r.finalPercentages)
  {
    var step1 := FilterEligible(e, rawAllocations);
    var step2 := Normalize(step1);
    var step3 := ApplyCaps(e, step2);
    var amounts := ToAmounts(e, step3.value);
    Built(step3.value, amounts)
  }

  /**
   With a non-zero eligible total the final percentages sum to 100, both when
   nothing is over its ceiling and when something was cut and some
   instrument with a positive share takes the leftover.
   */
  lemma BuildSumsTo100(e: Engine, rawAllocations: map<string, real>)
    requires Sum(FilterEligible(e, rawAllocations)) != 0.0
    ensures var step2 := Normalize(FilterEligible(e, rawAllocations));
            (forall k | k in step2 :: !e.OverCap(k, step2[k])) ==>
              Sum(Build(e, rawAllocations).finalPercentages) == 100.0
    ensures var step2 := Normalize(FilterEligible(e, rawAllocations));
            Sum(Excess(e, step2)) > 0.0 && |Receivers(FirstPass(e, step2))| > 0 ==>
              Sum(Build(e, rawAllocations).finalPercentages) == 100.0
  {
    var step1 := FilterEligible(e, rawAllocations);
    var step2 := Normalize(step1);
    NormalizeSum(step1);
    if forall k | k in step2 :: !e.OverCap(k, step2[k]) {
      ApplyCapsUncapped(e, step2);
      NormalizeIdempotent(step1);
    }
    ApplyCapsConserves(e, step2);
  }

  // ---------------------------------------------------------------------
  // Default models by country
  // ---------------------------------------------------------------------

  datatype AllocationModel = AllocationModel(allocations: map<string, real>, rates: map<string, real>)

  /** India: three age bands; `age and age >= ...`, so a missing or zero age is the youngest band. */
  function IndiaModel(age: Option<int>, corpus: real): (r: AllocationModel)
    ensures r.allocations.Keys == r.rates.Keys == IndiaRules.Keys
    ensures r.allocations["SCSS"] > 0.0 <==> TruthyInt(age) && age.value >= ScssMinAge
  {
    var alloc :=
      if TruthyInt(age) && age.value >= 60 then
        map["SWP" := 35.0, "FD" := 25.0, "SCSS" := 25.0, "POMIS" := 15.0]
      else if TruthyInt(age) && age.value >= 45 then
        map["SWP" := 55.0, "FD" := 30.0, "SCSS" := 0.0, "POMIS" := 15.0]
      else
        map["SWP" := 70.0, "FD" := 20.0, "SCSS" := 0.0, "POMIS" := 10.0];
    AllocationModel(alloc, map["SWP" := 8.0, "FD" := 6.5, "SCSS" := 8.2, "POMIS" := 7.4])
  }

  /** The US: one table whatever the age. */
  function UsModel(age: Option<int>, corpus: real): (r: AllocationModel)
    ensures r.allocations.Keys == r.rates.Keys == UsRules.Keys
  {
    AllocationModel(
      map["SWP" := 50.0, "401K" := 25.0, "IRA" := 15.0, "BROKERAGE" := 10.0],
      map["SWP" := 7.5, "401K" := 7.0, "IRA" := 6.5, "BROKERAGE" := 6.0])
  }

  /** The UK: one table whatever the age. */
  function UkModel(age: Option<int>, corpus: real): (r: AllocationModel)
    ensures r.allocations.Keys == r.rates.Keys == UkRules.Keys
  {
    AllocationModel(
      map["SWP" := 45.0, "PENSION" := 35.0, "ISA" := 20.0],
      map["SWP" := 7.0, "PENSION" := 6.5, "ISA" := 6.0])
  }

  /** Every default model allocates exactly 100 %. */
  lemma DefaultModelsSumTo100(age: Option<int>, corpus: real)
    ensures Sum(IndiaModel(age, corpus).allocations) == 100.0
    ensures Sum(UsModel(age, corpus).allocations) == 100.0
    ensures Sum(UkModel(age, corpus).allocations) == 100.0
  {
    IndiaModelSum(age, corpus);
    UsModelSum(age, corpus);
    UkModelSum(age, corpus);
  }

  /** Each default model allocates and prices exactly the instruments its country has rules for. */
  lemma DefaultModelsKeys(age: Option<int>, corpus: real)
    ensures IndiaModel(age, corpus).allocations.Keys == IndiaModel(age, corpus).rates.Keys == IndiaRules.Keys
    ensures UsModel(age, corpus).allocations.Keys == UsModel(age, corpus).rates.Keys == UsRules.Keys
    ensures UkModel(age, corpus).allocations.Keys == UkModel(age, corpus).rates.Keys == UkRules.Keys
  {
  }

  lemma UsModelSum(age: Option<int>, corpus: real)
    ensures Sum(UsModel(age, corpus).allocations) == 100.0
  {
    SumOfLiteral4("SWP", "401K", "IRA", "BROKERAGE", 50.0, 25.0, 15.0, 10.0);
  }

  lemma UkModelSum(age: Option<int>, corpus: real)
    ensures Sum(UkModel(age, corpus).allocations) == 100.0
  {
    SumOfLiteral3("SWP", "PENSION", "ISA", 45.0, 35.0, 20.0);
  }

  lemma IndiaModelSum(age: Option<int>, corpus: real)
    ensures Sum(IndiaModel(age, corpus).allocations) == 100.0
  {
    if TruthyInt(age) && age.value >= 60 {
      SumOfLiteral4("SWP", "FD", "SCSS", "POMIS", 35.0, 25.0, 25.0, 15.0);
    } else if TruthyInt(age) && age.value >= 45 {
      SumOfLiteral4("SWP", "FD", "SCSS", "POMIS", 55.0, 30.0, 0.0, 15.0);
    } else {
      SumOfLiteral4("SWP", "FD", "SCSS", "POMIS", 70.0, 20.0, 0.0, 10.0);
    }
  }

  /**
   The India bands, whole: from 60 SWP/FD/SCSS/POMIS are 35/25/25/15, from
   45 they are 55/30/0/15, and below 45 (or with no age) 70/20/0/10; the
   rates are the same in every band.
   */
  lemma IndiaModelBands(age: Option<int>, corpus: real)
    ensures var a := IndiaModel(age, corpus).allocations;
            (age.Some? && age.value >= 60 ==> a == map["SWP" := 35.0, "FD" := 25.0, "SCSS" := 25.0, "POMIS" := 15.0])
            && (age.Some? && 45 <= age.value < 60 ==> a == map["SWP" := 55.0, "FD" := 30.0, "SCSS" := 0.0, "POMIS" := 15.0])
            && (age.None? || age.value < 45 ==> a == map["SWP" := 70.0, "FD" := 20.0, "SCSS" := 0.0, "POMIS" := 10.0])
    ensures IndiaModel(age, corpus).rates == map["SWP" := 8.0, "FD" := 6.5, "SCSS" := 8.2, "POMIS" := 7.4]
  {
  }

  /**
   `build_allocation_model`: IN and US have their own model, every other
   country gets the UK one. The model's allocations are age-filtered (SCSS at
   0 below 60) and passed through `normalize_allocations`; the rates pass
   through unchanged.
   */
  function BuildAllocationModel(country: string, age: Option<int>, corpus: real): (r: AllocationModel)
    ensures r.allocations.Keys == ModelFor(country, age, corpus).allocations.Keys +
              (if age.None? || age.value < ScssMinAge then {"SCSS"} else {})
    ensures r.rates == ModelFor(country, age, corpus).rates
  {
    var model := ModelFor(country, age, corpus);
    var alloc := FilterInstrumentsByAge(model.allocations, age);
    AllocationModel(NormalizeAllocations(alloc), model.rates)
  }

  /** The model of `build_allocation_model`'s dispatch: it allocates and prices exactly the instruments of the rule table of IN, of US, or of UK for any other country. */
  function ModelFor(country: string, age: Option<int>, corpus: real): (r: AllocationModel)
    ensures r.allocations.Keys == r.rates.Keys
              == CountryRules(if country in {"IN", "US"} then country else "UK").value.Keys
  {
    if country == "IN" then IndiaModel(age, corpus)
    else if country == "US" then UsModel(age, corpus)
    else UkModel(age, corpus)
  }

  /** `filter_instruments_by_age`: below 60 (or with no age) SCSS is set to 0, added if absent. */
  function FilterInstrumentsByAge(allocations: map<string, real>, age: Option<int>): (r: map<string, real>)
    ensures age.None? || age.value < ScssMinAge ==> "SCSS" in r && r["SCSS"] == 0.0
    ensures age.None? || age.value < ScssMinAge ==> r.Keys == allocations.Keys + {"SCSS"}
    ensures age.Some? && age.value >= ScssMinAge ==> r == allocations
    ensures forall k | k in allocations && k != "SCSS" :: k in r && r[k] == allocations[k]
  {
    if age.None? || age.value < ScssMinAge then allocations["SCSS" := 0.0]
    else allocations
  }

  /**
   `normalize_allocations`: a total of at most 0 leaves the input alone;
   otherwise every value is scaled to a total of 100 and rounded to cents.
   */
  function NormalizeAllocations(allocations: map<string, real>): (r: map<string, real>)
    ensures r.Keys == allocations.Keys
    ensures Sum(allocations) <= 0.0 ==> r == allocations
    ensures Sum(allocations) > 0.0 ==>
              forall k | k in r ::
                allocations[k] * 100.0 / Sum(allocations) - 0.005 < r[k] <= allocations[k] * 100.0 / Sum(allocations) + 0.005
  {
    var total := Sum(allocations);
    if total <= 0.0 then allocations
    else
      ScaleShares(allocations, total);
      RoundValues(Scale(allocations, 100.0 / total))
  }

  /** Before rounding, `normalize_allocations` is the engine's normalisation; they differ only for a negative total. */
  lemma NormalizeAllocationsRounds(allocations: map<string, real>)
    ensures Sum(allocations) <= 0.0 ==> NormalizeAllocations(allocations) == allocations
    ensures Sum(allocations) > 0.0 ==>
              NormalizeAllocations(allocations) == RoundValues(Normalize(allocations))
    ensures Sum(allocations) > 0.0 ==>
              forall k | k in allocations ::
                Normalize(allocations)[k] - 0.005 < NormalizeAllocations(allocations)[k]
                <= Normalize(allocations)[k] + 0.005
    ensures Sum(allocations) < 0.0 ==>
              NormalizeAllocations(allocations) == allocations && Sum(Normalize(allocations)) == 100.0
  {
    NormalizeSum(allocations);
  }

  /** The rounded result still sums to 100 up to half a cent per instrument. */
  lemma NormalizeAllocationsTotal(allocations: map<string, real>)
    requires Sum(allocations) > 0.0
    ensures 100.0 - 0.005 * |allocations| as real <= Sum(NormalizeAllocations(allocations))
    ensures Sum(NormalizeAllocations(allocations)) <= 100.0 + 0.005 * |allocations| as real
  {
    NormalizeSum(allocations);
    NormalizeAllocationsRounds(allocations);
    SumClose(Normalize(allocations), NormalizeAllocations(allocations));
  }

  /** An allocation in whole cents that already sums to 100 is a fixed point of `normalize_allocations`. */
  lemma NormalizeAllocationsFixed(allocations: map<string, real>)
    requires Sum(allocations) == 100.0
    requires InCents(allocations)
    ensures NormalizeAllocations(allocations) == allocations
  {
    assert 100.0 / Sum(allocations) == 1.0;
    ScaleOne(allocations);
  }

  /** `build_allocation_model("IN", 35, 0)` gives the growth band unchanged. */
  lemma BuildIndia35()
    ensures BuildAllocationModel("IN", Some(35), 0.0).allocations
            == map["SWP" := 70.0, "FD" := 20.0, "SCSS" := 0.0, "POMIS" := 10.0]
  {
    var a := map["SWP" := 70.0, "FD" := 20.0, "SCSS" := 0.0, "POMIS" := 10.0];
    assert FilterInstrumentsByAge(IndiaModel(Some(35), 0.0).allocations, Some(35)) == a;
    IndiaGrowthBandFixed();
  }

  lemma IndiaGrowthBandFixed()
    ensures var a := map["SWP" := 70.0, "FD" := 20.0, "SCSS" := 0.0, "POMIS" := 10.0];
            NormalizeAllocations(a) == a
  {
    var a := map["SWP" := 70.0, "FD" := 20.0, "SCSS" := 0.0, "POMIS" := 10.0];
    SumOfLiteral4("SWP", "FD", "SCSS", "POMIS", 70.0, 20.0, 0.0, 10.0);
    InCentsAdd(map[], "SWP", 7000);
    InCentsAdd(map["SWP" := 70.0], "FD", 2000);
    InCentsAdd(map["SWP" := 70.0, "FD" := 20.0], "SCSS", 0);
    InCentsAdd(map["SWP" := 70.0, "FD" := 20.0, "SCSS" := 0.0], "POMIS", 1000);
    NormalizeAllocationsFixed(a);
  }

  /** The US model below 60 comes back with an extra SCSS entry of 0 %. */
  lemma BuildUsAddsScss(age: int)
    requires age < 60
    ensures var a := BuildAllocationModel("US", Some(age), 0.0).allocations;
            a.Keys == {"SWP", "401K", "IRA", "BROKERAGE", "SCSS"} && a["SCSS"] == 0.0
  {
    var filtered := FilterInstrumentsByAge(UsModel(Some(age), 0.0).allocations, Some(age));
    NormalizeZeroEntry(filtered, "SCSS");
  }

  /** An entry at 0 stays 0 after `normalize_allocations`, whatever the total. */
  lemma NormalizeZeroEntry(allocations: map<string, real>, k: string)
    requires k in allocations && allocations[k] == 0.0
    ensures NormalizeAllocations(allocations)[k] == 0.0
  {
    if Sum(allocations) > 0.0 {
      assert Scale(allocations, 100.0 / Sum(allocations))[k] == 0.0;
      Round2Cents(0);
    }
  }

  /** Every default model is in whole cents. */
  lemma ModelInCents(country: string, age: Option<int>, corpus: real)
    ensures InCents(ModelFor(country, age, corpus).allocations)
  {
    if country == "IN" {
      IndiaModelInCents(age, corpus);
    } else if country == "US" {
      UsModelInCents(age, corpus);
    } else {
      UkModelInCents(age, corpus);
    }
  }

  lemma IndiaModelInCents(age: Option<int>, corpus: real)
    ensures InCents(IndiaModel(age, corpus).allocations)
  {
    if TruthyInt(age) && age.value >= 60 {
      InCentsAdd(map[], "SWP", 3500);
      InCentsAdd(map["SWP" := 35.0], "FD", 2500);
      InCentsAdd(map["SWP" := 35.0, "FD" := 25.0], "SCSS", 2500);
      InCentsAdd(map["SWP" := 35.0, "FD" := 25.0, "SCSS" := 25.0], "POMIS", 1500);
    } else if TruthyInt(age) && age.value >= 45 {
      InCentsAdd(map[], "SWP", 5500);
      InCentsAdd(map["SWP" := 55.0], "FD", 3000);
      InCentsAdd(map["SWP" := 55.0, "FD" := 30.0], "SCSS", 0);
      InCentsAdd(map["SWP" := 55.0, "FD" := 30.0, "SCSS" := 0.0], "POMIS", 1500);
    } else {
      InCentsAdd(map[], "SWP", 7000);
      InCentsAdd(map["SWP" := 70.0], "FD", 2000);
      InCentsAdd(map["SWP" := 70.0, "FD" := 20.0], "SCSS", 0);
      InCentsAdd(map["SWP" := 70.0, "FD" := 20.0, "SCSS" := 0.0], "POMIS", 1000);
    }
  }

  lemma UsModelInCents(age: Option<int>, corpus: real)
    ensures InCents(UsModel(age, corpus).allocations)
  {
    InCentsAdd(map[], "SWP", 5000);
    InCentsAdd(map["SWP" := 50.0], "401K", 2500);
    InCentsAdd(map["SWP" := 50.0, "401K" := 25.0], "IRA", 1500);
    InCentsAdd(map["SWP" := 50.0, "401K" := 25.0, "IRA" := 15.0], "BROKERAGE", 1000);
  }

  lemma UkModelInCents(age: Option<int>, corpus: real)
    ensures InCents(UkModel(age, corpus).allocations)
  {
    InCentsAdd(map[], "SWP", 4500);
    InCentsAdd(map["SWP" := 45.0], "PENSION", 3500);
    InCentsAdd(map["SWP" := 45.0, "PENSION" := 35.0], "ISA", 2000);
  }

  /** Every default model sums to 100 and has SCSS at 0 (or no SCSS) below 60. */
  lemma ModelShape(country: string, age: Option<int>, corpus: real)
    ensures Sum(ModelFor(country, age, corpus).allocations) == 100.0
    ensures var a := ModelFor(country, age, corpus).allocations;
            (age.None? || age.value < ScssMinAge) && "SCSS" in a ==> a["SCSS"] == 0.0
  {
    if country == "IN" {
      IndiaModelSum(age, corpus);
      IndiaModelBands(age, corpus);
    } else if country == "US" {
      UsModelSum(age, corpus);
      UsModelNoScss(age, corpus);
    } else {
      UkModelSum(age, corpus);
      UkModelNoScss(age, corpus);
    }
  }

  lemma UsModelNoScss(age: Option<int>, corpus: real)
    ensures "SCSS" !in UsModel(age, corpus).allocations
  {
    assert UsModel(age, corpus).allocations.Keys == {"SWP", "401K", "IRA", "BROKERAGE"};
  }

  lemma UkModelNoScss(age: Option<int>, corpus: real)
    ensures "SCSS" !in UkModel(age, corpus).allocations
  {
    assert UkModel(age, corpus).allocations.Keys == {"SWP", "PENSION", "ISA"};
  }

  /** Age filtering keeps a whole-cent allocation summing to 100 so when it only sets a zero or absent SCSS to 0. */
  lemma FilterByAgeKeeps100(allocations: map<string, real>, age: Option<int>)
    requires InCents(allocations) && Sum(allocations) == 100.0
    requires (age.None? || age.value < ScssMinAge) && "SCSS" in allocations ==> allocations["SCSS"] == 0.0
    ensures InCents(FilterInstrumentsByAge(allocations, age))
    ensures Sum(FilterInstrumentsByAge(allocations, age)) == 100.0
  {
    if age.None? || age.value < ScssMinAge {
      SumUpdate(allocations, "SCSS", 0.0);
      InCentsAdd(allocations, "SCSS", 0);
    }
  }

  /**
   For every country and age the model's allocations come back exactly as
   the age-filtered default band: `normalize_allocations` leaves them
   unchanged because every band is in whole cents and sums to 100. Below 60
   (or without an age) SCSS is present at 0 for every country.
   */
  lemma BuildAllocationModelSpec(country: string, age: Option<int>, corpus: real)
    ensures BuildAllocationModel(country, age, corpus).allocations
            == FilterInstrumentsByAge(ModelFor(country, age, corpus).allocations, age)
    ensures Sum(BuildAllocationModel(country, age, corpus).allocations) == 100.0
    ensures age.None? || age.value < ScssMinAge ==>
              "SCSS" in BuildAllocationModel(country, age, corpus).allocations
              && BuildAllocationModel(country, age, corpus).allocations["SCSS"] == 0.0
  {
    var m := ModelFor(country, age, corpus).allocations;
    ModelInCents(country, age, corpus);
    ModelShape(country, age, corpus);
    FilterByAgeKeeps100(m, age);
    NormalizeAllocationsFixed(FilterInstrumentsByAge(m, age));
  }
}
