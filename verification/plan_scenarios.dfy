/**
 The scenario side of ui/investment_plan.py: the per-country default
 scenario, the bootstrap `ensure_scenarios` that guarantees a usable Base
 scenario next to a Conservative and an Aggressive variant, the derivation
 of a conservative or aggressive scenario from a base one, and the clone and
 delete actions of the scenario selector.
 */
module PlanScenarios {
  import opened Common

  // ---------------------------------------------------------------------
  // Scenarios and plans
  // ---------------------------------------------------------------------

  /**
   A scenario dictionary. Each section is `None` when its key is missing and
   otherwise a dictionary of numbers; `engineSynced` is the `_engine_synced`
   flag. A scenario entry that is not a dictionary at all is `NotADict`.
   */
  datatype Scenario =
    | NotADict
    | Dict(allocations: Option<map<string, real>>,
           rates: Option<map<string, real>>,
           incomeSources: Option<map<string, real>>,
           withdrawal: Option<map<string, real>>,
           engineSynced: Option<bool>)

  /** The empty dictionary `{}`. */
  const EmptyDict: Scenario := Dict(None, None, None, None, None)

  /** `investment_plan`: the active scenario's name and the scenarios by name; `None` is a missing key. */
  datatype Plan = Plan(active: Option<string>, scenarios: Option<map<string, Scenario>>)

  /** `scenarios.get(name)`. */
  function Lookup(scenarios: map<string, Scenario>, name: string): Option<Scenario> {
    if name in scenarios then Some(scenarios[name]) else None
  }

  /** Python truthiness of an optional section: present and non-empty. */
  predicate HasItems(o: Option<map<string, real>>) {
    o.Some? && |o.value| > 0
  }

  /** `is_empty_scenario`: not a dict, empty, without allocations or rates, or without an income key. */
  predicate IsEmptyScenario(o: Option<Scenario>) {
    match o
    case None => true
    case Some(sc) =>
      sc.NotADict? || sc == EmptyDict || !HasItems(sc.allocations) || !HasItems(sc.rates)
      || sc.incomeSources.None?
  }

  /** The weaker test used for the two variants: `not isinstance(sc, dict) or not sc`. */
  predicate NeedsCreate(o: Option<Scenario>) {
    o.None? || o.value.NotADict? || o.value == EmptyDict
  }

  // ---------------------------------------------------------------------
  // The default scenario
  // ---------------------------------------------------------------------

  /** `_default_scenario(country)`: India and the US have tables; every other country gets the UK one. */
  function DefaultScenario(country: string): (r: Scenario)
    ensures r.Dict? && r.allocations.Some? && r.rates.Some? && r.incomeSources.Some? && r.withdrawal.Some?
    ensures r.rates.value.Keys == r.allocations.value.Keys
    ensures "SWP" in r.allocations.value && "monthly" in r.withdrawal.value
  {
    if country == "IN" then
      Dict(Some(map["SWP" := 50.0, "FD" := 30.0, "SCSS" := 15.0, "POMIS" := 5.0]),
           Some(map["SWP" := 8.0, "FD" := 6.5, "SCSS" := 8.2, "POMIS" := 7.4]),
           Some(map["rental" := 20000.0, "pension" := 2000.0, "annuity" := 1500.0,
                    "dividends" := 200000.0, "other" := 50000.0]),
           Some(map["monthly" := 10000.0]),
           None)
    else if country == "US" then
      Dict(Some(map["SWP" := 40.0, "401K" := 30.0, "IRA" := 20.0, "BROKERAGE" := 10.0]),
           Some(map["SWP" := 7.5, "401K" := 7.0, "IRA" := 6.5, "BROKERAGE" := 6.0]),
           Some(map["social_security" := 2000.0, "rental" := 0.0, "pension" := 0.0,
                    "annuity" := 0.0, "dividends" := 0.0, "other" := 0.0]),
           Some(map["monthly" := 2000.0]),
           None)
    else
      Dict(Some(map["SWP" := 40.0, "PENSION" := 40.0, "ISA" := 20.0]),
           Some(map["SWP" := 7.0, "PENSION" := 6.5, "ISA" := 6.0]),
           Some(map["rental" := 0.0, "pension" := 0.0, "annuity" := 0.0,
                    "dividends" := 0.0, "other" := 0.0]),
           Some(map["monthly" := 1000.0]),
           None)
  }

  /** Every default scenario passes `is_empty_scenario`. */
  lemma DefaultScenarioUsable(country: string)
    ensures !IsEmptyScenario(Some(DefaultScenario(country)))
  {
    var d := DefaultScenario(country);
    assert "SWP" in d.allocations.value && "SWP" in d.rates.value;
  }

  /** Every default scenario allocates exactly 100 %. */
  lemma DefaultScenarioSumsTo100(country: string)
    ensures Sum(DefaultScenario(country).allocations.value) == 100.0
  {
    if country == "IN" {
      SumOfLiteral4("SWP", "FD", "SCSS", "POMIS", 50.0, 30.0, 15.0, 5.0);
    } else if country == "US" {
      SumOfLiteral4("SWP", "401K", "IRA", "BROKERAGE", 40.0, 30.0, 20.0, 10.0);
    } else {
      SumOfLiteral3("SWP", "PENSION", "ISA", 40.0, 40.0, 20.0);
    }
  }

  // ---------------------------------------------------------------------
  // ensure_scenarios
  // ---------------------------------------------------------------------

  /** A deep copy of `sc` with every rate multiplied by `f` and rounded to two decimals. */
  function WithRates(sc: Scenario, f: real): (r: Scenario)
    ensures sc.Dict? ==> r.Dict? && r.allocations == sc.allocations
    ensures sc.Dict? ==> r.incomeSources == sc.incomeSources && r.withdrawal == sc.withdrawal
    ensures sc.Dict? && sc.rates.Some? ==>
              r.rates.Some? && r.rates.value.Keys == sc.rates.value.Keys
              && forall k | k in sc.rates.value ::
                   sc.rates.value[k] * f - 0.005 < r.rates.value[k] <= sc.rates.value[k] * f + 0.005
    ensures sc.Dict? && sc.rates.None? ==> r == sc
  {
    if sc.Dict? && sc.rates.Some? then
      sc.(rates := Some(RoundValues(Scale(sc.rates.value, f))))
    else sc
  }

  /** The Base scenario after the first step of `ensure_scenarios`. */
  function EnsuredBase(scenarios: map<string, Scenario>, country: string): Scenario {
    if IsEmptyScenario(Lookup(scenarios, "Base")) then DefaultScenario(country)
    else scenarios["Base"]
  }

  /** Put `name` in place as `WithRates(base, f)` unless a non-empty dict is already there. */
  function EnsureVariant(scenarios: map<string, Scenario>, name: string, base: Scenario, f: real)
    : (r: map<string, Scenario>)
    ensures r.Keys == scenarios.Keys + {name}
    ensures forall k | k in scenarios && k != name :: r[k] == scenarios[k]
    ensures !NeedsCreate(Lookup(scenarios, name)) ==> r[name] == scenarios[name]
    ensures NeedsCreate(Lookup(scenarios, name)) ==> r[name] == WithRates(base, f)
  {
    if NeedsCreate(Lookup(scenarios, name)) then scenarios[name := WithRates(base, f)]
    else scenarios
  }

  /**
   `ensure_scenarios(plan, country)`: default the active name and the
   scenario table, replace an unusable Base by the country default, create
   Conservative (rates x 0.8) and Aggressive (rates x 1.2) from Base when
   they are missing or empty, and fall back to Base for an unknown active name.
   */
  function EnsureScenarios(p: Plan, country: string): (r: Plan)
    ensures r.scenarios.Some? && r.active.Some?
    ensures {"Base", "Conservative", "Aggressive"} <= r.scenarios.value.Keys
    ensures r.active.value in r.scenarios.value
  {
    var active := p.active.GetOr("Base");
    var s0 := p.scenarios.GetOr(map[]);
    var base := EnsuredBase(s0, country);
    var s1 := s0["Base" := base];
    var s2 := EnsureVariant(s1, "Conservative", base, 0.8);
    var s3 := EnsureVariant(s2, "Aggressive", base, 1.2);
    Plan(Some(if active in s3 then active else "Base"), Some(s3))
  }

  /** Base is usable afterwards; it is replaced by the country default exactly when it was not. */
  lemma EnsureScenariosBase(p: Plan, country: string)
    ensures var before := Lookup(p.scenarios.GetOr(map[]), "Base");
            var base := EnsureScenarios(p, country).scenarios.value["Base"];
            && !IsEmptyScenario(Some(base))
            && (IsEmptyScenario(before) ==> base == DefaultScenario(country))
            && (!IsEmptyScenario(before) ==> base == before.value)
  {
    DefaultScenarioUsable(country);
  }

  /** Conservative and Aggressive are kept when they are non-empty dicts and otherwise derived from Base. */
  lemma EnsureScenariosVariants(p: Plan, country: string)
    ensures var before := p.scenarios.GetOr(map[]);
            var after := EnsureScenarios(p, country).scenarios.value;
            var base := after["Base"];
            && (NeedsCreate(Lookup(before, "Conservative")) ==> after["Conservative"] == WithRates(base, 0.8))
            && (!NeedsCreate(Lookup(before, "Conservative")) ==> after["Conservative"] == before["Conservative"])
            && (NeedsCreate(Lookup(before, "Aggressive")) ==> after["Aggressive"] == WithRates(base, 1.2))
            && (!NeedsCreate(Lookup(before, "Aggressive")) ==> after["Aggressive"] == before["Aggressive"])
  {
  }

  /** A created variant copies Base's allocations and scales its rates. */
  lemma CreatedVariantRates(base: Scenario, f: real)
    requires !IsEmptyScenario(Some(base))
    ensures var v := WithRates(base, f);
            && !NeedsCreate(Some(v))
            && v.allocations == base.allocations
            && v.rates.value.Keys == base.rates.value.Keys
            && forall k | k in base.rates.value ::
                 base.rates.value[k] * f - 0.005 < v.rates.value[k] <= base.rates.value[k] * f + 0.005
  {
  }

  /** Every other scenario is left exactly as it was. */
  lemma EnsureScenariosFrame(p: Plan, country: string, name: string)
    requires name !in {"Base", "Conservative", "Aggressive"}
    ensures var before := p.scenarios.GetOr(map[]);
            var after := EnsureScenarios(p, country).scenarios.value;
            (name in after <==> name in before) && (name in before ==> after[name] == before[name])
  {
  }

  /** The active name survives when it names a scenario, and falls back to Base otherwise. */
  lemma EnsureScenariosActive(p: Plan, country: string)
    ensures var r := EnsureScenarios(p, country);
            var wanted := p.active.GetOr("Base");
            r.active == Some(if wanted in r.scenarios.value then wanted else "Base")
  {
  }

  /** A second call changes nothing. */
  lemma EnsureScenariosIdempotent(p: Plan, country: string)
    ensures EnsureScenarios(EnsureScenarios(p, country), country) == EnsureScenarios(p, country)
  {
    var r := EnsureScenarios(p, country);
    var s := r.scenarios.value;
    EnsureScenariosBase(p, country);
    var base := s["Base"];
    assert EnsuredBase(s, country) == base;
    assert s["Base" := base] == s;
    EnsureScenariosVariants(p, country);
    var before := p.scenarios.GetOr(map[]);
    if NeedsCreate(Lookup(before, "Conservative")) {
      CreatedVariantRates(base, 0.8);
    }
    if NeedsCreate(Lookup(before, "Aggressive")) {
      CreatedVariantRates(base, 1.2);
    }
    assert !NeedsCreate(Lookup(s, "Conservative"));
    assert !NeedsCreate(Lookup(s, "Aggressive"));
    assert EnsureVariant(s, "Conservative", base, 0.8) == s;
    assert EnsureVariant(s, "Aggressive", base, 1.2) == s;
  }

  // ---------------------------------------------------------------------
  // Clone and delete (the scenario selector's buttons)
  // ---------------------------------------------------------------------

  /** The decimal digits of a natural number, as `str(n)` writes them. */
  function DecimalString(n: nat): (r: string)
    ensures |r| > 0
    ensures forall i | 0 <= i < |r| :: '0' <= r[i] <= '9'
    decreases n
  {
    var d := [(('0' as int) + n % 10) as char];
    if n < 10 then d else DecimalString(n / 10) + d
  }

  /** The clone button is enabled only while there are fewer than three scenarios. */
  predicate CloneEnabled(scenarios: map<string, Scenario>) {
    |scenarios| < 3
  }

  /**
   The clone button for the selected scenario: a copy named
   `"Scenario <count>"` becomes the active scenario. A disabled button
   leaves the plan as it is.
   */
  function Clone(p: Plan, selected: string): (r: Plan)
    requires p.scenarios.Some? && selected in p.scenarios.value
    ensures r.scenarios.Some?
    ensures !CloneEnabled(p.scenarios.value) ==> r == p
    ensures CloneEnabled(p.scenarios.value) ==>
              var name := "Scenario " + DecimalString(|p.scenarios.value|);
              && r.active == Some(name)
              && r.scenarios.value == p.scenarios.value[name := p.scenarios.value[selected]]
  {
    var s := p.scenarios.value;
    if !CloneEnabled(s) then p
    else
      var name := "Scenario " + DecimalString(|s|);
      Plan(Some(name), Some(s[name := s[selected]]))
  }

  /** `ensure_scenarios` always leaves three scenarios, so the clone button can never be used after it. */
  lemma CloneDisabledAfterEnsure(p: Plan, country: string, selected: string)
    requires selected in EnsureScenarios(p, country).scenarios.value
    ensures Clone(EnsureScenarios(p, country), selected) == EnsureScenarios(p, country)
  {
    var s := EnsureScenarios(p, country).scenarios.value;
    assert {"Base", "Conservative", "Aggressive"} <= s.Keys;
    assert |{"Base", "Conservative", "Aggressive"}| == 3;
    CardinalityOfSubset({"Base", "Conservative", "Aggressive"}, s.Keys);
  }

  lemma CardinalityOfSubset(a: set<string>, b: set<string>)
    requires a <= b
    ensures |a| <= |b|
  {
    assert b == a + (b - a);
  }

  /**
   The delete button, shown for any active scenario other than Base:
   remove it and make Base active. A name that is not in the table is a KeyError.
   */
  function Delete(p: Plan, active: string): (r: Result<Plan>)
    requires p.scenarios.Some?
    ensures active == "Base" ==> r == Ok(p)
    ensures active != "Base" && active !in p.scenarios.value ==> r == Err(KeyError(active))
    ensures active != "Base" && active in p.scenarios.value ==>
              && r.Ok? && r.value.active == Some("Base")
              && r.value.scenarios == Some(p.scenarios.value - {active})
  {
    if active == "Base" then Ok(p)
    else if active !in p.scenarios.value then Err(KeyError(active))
    else Ok(Plan(Some("Base"), Some(p.scenarios.value - {active})))
  }

  /** Deleting never removes Base, and the table shrinks by exactly the deleted scenario. */
  lemma DeleteKeepsBase(p: Plan, active: string)
    requires p.scenarios.Some? && "Base" in p.scenarios.value
    requires active != "Base" && active in p.scenarios.value
    ensures var r := Delete(p, active).value;
            && r.active.value in r.scenarios.value
            && r.scenarios.value["Base"] == p.scenarios.value["Base"]
            && |r.scenarios.value| == |p.scenarios.value| - 1
  {
  }

  // ---------------------------------------------------------------------
  // _derive_scenario
  // ---------------------------------------------------------------------

  /** The three factors of a derivation mode: rates, monthly withdrawal, and the SWP shift. */
  datatype Tilt = Tilt(rate: real, withdraw: real, shift: real)

  /** "conservative" lowers everything; any other mode raises it. */
  function TiltFor(mode: string): Tilt {
    if mode == "conservative" then Tilt(0.85, 0.8, -15.0) else Tilt(1.15, 1.2, 15.0)
  }

  /** `max(0, min(100, x))`. */
  function Clamp100(x: real): (r: real)
    ensures 0.0 <= r <= 100.0
    ensures 0.0 <= x <= 100.0 ==> r == x
  {
    Max(0.0, Min(100.0, x))
  }

  /** `sum(others) or 1`: the divisor of the rebalance, 1 when the others add up to exactly zero. */
  function OthersTotal(alloc: map<string, real>): (r: real)
    ensures r != 0.0
  {
    var t := Sum(alloc - {"SWP"});
    if t == 0.0 then 1.0 else t
  }

  /** The other instruments rescaled into `100 - swp`, before rounding. */
  function ExactOthers(alloc: map<string, real>, swp: real): map<string, real> {
    Scale(alloc - {"SWP"}, (100.0 - swp) / OthersTotal(alloc))
  }

  /**
   The allocation step of `_derive_scenario`: move SWP by `shift` within
   0..100 and rescale the other instruments into what remains, each
   rounded to two decimals. Without an SWP entry nothing changes.
   */
  function ShiftAllocations(alloc: map<string, real>, shift: real): (r: map<string, real>)
    ensures r.Keys == alloc.Keys
    ensures "SWP" !in alloc ==> r == alloc
  {
    if "SWP" !in alloc then alloc
    else
      var swp := Clamp100(alloc["SWP"] + shift);
      RoundValues(ExactOthers(alloc, swp))["SWP" := swp]
  }

  /** Before rounding, the other instruments fill exactly what SWP leaves when they had a non-zero total. */
  lemma ExactOthersFill(alloc: map<string, real>, swp: real)
    requires Sum(alloc - {"SWP"}) != 0.0
    ensures Sum(ExactOthers(alloc, swp)) == 100.0 - swp
    ensures Sum(ExactOthers(alloc, swp)["SWP" := swp]) == 100.0
  {
    var others := alloc - {"SWP"};
    var f := (100.0 - swp) / OthersTotal(alloc);
    var t := Sum(others);
    ShareFactor(100.0 - swp, t, f);
    SumScaleTo(others, f, t, 100.0 - swp);
    assert "SWP" !in ExactOthers(alloc, swp);
    SumInsert(ExactOthers(alloc, swp), "SWP", swp);
  }

  /** Each other instrument gets the share `remaining * v` of the other total (product form), so any two keep their ratio. */
  lemma ExactOthersShares(alloc: map<string, real>, swp: real, j: string, k: string)
    requires j in alloc && k in alloc && j != "SWP" && k != "SWP"
    ensures ExactOthers(alloc, swp)[k] * OthersTotal(alloc) == (100.0 - swp) * alloc[k]
    ensures ExactOthers(alloc, swp)[j] * alloc[k] == ExactOthers(alloc, swp)[k] * alloc[j]
  {
    var others := alloc - {"SWP"};
    var t := OthersTotal(alloc);
    var f := (100.0 - swp) / t;
    var r := ExactOthers(alloc, swp);
    ShareFactor(100.0 - swp, t, f);
    assert r == Scale(others, f);
    assert r[j] == alloc[j] * f && r[k] == alloc[k] * f;
    ShareProduct(r[k], alloc[k], f, t, 100.0 - swp);
    ScaledRatio(r[j], r[k], alloc[j], alloc[k], f);
  }

  /** When the other instruments add up to zero they are only multiplied by what SWP leaves. */
  lemma ExactOthersZeroTotal(alloc: map<string, real>, swp: real, k: string)
    requires Sum(alloc - {"SWP"}) == 0.0 && k in alloc && k != "SWP"
    ensures ExactOthers(alloc, swp)[k] == alloc[k] * (100.0 - swp)
    ensures alloc[k] == 0.0 ==> ExactOthers(alloc, swp)[k] == 0.0
  {
  }

  /** The shifted allocation: SWP clamped, the others rounded shares of what remains, the total 100 within rounding. */
  lemma ShiftAllocationsSpec(alloc: map<string, real>, shift: real)
    requires "SWP" in alloc
    ensures var r := ShiftAllocations(alloc, shift);
            var swp := Clamp100(alloc["SWP"] + shift);
            && r["SWP"] == swp
            && (forall k | k in alloc && k != "SWP" ::
                  ExactOthers(alloc, swp)[k] - 0.005 < r[k] <= ExactOthers(alloc, swp)[k] + 0.005)
            && (Sum(alloc - {"SWP"}) != 0.0 ==>
                  100.0 - 0.005 * (|alloc| - 1) as real <= Sum(r) <= 100.0 + 0.005 * (|alloc| - 1) as real)
  {
    var swp := Clamp100(alloc["SWP"] + shift);
    var exact := ExactOthers(alloc, swp);
    var rounded := RoundValues(exact);
    if Sum(alloc - {"SWP"}) != 0.0 {
      ExactOthersFill(alloc, swp);
      SumClose(exact, rounded);
      assert "SWP" !in rounded;
      SumInsert(rounded, "SWP", swp);
      assert |exact| == |alloc| - 1 by {
        assert exact.Keys == alloc.Keys - {"SWP"};
      }
    }
  }

  /**
   `_derive_scenario(base, mode)` on a deep copy of `base`: rates times
   0.85 or 1.15 rounded to two decimals, the monthly withdrawal times 0.8
   or 1.2 rounded to a whole number, and the SWP shift of -15 or +15 with
   the other instruments rescaled. The sections are read in that order; a
   missing one is a KeyError and a non-dict base a TypeError; a dict base
   holding all of them always derives.
   */
  function DeriveScenario(base: Scenario, mode: string): (r: Result<Scenario>)
    ensures base.NotADict? ==> r == Err(TypeError)
    ensures base.Dict? && base.rates.None? ==> r == Err(KeyError("rates"))
    ensures base.Dict? && base.rates.Some? && base.withdrawal.None? ==> r == Err(KeyError("withdrawal"))
    ensures (base.Dict? && base.rates.Some? && base.withdrawal.Some? && "monthly" !in base.withdrawal.value)
            ==> r == Err(KeyError("monthly"))
    ensures (base.Dict? && base.rates.Some? && base.withdrawal.Some? && "monthly" in base.withdrawal.value
             && base.allocations.None?) ==> r == Err(KeyError("allocations"))
    ensures r.Ok? <==> (base.Dict? && base.rates.Some? && base.withdrawal.Some? && "monthly" in base.withdrawal.value
                        && base.allocations.Some?)
    ensures r.Ok? ==> base.Dict? && r.value.Dict?
  {
    if base.NotADict? then Err(TypeError)
    else if base.rates.None? then Err(KeyError("rates"))
    else if base.withdrawal.None? then Err(KeyError("withdrawal"))
    else if "monthly" !in base.withdrawal.value then Err(KeyError("monthly"))
    else if base.allocations.None? then Err(KeyError("allocations"))
    else
      var t := TiltFor(mode);
      var w := base.withdrawal.value;
      Ok(base.(rates := Some(RoundValues(Scale(base.rates.value, t.rate))),
               withdrawal := Some(w["monthly" := Round0(w["monthly"] * t.withdraw)]),
               allocations := Some(ShiftAllocations(base.allocations.value, t.shift))))
  }

  /** A successful derivation leaves the income sources and the engine flag alone and shifts the allocations. */
  lemma DeriveScenarioSections(base: Scenario, mode: string)
    requires DeriveScenario(base, mode).Ok?
    ensures var r := DeriveScenario(base, mode).value;
            && r.incomeSources == base.incomeSources && r.engineSynced == base.engineSynced
            && r.allocations == Some(ShiftAllocations(base.allocations.value, TiltFor(mode).shift))
  {
  }

  /** Every rate is the base rate times 0.85 or 1.15, to within rounding. */
  lemma DeriveScenarioRates(base: Scenario, mode: string)
    requires DeriveScenario(base, mode).Ok?
    ensures var r := DeriveScenario(base, mode).value.rates.value;
            var f := TiltFor(mode).rate;
            && r.Keys == base.rates.value.Keys
            && forall k | k in base.rates.value ::
                 base.rates.value[k] * f - 0.005 < r[k] <= base.rates.value[k] * f + 0.005
  {
  }

  /** The monthly withdrawal is a whole number within half a unit of the base times 0.8 or 1.2; nothing else in the section changes. */
  lemma DeriveScenarioWithdrawal(base: Scenario, mode: string)
    requires DeriveScenario(base, mode).Ok?
    ensures var w := base.withdrawal.value;
            var r := DeriveScenario(base, mode).value.withdrawal.value;
            var f := TiltFor(mode).withdraw;
            && r.Keys == w.Keys
            && (forall k | k in w && k != "monthly" :: r[k] == w[k])
            && w["monthly"] * f - 0.5 < r["monthly"] <= w["monthly"] * f + 0.5
            && r["monthly"] == r["monthly"].Floor as real
  {
  }

  /** Every default scenario can be derived in either mode. */
  lemma DeriveDefaultSucceeds(country: string, mode: string)
    ensures DeriveScenario(DefaultScenario(country), mode).Ok?
  {
    DefaultScenarioUsable(country);
  }

  /** The Indian default under "conservative": SWP 50 -> 35, and FD/SCSS/POMIS 30/15/5 rescaled into 65. */
  lemma DeriveIndiaConservative()
    ensures DeriveScenario(DefaultScenario("IN"), "conservative").value.allocations
            == Some(map["SWP" := 35.0, "FD" := 39.0, "SCSS" := 19.5, "POMIS" := 6.5])
  {
    DefaultScenarioUsable("IN");
    ShiftIndiaDefault();
  }

  lemma ShiftIndiaDefault()
    ensures ShiftAllocations(map["SWP" := 50.0, "FD" := 30.0, "SCSS" := 15.0, "POMIS" := 5.0], -15.0)
            == map["SWP" := 35.0, "FD" := 39.0, "SCSS" := 19.5, "POMIS" := 6.5]
  {
    var alloc := map["SWP" := 50.0, "FD" := 30.0, "SCSS" := 15.0, "POMIS" := 5.0];
    var exact := map["FD" := 39.0, "SCSS" := 19.5, "POMIS" := 6.5];
    assert Clamp100(alloc["SWP"] - 15.0) == 35.0;
    ExactOthersIndia();
    RoundedOthersIndia();
    assert RoundValues(exact)["SWP" := 35.0] == map["SWP" := 35.0, "FD" := 39.0, "SCSS" := 19.5, "POMIS" := 6.5];
  }

  lemma ExactOthersIndia()
    ensures ExactOthers(map["SWP" := 50.0, "FD" := 30.0, "SCSS" := 15.0, "POMIS" := 5.0], 35.0)
            == map["FD" := 39.0, "SCSS" := 19.5, "POMIS" := 6.5]
  {
    var alloc := map["SWP" := 50.0, "FD" := 30.0, "SCSS" := 15.0, "POMIS" := 5.0];
    OthersTotalIndia();
    assert (100.0 - 35.0) / OthersTotal(alloc) == 1.3;
    ScaleIndiaOthers();
  }

  lemma OthersTotalIndia()
    ensures OthersTotal(map["SWP" := 50.0, "FD" := 30.0, "SCSS" := 15.0, "POMIS" := 5.0]) == 50.0
    ensures map["SWP" := 50.0, "FD" := 30.0, "SCSS" := 15.0, "POMIS" := 5.0] - {"SWP"}
            == map["FD" := 30.0, "SCSS" := 15.0, "POMIS" := 5.0]
  {
    var alloc := map["SWP" := 50.0, "FD" := 30.0, "SCSS" := 15.0, "POMIS" := 5.0];
    assert alloc - {"SWP"} == map["FD" := 30.0, "SCSS" := 15.0, "POMIS" := 5.0];
    SumOfLiteral3("FD", "SCSS", "POMIS", 30.0, 15.0, 5.0);
  }

  lemma ScaleIndiaOthers()
    ensures Scale(map["FD" := 30.0, "SCSS" := 15.0, "POMIS" := 5.0], 1.3)
            == map["FD" := 39.0, "SCSS" := 19.5, "POMIS" := 6.5]
  {
  }

  lemma RoundedOthersIndia()
    ensures RoundValues(map["FD" := 39.0, "SCSS" := 19.5, "POMIS" := 6.5])
            == map["FD" := 39.0, "SCSS" := 19.5, "POMIS" := 6.5]
  {
    Round2Cents(3900);
    Round2Cents(1950);
    Round2Cents(650);
  }
}
