# Investment allocation and scenario engine — a Dafny model

This project models the core of a retirement-planning app (the Future Finance
Simulator UI). The core has two parts:

- **Investment allocation and scenario engine.** It turns per-country
  instrument tables into percentage allocations that sum to 100. It enforces
  the Indian SCSS and POMIS investment ceilings and the SCSS age gate (60+).
  It derives Conservative and Aggressive scenarios from a Base scenario and
  keeps the plan's scenario table usable.
- **Data hydration and comparison helpers.** These are the small dictionary
  transformations that fill a user profile from config defaults, compare
  profiles, and total the expenses.

Everything is modelled as pure functions over immutable values:

- Python dictionaries are Dafny `map`s.
- Percentages and money are `real`.
- Loosely typed profile entries are a small `Value` datatype (None, bool,
  number, string, dict).
- An exception the Python code would raise is an `Err` of a `Result`.
- In-place mutation is modelled as returning the updated map. Its contract
  states which entries changed and that nothing else did (`Frame`). The one
  exception is `rebalance_to_100`, whose write into its argument is left out
  (see below).

The modules follow the source files:

| module | file | what it models |
|---|---|---|
| `Common` | — | Option, Result, the Python exceptions, `Round2`/`Round0`, `Sum` of a dictionary's values and its algebra, `Value`, `setdefault` |
| `AllocationsEngine` | ui/allocations_engine.py | rule tables, the `AllocationEngine` pipeline, the age-banded models, `build_allocation_model`, `filter_instruments_by_age`, `normalize_allocations` |
| `PlanScenarios` | ui/investment_plan.py | `_default_scenario`, `ensure_scenarios`, `_derive_scenario`, the clone and delete buttons |
| `InstrumentCaps` | ui/investment_plan.py | `apply_instrument_caps`, `percent_from_amount`, the slider limits, `rebalance_to_100`, `redistribute_remaining`, `rebalance_allocations_to_100`, `apply_age_based_default_allocation`, `enforce_stage_investment_rules` |
| `AllocationEdit` | ui/investment_plan.py | `_get_life_stage`, `get_visible_income_sources`, the `allocation_changed` edit handler as a pure function |
| `Simulator` | ui/simulator.py | `hydrate_defaults_from_config`, `apply_defaults_from_config` with `set_default`, `default_investment_scenario` |
| `BaseData` | ui/base_data.py | `hydrate_initial_corpus_defaults` |
| `ScenarioEngine` | ui/scenario_engine.py | `apply_scenario_diff` |
| `Assumptions` | ui/assumptions.py | `apply_country_defaults` |
| `Expenses` | ui/expenses.py | `compute_yearly_recurring_expenses_UI`, `compute_grand_total_onetime_UI` |
| `AssumptionDiff` | ui/assumption_diff.py | the row logic of `build_assumption_diff` and `build_assumption_diff_between` |
| `Summary` | ui/summary.py | `safe_get` |

## Three default tables and two cap engines

The repository has three unreconciled default allocation tables, and the model
keeps each one as written:

- `_default_scenario` (India 50/30/15/5);
- the age-banded `_india_model` with its US and UK models;
- `default_investment_scenario` (India 40/25/20/15).

The India row of `default_investment_scenario` is 40/25/20/15 in the code,
and the model keeps it as written (`Simulator.DefaultTablesDisagreeForIndia`).

The two rate multipliers are also kept as written: ×0.8/×1.2 in
`ensure_scenarios` and ×0.85/×1.15 in `_derive_scenario`.

The two cap engines are modelled separately:

- `AllocationsEngine.ApplyCaps` spreads the leftover equally over the
  positive entries and then normalises.
- `InstrumentCaps.ApplyInstrumentCaps` adds the whole surplus to `SWP`.

## Model

| member | source | states |
|---|---|---|
| AllocationsEngine.RulesWellFormed | ui/allocations_engine.py:12-61 | every rule of a country table carries its own name, is enabled, has no maximum age, and any investment ceiling is positive |
| AllocationsEngine.NewEngine | ui/allocations_engine.py:66-70 | the engine can be built exactly for IN, US and UK; any other country is a KeyError on that country |
| AllocationsEngine.FilterEligible | ui/allocations_engine.py:75-94 | an instrument is kept exactly when it has an enabled rule and the age is within the rule's truthy minimum and maximum; kept instruments keep their percentage |
| AllocationsEngine.FilterEligibleIndia | ui/allocations_engine.py:75-94 | in India SWP, FD and POMIS are always kept and SCSS is kept exactly from age 60; instruments without a rule are dropped |
| AllocationsEngine.FilterEligibleNoAgeLimits | ui/allocations_engine.py:75-94 | in the US and UK the result is exactly the instruments that have a rule, whatever the age |
| AllocationsEngine.FilterEligibleIdempotent | ui/allocations_engine.py:75-94 | filtering a filtered allocation changes nothing |
| AllocationsEngine.Normalize | ui/allocations_engine.py:99-109 | the keys are kept; a zero total is returned unchanged; otherwise each value is its share of the total times 100 (product form) |
| AllocationsEngine.NormalizeSum | ui/allocations_engine.py:99-109 | a zero total is returned unchanged; any other total (a negative one too) is scaled to exactly 100 |
| AllocationsEngine.NormalizeProportional | ui/allocations_engine.py:99-109 | normalising keeps the ratio between any two instruments |
| AllocationsEngine.NormalizeIdempotent | ui/allocations_engine.py:99-109 | normalising a normalised allocation changes nothing |
| AllocationsEngine.ApplyCaps | ui/allocations_engine.py:114-139 | an instrument without a rule is a KeyError; otherwise the key set is kept |
| AllocationsEngine.CappedAtCeiling | ui/allocations_engine.py:119-127 | an instrument over its ceiling is cut so that its money is exactly the ceiling, which is below its old share |
| AllocationsEngine.FirstPassConserves | ui/allocations_engine.py:119-130 | the capped shares plus the leftover add up to the input total |
| AllocationsEngine.SpreadConserves | ui/allocations_engine.py:131-137 | a positive leftover with at least one positive entry adds exactly the leftover to the total; otherwise nothing changes |
| AllocationsEngine.ApplyCapsUncapped | ui/allocations_engine.py:114-139 | when no instrument exceeds its ceiling the result is plain normalisation of the input |
| AllocationsEngine.ApplyCapsConserves | ui/allocations_engine.py:114-139 | when something was cut and the leftover is spread, the total before the final normalisation is the input total, so a non-zero input ends at 100 |
| AllocationsEngine.ToAmounts | ui/allocations_engine.py:144-149 | each amount is the instrument's share of the investable amount, rounded to within half a cent |
| AllocationsEngine.ToAmountsTotal | ui/allocations_engine.py:144-149 | amounts of an allocation summing to 100 add up to the investable amount, to within half a cent per instrument |
| AllocationsEngine.Build | ui/allocations_engine.py:154-164 | the final percentages are exactly the eligible instruments and the amounts are their money values |
| AllocationsEngine.BuildSumsTo100 | ui/allocations_engine.py:154-164 | with a non-zero eligible total the final percentages sum to 100 both when nothing is over its ceiling and when a positive excess is spread over at least one receiver |
| AllocationsEngine.DefaultModelsSumTo100 | ui/allocations_engine.py:180-253 | the India (every age band), US and UK models each allocate exactly 100 % |
| AllocationsEngine.DefaultModelsKeys | ui/allocations_engine.py:180-253 | each model allocates and prices exactly the instruments its country's rule table lists |
| AllocationsEngine.IndiaModel | ui/allocations_engine.py:180-219 | allocations and rates name exactly India's instruments; SCSS gets a positive share exactly from age 60 |
| AllocationsEngine.UsModel | ui/allocations_engine.py:222-237 | allocations and rates name exactly the US instruments |
| AllocationsEngine.UkModel | ui/allocations_engine.py:240-253 | allocations and rates name exactly the UK instruments |
| AllocationsEngine.ModelFor | ui/allocations_engine.py:261-266 | IN and US get their own instruments and every other country the UK ones, in both allocations and rates |
| AllocationsEngine.ModelShape | ui/allocations_engine.py:180-266 | whichever model is picked allocates exactly 100 %, and its SCSS is 0 for an age below 60 or no age |
| AllocationsEngine.IndiaModelBands | ui/allocations_engine.py:186-210 | each band's whole allocation: SWP/FD/SCSS/POMIS are 35/25/25/15 from 60, 55/30/0/15 for 45..59, and 70/20/0/10 below 45 or with no age; the rates are 8/6.5/8.2/7.4 in every band |
| AllocationsEngine.BuildAllocationModel | ui/allocations_engine.py:259-274 | IN and US use their own model and every other country the UK one; the rates pass through unfiltered; the allocations are age-filtered (SCSS added at 0 below 60) and then renormalised |
| AllocationsEngine.BuildAllocationModelSpec | ui/allocations_engine.py:259-274 | for every country and age the allocations are the age-filtered model, they sum to exactly 100, and below 60 SCSS is present at 0 |
| AllocationsEngine.BuildIndia35 | ui/allocations_engine.py:259-274 | `build_allocation_model("IN", 35, 0)` gives SWP 70, FD 20, SCSS 0, POMIS 10 |
| AllocationsEngine.BuildUsAddsScss | ui/allocations_engine.py:259-287 | the US model below 60 comes back with an extra SCSS entry of 0 % |
| AllocationsEngine.FilterInstrumentsByAge | ui/allocations_engine.py:280-287 | with no age or under 60 SCSS becomes 0 (added if absent) and nothing else changes; from 60 the allocation is returned equal |
| AllocationsEngine.NormalizeAllocations | ui/allocations_engine.py:293-309 | the keys are kept; a total of at most 0 is returned unchanged; otherwise each value is within half a cent of its share of the total times 100 |
| AllocationsEngine.NormalizeAllocationsRounds | ui/allocations_engine.py:293-309 | a total of at most 0 is returned unchanged; otherwise each value is within half a cent of its exact normalised share |
| AllocationsEngine.NormalizeAllocationsTotal | ui/allocations_engine.py:293-309 | after rounding, the values still sum to 100 within half a cent per instrument |
| AllocationsEngine.NormalizeAllocationsFixed | ui/allocations_engine.py:293-309 | an allocation in whole cents that sums to 100 is returned unchanged |
| PlanScenarios.DefaultScenario | ui/investment_plan.py:102-172 | every country gets a dict with allocations, rates, income and withdrawal; the rates price exactly the allocated instruments; SWP is allocated and a monthly withdrawal is set |
| PlanScenarios.DefaultScenarioUsable | ui/investment_plan.py:102-172 | every country's default scenario passes the emptiness test |
| PlanScenarios.DefaultScenarioSumsTo100 | ui/investment_plan.py:102-172 | every country's default scenario allocates exactly 100 % |
| PlanScenarios.WithRates | ui/investment_plan.py:78-90 | a created variant copies allocations, income and withdrawal, and has every rate scaled by the factor to within half a cent |
| PlanScenarios.EnsureVariant | ui/investment_plan.py:76-90 | a variant that is a non-empty dict is kept; a missing or empty one becomes the rescaled copy of Base; other scenarios are untouched |
| PlanScenarios.EnsureScenarios | ui/investment_plan.py:47-94 | afterwards Base, Conservative and Aggressive exist and the active name is one of the scenarios |
| PlanScenarios.EnsureScenariosBase | ui/investment_plan.py:52-73 | Base is usable afterwards; it is replaced by the country default exactly when it failed the emptiness test |
| PlanScenarios.EnsureScenariosVariants | ui/investment_plan.py:76-90 | Conservative and Aggressive are kept when non-empty dicts, and otherwise are Base with rates ×0.8 / ×1.2 |
| PlanScenarios.CreatedVariantRates | ui/investment_plan.py:78-90 | a variant made from a usable Base is itself non-empty, keeps Base's allocations, and scales each rate to within rounding |
| PlanScenarios.EnsureScenariosFrame | ui/investment_plan.py:47-94 | every other scenario is left exactly as it was |
| PlanScenarios.EnsureScenariosActive | ui/investment_plan.py:93-94 | the active name survives when it names a scenario and otherwise falls back to Base |
| PlanScenarios.EnsureScenariosIdempotent | ui/investment_plan.py:47-94 | a second call changes nothing |
| PlanScenarios.Clone | ui/investment_plan.py:1001-1009 | with fewer than three scenarios a copy named "Scenario n" is added and made active; otherwise the plan is unchanged |
| PlanScenarios.CloneDisabledAfterEnsure | ui/investment_plan.py:1004 | after the bootstrap there are always three scenarios, so the clone button never changes the plan |
| PlanScenarios.Delete | ui/investment_plan.py:1011-1016 | deleting a non-Base scenario removes exactly it and makes Base active; Base itself is never deleted |
| PlanScenarios.DeleteKeepsBase | ui/investment_plan.py:1011-1016 | after a delete Base is still there unchanged, the active name exists, and the table has one scenario fewer |
| PlanScenarios.Clamp100 | ui/investment_plan.py:201-203 | the shifted SWP lies in 0..100 and a value already inside is unchanged |
| PlanScenarios.ShiftAllocations | ui/investment_plan.py:200-213 | the key set is kept, and an allocation without SWP is untouched |
| PlanScenarios.ExactOthersFill | ui/investment_plan.py:206-213 | before rounding, other instruments with a non-zero total fill exactly 100 − SWP, so the allocation sums to 100 |
| PlanScenarios.ExactOthersShares | ui/investment_plan.py:206-213 | each other instrument gets its share of what SWP leaves, and any two keep their ratio |
| PlanScenarios.ExactOthersZeroTotal | ui/investment_plan.py:208-213 | with a zero other total the divisor is 1, so zero entries stay 0 |
| PlanScenarios.ShiftAllocationsSpec | ui/investment_plan.py:200-213 | SWP is moved by the shift and clamped; the others are within half a cent of their exact shares; the total is 100 within rounding |
| PlanScenarios.DeriveScenario | ui/investment_plan.py:175-215 | a non-dict base is a TypeError; a missing rates, withdrawal, monthly or allocations entry is a KeyError for that key, in that order; a dict base holding all four always derives |
| PlanScenarios.DeriveScenarioSections | ui/investment_plan.py:179-215 | income sources and the engine flag are copied; allocations are shifted by −15 (conservative) or +15 (any other mode) |
| PlanScenarios.DeriveScenarioRates | ui/investment_plan.py:190-192 | every rate is the base rate ×0.85 or ×1.15, to within half a cent |
| PlanScenarios.DeriveScenarioWithdrawal | ui/investment_plan.py:194-197 | the monthly withdrawal is a whole number within 0.5 of base ×0.8 or ×1.2; the rest of the section is kept |
| PlanScenarios.DeriveDefaultSucceeds | ui/investment_plan.py:175-215 | every default scenario can be derived in either mode |
| PlanScenarios.DeriveIndiaConservative | ui/investment_plan.py:199-213 | the India default under "conservative" becomes SWP 35, FD 39, SCSS 19.5, POMIS 6.5 |
| InstrumentCaps.CapStep | ui/investment_plan.py:276-286 | an entry within the limit leaves the state as it was; an entry over it ends at exactly min(entry, limit) and the surplus grows by exactly what the entry lost; only a default-only excess is a KeyError; the keys and the other entries are untouched |
| InstrumentCaps.CapStepConserves | ui/investment_plan.py:276-286 | a ceiling step moves weight from the entry to the surplus and loses none |
| InstrumentCaps.AgeStep | ui/investment_plan.py:271-274 | with no age or under 60, SCSS becomes 0 and its value becomes the surplus; otherwise nothing changes |
| InstrumentCaps.AgeStepConserves | ui/investment_plan.py:271-274 | allocation total plus surplus is the input total |
| InstrumentCaps.ApplyInstrumentCaps | ui/investment_plan.py:254-291 | a corpus of at most 0 returns the input with surplus 0; on a positive corpus SCSS ends at exactly min(SCSS, min(100, 30 lakh/corpus)) for an eligible age and at 0 for an ineligible one, POMIS at exactly min(POMIS, min(100, limit/corpus)), SWP gains exactly the surplus, the total is conserved, and every other entry is unchanged |
| InstrumentCaps.CapsWithConserves | ui/investment_plan.py:288-291 | SWP gains exactly the surplus and the total of all values is conserved |
| InstrumentCaps.CapsWithBounds | ui/investment_plan.py:271-289 | SCSS ends at exactly min(SCSS, its limit) for an eligible age and at 0 otherwise; POMIS at exactly min(POMIS, its limit); other entries do not move; SWP (and SCSS below 60) are added |
| InstrumentCaps.CapsWithSurplusNonneg | ui/investment_plan.py:265-291 | from a non-negative SCSS the surplus is never negative |
| InstrumentCaps.ScssLimitPositive | ui/investment_plan.py:277 | the SCSS ceiling on a positive corpus is a positive percentage |
| InstrumentCaps.ApplyInstrumentCapsSucceeds | ui/investment_plan.py:254-291 | with a non-negative POMIS limit (or a POMIS entry) the caps never raise |
| InstrumentCaps.ApplyInstrumentCapsSurplusNonneg | ui/investment_plan.py:265-291 | the returned surplus is non-negative for a non-negative SCSS |
| InstrumentCaps.ApplyInstrumentCapsExample | ui/investment_plan.py:254-291 | corpus 1 crore, age 65, SCSS 50 / SWP 50 gives SCSS 30 / SWP 70 with surplus 20 |
| InstrumentCaps.PercentFromAmount | ui/investment_plan.py:293-298 | no corpus gives 0 and more than the corpus gives 100 |
| InstrumentCaps.PercentFromAmountBounds | ui/investment_plan.py:293-298 | a non-negative amount gives 0..100, within half a cent of the exact share |
| InstrumentCaps.GetInstrumentMaxPercent | ui/investment_plan.py:319-337 | 0 without a corpus; 0 for SCSS below 60; on a positive corpus exactly the SCSS ceiling (from 60) and the single-account POMIS ceiling that the caps enforce, and 100 for uncapped instruments; never above 100 |
| InstrumentCaps.GetAllocationMaxPct | ui/investment_plan.py:340-349 | 0 for SCSS below 60; 0 for SCSS and POMIS on a zero corpus; otherwise min(100, limit / corpus × 100) with the SCSS or single-account POMIS limit; 100 for any other instrument; at most 100 |
| InstrumentCaps.MaxPercentFunctionsAgree | ui/investment_plan.py:319-349 | the two limit functions agree on a positive corpus; without one, the uncapped instruments get 100 from one and 0 from the other |
| InstrumentCaps.MaxPercentBounds | ui/investment_plan.py:319-337 | on a positive corpus every slider limit lies in 0..100 |
| InstrumentCaps.RebalanceTo100 | ui/investment_plan.py:301-317 | the key set is kept; with every key locked the allocation comes back as it was, with the entry values in RebalanceTo100Entries |
| InstrumentCaps.RebalanceTo100Entries | ui/investment_plan.py:301-317 | locked entries are only rounded; each unlocked entry is Round2(max(0, v + (100 − total) / number unlocked)), so never below 0 |
| InstrumentCaps.RebalanceTo100ResultTotal | ui/investment_plan.py:301-317 | when no unlocked entry hits the floor at 0, the returned entries sum to 100 within half a cent per entry |
| InstrumentCaps.RebalanceTo100Total | ui/investment_plan.py:301-317 | when no unlocked entry hits the floor at 0, the total before rounding is exactly 100 |
| InstrumentCaps.RedistributeRemaining | ui/investment_plan.py:354-374 | a missing key is a KeyError; the changed entry is kept; a non-positive other total leaves the allocation unchanged |
| InstrumentCaps.RedistributeRemainingTotal | ui/investment_plan.py:354-374 | with a positive other total the result sums to exactly 100 |
| InstrumentCaps.RedistributeRemainingShares | ui/investment_plan.py:354-374 | each other entry gets its share of 100 − fixed, and any two keep their ratio |
| InstrumentCaps.RebalanceAllocationsTo100 | ui/investment_plan.py:376-406 | the key set is kept; a total that rounds to 100, or no instrument below its limit, leaves the allocation unchanged |
| InstrumentCaps.RebalanceAllocationsTo100Entries | ui/investment_plan.py:376-406 | instruments at or over their limit are untouched; each receiving one ends at exactly min(limit, v + gap / number of receivers), so never past its limit |
| InstrumentCaps.RebalanceAllocationsTo100Total | ui/investment_plan.py:376-406 | when no receiving instrument reaches its limit the total becomes exactly 100 |
| InstrumentCaps.ApplyAgeBasedDefaultAllocation | ui/investment_plan.py:408-429 | from 60 on, or with no age, the scenario is unchanged; below 60 only the allocations change, and a scenario without them raises |
| InstrumentCaps.AgeBasedAllocationShape | ui/investment_plan.py:412-427 | whatever the other total, every key is kept, SCSS and POMIS are added, SCSS is 0 and POMIS is at its ceiling |
| InstrumentCaps.AgeBasedAllocationSpec | ui/investment_plan.py:412-427 | below 60, SCSS is 0 and POMIS is at its ceiling; with a non-zero other total the allocation sums to exactly 100 |
| InstrumentCaps.AgeBasedAllocationShares | ui/investment_plan.py:421-427 | the other instruments keep their ratios, each taking its share of what POMIS leaves |
| InstrumentCaps.EnforceStageInvestmentRules | ui/investment_plan.py:431-446 | it fails exactly when the scenario has no allocations dict |
| InstrumentCaps.EnforceStageRulesSpec | ui/investment_plan.py:431-446 | SCSS is 0 when the age is ineligible or the stage is early or mid; otherwise the allocations are unchanged; no other entry or section moves |
| InstrumentCaps.EnforceStageRulesIdempotent | ui/investment_plan.py:431-446 | applying the stage rules twice is the same as once |
| AllocationEdit.StageOfAge | ui/investment_plan.py:40-45 | every age maps to one of early, mid or retirement |
| AllocationEdit.LifeStage | ui/investment_plan.py:37-45 | a profile without GLAge is "mid" (age 35); a non-dict GLAge is an AttributeError |
| AllocationEdit.StageMonotone | ui/investment_plan.py:40-45 | an older age never maps to an earlier stage |
| AllocationEdit.StageThresholds | ui/investment_plan.py:40-45 | early exactly below 35, mid exactly from 35 to below 55, retirement exactly from 55 |
| AllocationEdit.LifeStageOfProfile | ui/investment_plan.py:37-45 | a numeric GLAge input decides the stage; a non-numeric one is a TypeError |
| AllocationEdit.Without | ui/investment_plan.py:455-459 | the result holds exactly the listed items not banned, and nothing is dropped when none is banned |
| AllocationEdit.WithoutIsSubsequence | ui/investment_plan.py:455-459 | the filtered list keeps the order of the original |
| AllocationEdit.VisibleIncomeSources | ui/investment_plan.py:448-461 | an unknown country is a KeyError; early hides pension and annuity, mid hides pension, any other stage hides nothing |
| AllocationEdit.VisibleSourcesGrow | ui/investment_plan.py:455-461 | every source visible early is visible mid, and every source visible mid is visible in retirement |
| AllocationEdit.VisibleSourcesOrdered | ui/investment_plan.py:448-461 | every visible list is a subsequence of the country's list |
| AllocationEdit.MoveToSwp | ui/investment_plan.py:1133-1142 | an entry within its cap is untouched; otherwise the entry ends at exactly min(entry, cap); the keys are kept and nothing but the entry and SWP moves; a missing entry or missing SWP is a KeyError |
| AllocationEdit.MoveToSwpConserves | ui/investment_plan.py:1133-1142 | SWP gains exactly what the capped entry loses and the total is conserved |
| AllocationEdit.EditedState | ui/investment_plan.py:1123-1130 | the edited value is written and SCSS is zeroed for an ineligible age; nothing else changes |
| AllocationEdit.FinalPass | ui/investment_plan.py:1150-1155 | it succeeds exactly when POMIS is present and SCSS is present or forced; POMIS ends at exactly min(POMIS, cap); SCSS at exactly min(SCSS, cap) for an eligible age and min(0, cap) otherwise; every other entry is unchanged |
| AllocationEdit.AllocationChanged | ui/investment_plan.py:1121-1163 | when it finishes, SCSS ≤ its cap, POMIS ≤ its cap, SCSS is 0 for an ineligible age, and the keys are the edited state's |
| AllocationEdit.AllocationChangedFinal | ui/investment_plan.py:1121-1155 | a successful edit passed the first pass and the redistribution; POMIS, and SCSS for an eligible age, end at exactly min(redistributed value, cap); every other entry ends at its redistributed value |
| AllocationEdit.AllocationChangedSucceeds | ui/investment_plan.py:1121-1163 | with SWP, SCSS and POMIS present the handler never raises |
| AllocationEdit.AllocationChangedNeedsScss | ui/investment_plan.py:1154 | for an eligible age, an allocation without SCSS raises a KeyError on SCSS at the final clip |
| AllocationEdit.FirstPassConserves | ui/investment_plan.py:1128-1142 | the first pass conserves the total: the surplus cut from SCSS and POMIS is on SWP before redistribution |
| AllocationEdit.FirstPassCaps | ui/investment_plan.py:1128-1142 | after the first pass SCSS and POMIS are within their caps and nothing but SWP, SCSS and POMIS moved |
| AllocationEdit.AllocationChangedKeepsEdit | ui/investment_plan.py:1121-1155 | an edited instrument other than SWP, SCSS and POMIS ends exactly at the typed value |
| Simulator.PutSpec | ui/simulator.py:128-139 | the loop (also the one of `hydrate_defaults_from_config`, without overwrite) adds the written keys; with overwrite each written key holds its last written value; without it no existing value changes and a new key holds its first written value |
| Simulator.PutIdempotent | ui/simulator.py:136-139 | running the same write loop twice is the same as once |
| Simulator.SetDefault | ui/simulator.py:64-84 | force always writes; otherwise a missing key is written, a dict with "input" is kept, and an existing value is replaced exactly when it is None, "", 0 or False; nothing else changes |
| Simulator.StoreForced | ui/simulator.py:64-67 | with force, the set_default loop is plain assignment |
| Simulator.StoreSpec | ui/simulator.py:69-84 | without force, the loop keeps every non-blank value and touches only written keys; with non-blank writes, a key that was missing or blank ends holding its first written value |
| Simulator.StoreIdempotent | ui/simulator.py:64-84 | running the set_default loop twice is the same as once |
| Simulator.StoreFrame | ui/simulator.py:64-84 | forced or not, the loop adds the written keys and leaves every other key as it was |
| Simulator.Writes | ui/simulator.py:90-102 | the loop writes exactly the named rows minus the skipped names, each as a non-blank dict (one with "input" for the input shape); the first and the last write to a name carry the first and the last such row's shaped default |
| Simulator.HydrateDefaultsFromConfig | ui/simulator.py:34-43 | the keys become the old ones plus every named row; nothing is overwritten; a new name holds {"input": default} of its first row |
| Simulator.HydrateIdempotent | ui/simulator.py:34-43 | hydrating twice is the same as once |
| Simulator.OnetimePhase | ui/simulator.py:108-121 | it fails exactly when there are rows and the one-time container is not a dict; only that container changes |
| Simulator.RecurringPhase | ui/simulator.py:126-139 | only recurring_expenses changes and it ends holding the country's bucket; success exactly when the container is a dict, the country a string and (with rows) the bucket a dict or missing; with force each written amount holds its last row's default, without it the old amounts stay and a new one holds its first row's default |
| Simulator.RecurringOtherCountries | ui/simulator.py:126-139 | other countries' buckets are untouched |
| Simulator.RecurringKeepsEntered | ui/simulator.py:136-139 | without force, an amount already in the bucket is never replaced |
| Simulator.ReplaceAll | ui/simulator.py:187 | removing a non-empty pattern never makes a name longer |
| Simulator.ReplaceAllAbsent | ui/simulator.py:187 | a name without the prefix is left as it is by `replace` |
| Simulator.ReplaceAllPrefix | ui/simulator.py:186-187 | a prefixed name whose rest does not contain the prefix again becomes exactly its rest |
| Simulator.PlanWrites | ui/simulator.py:178-198 | every write targets allocations, rates or income_sources |
| Simulator.SectionWrites | ui/simulator.py:186-198 | a non-dict Base fails exactly when there is a write; a dict Base stays a dict with the same sections; the only errors are TypeError, AttributeError and a KeyError on a written section |
| Simulator.SectionWritesSpec | ui/simulator.py:186-198 | `setdefault` into Base's sections only adds keys and leaves every written key in its section |
| Simulator.SectionWritesStable | ui/simulator.py:186-198 | a Base that already holds every written key is left as it is |
| Simulator.SectionWritesTotal | ui/simulator.py:186-198 | on a Base whose written sections are dicts the loop cannot fail |
| Simulator.SyncAll | ui/simulator.py:202-203 | it succeeds exactly when every scenario is a dict; then every scenario is marked unsynced and keeps its other entries |
| Simulator.SyncStable | ui/simulator.py:202-203 | scenarios already marked unsynced are left as they are |
| Simulator.PlanPhase | ui/simulator.py:159-162 | only investment_plan changes |
| Simulator.PlanValue | ui/simulator.py:162-203 | a non-dict plan is an AttributeError; on success the plan keeps its keys, gains active_scenario and scenarios, and keeps an existing active name |
| Simulator.PlanValueSettles | ui/simulator.py:162-203 | a successful plan phase leaves the active name, the table, Base, every written key, and every scenario unsynced |
| Simulator.PlanValueStable | ui/simulator.py:162-203 | a settled plan is left unchanged without force |
| Simulator.PlanPhaseForced | ui/simulator.py:159-173 | with force the plan phase cannot fail and rebuilds the same plan whatever the profile held |
| Simulator.PlanKeepsEntered | ui/simulator.py:164-198 | without force, allocations, rates and income sources already in Base keep their values |
| Simulator.ApplyDefaultsFromConfig | ui/simulator.py:45-209 | on success the keys are the old ones, the written base-data names and the four phase keys |
| Simulator.ApplyDefaultsSucceeds | ui/simulator.py:45-209 | a profile without one-time, recurring or plan data (and base-data rows that do not name them), whose country is missing or a string, always succeeds, forced or not |
| Simulator.PlanValueFresh | ui/simulator.py:159-209 | from an empty plan the plan phase always succeeds |
| Simulator.ApplyDefaultsBaseValues | ui/simulator.py:64-102 | a base-data name no later phase owns ends, with force, as {"input": default} of its last row; without force, when it was missing or blank, as {"input": default} of its first row |
| Simulator.ApplyDefaultsRun | ui/simulator.py:86-209 | a successful call is the base-data loop, the one-time, recurring and plan phases in order, then the marker |
| Simulator.ApplyDefaultsKeepsProjectionYears | ui/simulator.py:96-97 | GLProjectionYears is never written by the base-data loop |
| Simulator.ApplyDefaultsKeepsEntered | ui/simulator.py:55 | without force, a non-blank value the user entered is never overwritten outside the keys the later phases own |
| Simulator.ApplyDefaultsPlanShape | ui/simulator.py:159-209 | afterwards the marker, the active scenario, Base, every written plan key and all-unsynced scenarios are present |
| Simulator.ApplyDefaultsIdempotent | ui/simulator.py:51-59 | a second call with the same config and force flag changes nothing |
| Simulator.DefaultInvestmentScenario | ui/simulator.py:211-277 | every country gets a dict with allocations, rates and income but no withdrawal; the rates price exactly the allocated instruments; 401K appears exactly for the US and PENSION exactly for the UK |
| Simulator.DefaultInvestmentScenarioWellFormed | ui/simulator.py:211-277 | every table allocates exactly 100 % and prices exactly the allocated instruments |
| Simulator.DefaultIncomeSourcesMatchVisible | ui/simulator.py:211-277 | for IN, US and UK the table's income sources are exactly the sources listed for that country |
| Simulator.DefaultTablesDisagreeForIndia | ui/simulator.py:257-263 | this table and `_default_scenario` name the same Indian instruments but differ on every share |
| BaseData.HydrateInitialCorpusDefaults | ui/base_data.py:8-39 | it fails exactly when the corpus exists and is not a dict; only initial_corpus changes; its keys end as the country's default keys |
| BaseData.CorpusKeptWhenKeysMatch | ui/base_data.py:34-39 | a corpus whose keys already match keeps every value |
| BaseData.CorpusResetWhenKeysDiffer | ui/base_data.py:31-39 | a missing corpus, or one with other keys, becomes exactly the country's defaults |
| BaseData.CorpusUnknownCountry | ui/base_data.py:30-35 | for an unknown country the corpus ends empty |
| BaseData.HydrateCorpusIdempotent | ui/base_data.py:30-39 | hydrating twice is the same as once |
| ScenarioEngine.ApplyScenarioDiff | ui/scenario_engine.py:3-12 | it fails exactly when a diffed field exists and is not a dict; the keys are base ∪ diff; each diffed field's input is the diff value; the other fields are identical |
| ScenarioEngine.ScenarioDiffFieldShape | ui/scenario_engine.py:7-10 | a new field is exactly {"input": value}; an existing one keeps its other sub-keys |
| ScenarioEngine.ScenarioDiffIdempotent | ui/scenario_engine.py:3-12 | applying the same diff twice is the same as once |
| ScenarioEngine.ScenarioDiffEmpty | ui/scenario_engine.py:3-12 | an empty diff gives back the base data |
| Assumptions.ApplyCountryDefaults | ui/assumptions.py:1-28 | with the marker present nothing changes; otherwise the marker ends True and existing fields keep their values |
| Assumptions.CountryDefaultsAdded | ui/assumptions.py:25-28 | exactly the country's missing defaults are added, each as {"input": value} |
| Assumptions.CountryDefaultsMissingCountry | ui/assumptions.py:5 | a profile without a country gets India's defaults |
| Assumptions.CountryDefaultsUnknown | ui/assumptions.py:25-28 | for a country without a table only the marker is added |
| Assumptions.CountryDefaultsIdempotent | ui/assumptions.py:2-3 | calling it twice is the same as once |
| Expenses.Amounts | ui/expenses.py:19-20 | it succeeds exactly when every entry yields an amount, and then gives each entry its amount |
| Expenses.MonthlySplit | ui/expenses.py:19-24 | each entry counts in exactly one of must-have or optional, and the two sums add up to the bucket's sum |
| Expenses.CountryBucket | ui/expenses.py:11-12 | a missing bucket, or a country that is not a key, gives an empty bucket; a bucket that is a dict is returned as it is; success exactly when the container is a dict, the country not a dict and its bucket (if any) a dict; a non-dict container is an AttributeError and a dict country a TypeError |
| Expenses.Factor | ui/expenses.py:26 | it fails, with ZeroDivisionError, exactly before year 1 with a zero base; before year 1 it is the reciprocal of the matching positive power |
| Expenses.FactorYearOne | ui/expenses.py:26 | in year 1 the factor is 1 for any inflation |
| Expenses.FactorNextYear | ui/expenses.py:26 | each further year multiplies the factor by 1 + inflation, before year 1 as well |
| Expenses.RecurringTotals | ui/expenses.py:10-31 | it succeeds exactly when the bucket can be read, every entry yields a monthly amount, and the factor exists |
| Expenses.RecurringYearOne | ui/expenses.py:26-31 | in year 1 the totals are 12 × the monthly sums, whatever the inflation |
| Expenses.RecurringTotalsSplit | ui/expenses.py:16-31 | each total is within half a cent of its exact yearly amount, and the two exact amounts add up to the bucket's |
| Expenses.RecurringMissingBucket | ui/expenses.py:12-31 | a missing or empty bucket gives (0, 0) |
| Expenses.OnetimeTotal | ui/expenses.py:37-40 | it succeeds exactly when the bucket can be read and every entry yields an amount; the total is within half a cent of the sum of the amounts |
| Expenses.OnetimeMissingBucket | ui/expenses.py:37-40 | a missing or empty bucket gives a zero one-time total |
| Expenses.OnetimeMissingInput | ui/expenses.py:40 | an entry without "input" counts as 0 |
| Expenses.BucketIgnoresOtherCountries | ui/expenses.py:11-12 | changing another country's bucket leaves the current bucket as it was |
| Expenses.TotalsIgnoreOtherCountries | ui/expenses.py:10-40 | both totals ignore other countries' entries |
| AssumptionDiff.BuildAssumptionDiff | ui/assumption_diff.py:5-34 | it fails exactly when some item's row fails, with the first such failure; otherwise it has exactly as many rows as items that give one, each row is some item's row, and it is empty exactly when no item gives a row |
| AssumptionDiff.CollectRows | ui/assumption_diff.py:9-34 | the shared loop fails with the first failing result; otherwise it keeps one row per result that is a row, each one of the results, and is empty exactly when none is a row |
| AssumptionDiff.CollectRowsInOrder | ui/assumption_diff.py:9-34 | the collected rows keep the order of the results they came from |
| AssumptionDiff.DiffRow | ui/assumption_diff.py:11-32 | a non-numeric default gives no row; a row's change is compared − reference, its change % is None exactly for a zero reference and otherwise change/reference·100; the reference is the default |
| AssumptionDiff.DiffRowSpec | ui/assumption_diff.py:16-32 | a row appears exactly when current ≠ default; change = current − default; change % = change/default·100, None for a zero default |
| AssumptionDiff.DiffRowNonNumeric | ui/assumption_diff.py:16-18 | an item with a non-numeric default never gives a row |
| AssumptionDiff.DiffOfDefaultsIsEmpty | ui/assumption_diff.py:20-22 | data without any of the config's fields gives no rows |
| AssumptionDiff.DiffRowsInConfigOrder | ui/assumption_diff.py:11-32 | the rows' labels are a subsequence of the items' descriptions, so rows come in config order |
| AssumptionDiff.BuildAssumptionDiffBetween | ui/assumption_diff.py:73-100 | it fails exactly when some item's row fails, with the first such failure; otherwise it has exactly as many rows as items that give one, each row is some item's row, and it is empty exactly when no item gives a row |
| AssumptionDiff.BetweenRow | ui/assumption_diff.py:78-98 | a row's change is right − left, and its change % is None exactly for a zero left value and otherwise change/left·100 |
| AssumptionDiff.BetweenRowSpec | ui/assumption_diff.py:85-98 | a row appears exactly when left ≠ right, both falling back to the default; change = right − left; change % is None exactly when left is 0 |
| AssumptionDiff.BetweenLeftNoneRaises | ui/assumption_diff.py:88-90 | a None left value that differs from the right one raises a TypeError on the subtraction, so the `None` half of the guard is never reached |
| AssumptionDiff.BetweenSameIsEmpty | ui/assumption_diff.py:85-88 | comparing a data set with itself gives no rows |
| Summary.SafeGet | ui/summary.py:14-22 | an empty path returns d; a non-dict, or a missing or None first key, returns the default |
| Summary.SafeGetAlong | ui/summary.py:19-22 | a value reached along the path is returned, including falsy values such as 0 |
| Summary.SafeGetAppend | ui/summary.py:15-22 | a lookup along p + q is a lookup along p, then one along q from where it arrived |
| Summary.SafeGetMissing | ui/summary.py:17-21 | a path that does not lead anywhere gives the default |

## Left out

- Streamlit rendering, session state and widget wiring are not modelled. That includes the body of `render_investment_plan` apart from the edit handler, the write-back of `allocation_changed` into session state, and the debug `print` in `apply_defaults_from_config`.
- `get_user_age`, `is_scss_eligible` and `get_current_monthly_expense` read widget data. The age is a parameter (`Option<int>`) of every operation that needs it.
- Network and persistence (the entitlement call in `get_user_context`, the API client) are not modelled: they are I/O.
- `clone_scenario` in ui/simulator.py is not modelled: a deep copy of an immutable value is the value itself, so there is nothing to state.
- Binary floating point is not modelled. Numbers are exact reals. Python ints and floats are both numbers, and `True`/`False` count as 1/0.
- Common.Round2 and Common.Round0: Python's `round` works on binary floats and sends an exact tie to the even neighbour. The model works on exact reals and sends a tie upward. The two agree except on ties, and the members below depend on the exact value.
- InstrumentCaps.RebalanceTo100Entries: a locked entry is stated to end at exactly `Round2` of its value (ui/investment_plan.py:317). A locked 0.125 ends at 0.13 in the model; Python's `round(0.125, 2)` gives 0.12.
- InstrumentCaps.RebalanceAllocationsTo100: the early return tests `Round2(total) == 100` (ui/investment_plan.py:385). The model returns early for every total in [99.995, 100.005). Python's float `round` settles the two boundary values by their binary representation, so on those boundaries the two can disagree.
- PlanScenarios.DeriveScenario: the monthly withdrawal is `Round0` of base × 0.8 or × 1.2 (ui/investment_plan.py:195-197). A base of 3.125 gives 2.5 under × 0.8; the model makes it 3.0, Python's `round(2.5)` makes it 2.0. The contract of `PlanScenarios.DeriveScenarioWithdrawal` (within 0.5, a whole number) holds for both.
- Expenses.RecurringYearOne: states the totals as exactly `Round2(12 × monthly sum)`, so a sum whose twelvefold ends in an exact half cent rounds up in the model and to even in Python. The bounds of `Expenses.RecurringTotalsSplit` and `Expenses.OnetimeTotal` hold for both.
- When Python raises part-way through a loop, the dictionary keeps its earlier writes. The model returns an error and drops them.
- Dictionary iteration order is not modelled (maps are unordered). AllocationsEngine.ApplyCaps therefore reports a KeyError among the unknown keys, not the first one.
- InstrumentCaps.RebalanceTo100: the in-place write of `max(0, v + share)` into the caller's dictionary (ui/investment_plan.py:315-316) is not modelled; only the returned rounded copy is. Its only call site (ui/investment_plan.py:1145) is commented out, so no caller sees that write.
- Expenses.RecurringTotals: its contract states only when it succeeds; the half-cent bounds on the two totals are stated by `Expenses.RecurringTotalsSplit`, to keep the function's own proof small.
- Expenses.Amounts: with both a non-dict entry and a non-numeric amount in a bucket, Python's error depends on dict order. The model reports the AttributeError.
- Simulator.RecurringPhase: a country that is neither a string nor a dict raises TypeError in the model. Python would use any hashable value (a number, say) as the bucket key.
- Simulator.ApplyDefaultsFromConfig: its own contract states only the key set. The value a base-data name receives is stated by `Simulator.ApplyDefaultsBaseValues`, and the kept entered values by `Simulator.ApplyDefaultsKeepsEntered`. Both need the whole run unfolded (`Simulator.ApplyDefaultsRun`), which a lemma about the function can do and the function's own contract cannot without recursion. When the call succeeds is stated for fresh profiles by `Simulator.ApplyDefaultsSucceeds`.
- Simulator.ApplyDefaultsIdempotent: requires that no base-data row is named `country` or after a key a later phase owns. Such a row would be overwritten by that phase and written again on the second call.
- Config rows whose "Field Name" is not a string are not modelled. Names are strings, and a missing or empty name is skipped.
- PlanScenarios.Scenario sections are dictionaries of numbers or missing. A section that is present but holds a non-dict value (such as None) is not modelled.
- AllocationsEngine.NewEngine: the engine's age is an `int`. A None age, which would make `filter_eligible` raise on an instrument with a minimum age, is not modelled.
- The US and UK rule sets have no designated absorber for surplus. As in the source, `apply_instrument_caps` always adds the surplus to `SWP`.
- Python's `d.get(key)` on a string container, and other substring semantics of `in`, are approximated as TypeError or AttributeError.
