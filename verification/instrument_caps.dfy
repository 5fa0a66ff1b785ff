/**
 The cap engine of ui/investment_plan.py and its helpers: the SCSS and
 POMIS ceilings turned into percentages of the corpus, `apply_instrument_caps`
 (which sends every capped-off percentage to SWP), the slider limits, the
 two rebalancers, the proportional `redistribute_remaining`, the age-based
 default allocation and the stage rules.

 These ceilings are the module's own constants; they agree with, but are
 separate from, the rule table of ui/allocations_engine.py.
 */
module InstrumentCaps {
  import opened Common
  import opened PlanScenarios

  /** Rs 30 lakh per individual (`SCSS_MAX`, `SCSS_MAX_INVESTMENT`). */
  const ScssMax: real := 3000000.0
  /** Rs 4.5 lakh for a single POMIS account (`POMIS_MAX_SINGLE`). */
  const PomisMaxSingle: real := 450000.0
  /** Rs 9 lakh for a joint POMIS account (`POMIS_MAX_JOINT`). */
  const PomisMaxJoint: real := 900000.0
  const ScssMinAge: int := 60

  /** `age is None or age < SCSS_MIN_AGE`. */
  predicate ScssIneligible(age: Option<int>) {
    age.None? || age.value < ScssMinAge
  }

  /** `(amount / corpus) * 100`. */
  function PctOfCorpus(amount: real, corpus: real): real
    requires corpus != 0.0
  {
    amount / corpus * 100.0
  }

  /** A positive amount is a positive share of a positive corpus. */
  lemma PctOfCorpusPositive(amount: real, corpus: real)
    requires amount > 0.0 && corpus > 0.0
    ensures PctOfCorpus(amount, corpus) > 0.0
  {
    assert amount / corpus > 0.0;
  }

  // ---------------------------------------------------------------------
  // apply_instrument_caps
  // ---------------------------------------------------------------------

  /** What `apply_instrument_caps` returns: the capped allocation and the percentage moved to SWP. */
  datatype Capped = Capped(allocations: map<string, real>, surplus: real)

  /**
   One ceiling step of `apply_instrument_caps`: an entry above `limit` is
   cut to it and the excess joins the running surplus. Reading the entry
   with `capped[key]` is a KeyError when only the `.get(key, 0)` default
   exceeded the limit.
   */
  function CapStep(c: Capped, key: string, limit: real): (r: Result<Capped>)
    ensures GetReal(c.allocations, key, 0.0) <= limit ==> r == Ok(c)
    ensures GetReal(c.allocations, key, 0.0) > limit && key !in c.allocations ==> r == Err(KeyError(key))
    ensures r.Ok? && key in c.allocations ==> key in r.value.allocations
    ensures r.Ok? && key in c.allocations ==> r.value.allocations[key] == Min(c.allocations[key], limit)
    ensures r.Ok? && key in c.allocations ==>
              r.value.surplus == c.surplus + (c.allocations[key] - r.value.allocations[key])
    ensures r.Ok? ==> r.value.allocations.Keys == c.allocations.Keys
    ensures r.Ok? ==> forall k | k in c.allocations && k != key :: r.value.allocations[k] == c.allocations[k]
    ensures r.Ok? ==> r.value.surplus >= c.surplus
  {
    if GetReal(c.allocations, key, 0.0) <= limit then Ok(c)
    else if key !in c.allocations then Err(KeyError(key))
    else Ok(Capped(c.allocations[key := limit], c.surplus + (c.allocations[key] - limit)))
  }

  /** A ceiling step moves weight from the entry to the surplus and loses none. */
  lemma CapStepConserves(c: Capped, key: string, limit: real)
    requires CapStep(c, key, limit).Ok?
    ensures Sum(CapStep(c, key, limit).value.allocations) + CapStep(c, key, limit).value.surplus
            == Sum(c.allocations) + c.surplus
  {
    if GetReal(c.allocations, key, 0.0) > limit {
      SumUpdate(c.allocations, key, limit);
    }
  }

  /** The SCSS eligibility step: below 60 (or without an age) SCSS goes to 0, its value into the surplus. */
  function AgeStep(allocations: map<string, real>, age: Option<int>): (r: Capped)
    ensures ScssIneligible(age) ==> "SCSS" in r.allocations && r.allocations["SCSS"] == 0.0
    ensures ScssIneligible(age) ==> r.allocations.Keys == allocations.Keys + {"SCSS"}
    ensures !ScssIneligible(age) ==> r == Capped(allocations, 0.0)
    ensures forall k | k in allocations && k != "SCSS" :: r.allocations[k] == allocations[k]
  {
    if ScssIneligible(age) then Capped(allocations["SCSS" := 0.0], GetReal(allocations, "SCSS", 0.0))
    else Capped(allocations, 0.0)
  }

  lemma AgeStepConserves(allocations: map<string, real>, age: Option<int>)
    ensures Sum(AgeStep(allocations, age).allocations) + AgeStep(allocations, age).surplus == Sum(allocations)
  {
    SumUpdate(allocations, "SCSS", 0.0);
  }

  /** The SCSS ceiling as a percentage of a positive corpus, at most 100. */
  function ScssPctLimit(corpus: real): real
    requires corpus > 0.0
  {
    Min(100.0, PctOfCorpus(ScssMax, corpus))
  }

  /** The POMIS ceiling for the given account limit, at most 100. */
  function PomisPctLimit(pomisLimit: real, corpus: real): real
    requires corpus > 0.0
  {
    Min(100.0, PctOfCorpus(pomisLimit, corpus))
  }

  /** The three steps of `apply_instrument_caps` for given percentage ceilings, SWP collecting the surplus. */
  function CapsWith(allocations: map<string, real>, age: Option<int>, scssLimit: real, pomisLimit: real)
    : (r: Result<Capped>)
  {
    var c1 := AgeStep(allocations, age);
    match CapStep(c1, "SCSS", scssLimit)
    case Err(e) => Err(e)
    case Ok(c2) =>
      match CapStep(c2, "POMIS", pomisLimit)
      case Err(e) => Err(e)
      case Ok(c3) =>
        Ok(Capped(c3.allocations["SWP" := GetReal(c3.allocations, "SWP", 0.0) + c3.surplus], c3.surplus))
  }

  /**
   `apply_instrument_caps(total_corpus, allocations, age, pomis_limit)`.
   A corpus that is not positive returns a copy and no surplus. Otherwise
   SCSS is zeroed for an ineligible age, SCSS and POMIS are cut to their
   ceilings, and SWP (created if missing) receives everything removed: SWP
   gains exactly the surplus, the total is conserved and every other entry
   is unchanged.
   */
  function ApplyInstrumentCaps(corpus: real, allocations: map<string, real>, age: Option<int>, pomisLimit: real)
    : (r: Result<Capped>)
    ensures corpus <= 0.0 ==> r == Ok(Capped(allocations, 0.0))
    ensures corpus > 0.0 && r.Ok? ==>
              && r.value.allocations.Keys == allocations.Keys + {"SWP"} + (if ScssIneligible(age) then {"SCSS"} else {})
              && r.value.allocations["SWP"] == GetReal(allocations, "SWP", 0.0) + r.value.surplus
              && Sum(r.value.allocations) == Sum(allocations)
              && ("SCSS" in r.value.allocations ==> r.value.allocations["SCSS"] <= ScssPctLimit(corpus))
              && ("POMIS" in r.value.allocations ==> r.value.allocations["POMIS"] <= PomisPctLimit(pomisLimit, corpus))
              && (ScssIneligible(age) ==> r.value.allocations["SCSS"] == 0.0)
              && (!ScssIneligible(age) && "SCSS" in allocations ==>
                    r.value.allocations["SCSS"] == Min(allocations["SCSS"], ScssPctLimit(corpus)))
              && ("POMIS" in allocations ==>
                    r.value.allocations["POMIS"] == Min(allocations["POMIS"], PomisPctLimit(pomisLimit, corpus)))
              && (forall k | k in allocations && k !in {"SCSS", "POMIS", "SWP"} :: r.value.allocations[k] == allocations[k])
  {
    if corpus <= 0.0 then Ok(Capped(allocations, 0.0))
    else
      var c := CapsWith(allocations, age, ScssPctLimit(corpus), PomisPctLimit(pomisLimit, corpus));
      if c.Ok? then
        ScssLimitPositive(corpus);
        CapsWithConserves(allocations, age, ScssPctLimit(corpus), PomisPctLimit(pomisLimit, corpus));
        CapsWithBounds(allocations, age, ScssPctLimit(corpus), PomisPctLimit(pomisLimit, corpus));
        c
      else c
  }

  /** The weight the caps remove lands on SWP: SWP gains exactly the surplus and the total is conserved. */
  lemma CapsWithConserves(allocations: map<string, real>, age: Option<int>, scssLimit: real, pomisLimit: real)
    requires CapsWith(allocations, age, scssLimit, pomisLimit).Ok?
    ensures var r := CapsWith(allocations, age, scssLimit, pomisLimit).value;
            && r.allocations["SWP"] == GetReal(allocations, "SWP", 0.0) + r.surplus
            && Sum(r.allocations) == Sum(allocations)
  {
    var c1 := AgeStep(allocations, age);
    var c2 := CapStep(c1, "SCSS", scssLimit).value;
    var c3 := CapStep(c2, "POMIS", pomisLimit).value;
    AgeStepConserves(allocations, age);
    CapStepConserves(c1, "SCSS", scssLimit);
    CapStepConserves(c2, "POMIS", pomisLimit);
    CapsWithLast(allocations, age, scssLimit, pomisLimit);
  }

  /** The last step of the caps: SWP takes the surplus left after both ceilings, which adds exactly that surplus to the total. */
  lemma CapsWithLast(allocations: map<string, real>, age: Option<int>, scssLimit: real, pomisLimit: real)
    requires CapsWith(allocations, age, scssLimit, pomisLimit).Ok?
    ensures var c2 := CapStep(AgeStep(allocations, age), "SCSS", scssLimit);
            && c2.Ok? && CapStep(c2.value, "POMIS", pomisLimit).Ok?
            && var c3 := CapStep(c2.value, "POMIS", pomisLimit).value;
               var r := CapsWith(allocations, age, scssLimit, pomisLimit).value;
               && r.surplus == c3.surplus
               && r.allocations["SWP"] == GetReal(c3.allocations, "SWP", 0.0) + c3.surplus
               && Sum(r.allocations) == Sum(c3.allocations) + c3.surplus
  {
    var c2 := CapStep(AgeStep(allocations, age), "SCSS", scssLimit).value;
    var c3 := CapStep(c2, "POMIS", pomisLimit).value;
    SumUpdate(c3.allocations, "SWP", GetReal(c3.allocations, "SWP", 0.0) + c3.surplus);
  }

  /** SCSS and POMIS end within their ceilings, SCSS is 0 for an ineligible age, and nothing else moves. */
  lemma CapsWithBounds(allocations: map<string, real>, age: Option<int>, scssLimit: real, pomisLimit: real)
    requires CapsWith(allocations, age, scssLimit, pomisLimit).Ok?
    ensures var r := CapsWith(allocations, age, scssLimit, pomisLimit).value.allocations;
            && ("SCSS" in r ==> r["SCSS"] <= scssLimit)
            && ("POMIS" in r ==> r["POMIS"] <= pomisLimit)
            && (ScssIneligible(age) && scssLimit >= 0.0 ==> r["SCSS"] == 0.0)
            && (!ScssIneligible(age) && "SCSS" in allocations ==> r["SCSS"] == Min(allocations["SCSS"], scssLimit))
            && ("POMIS" in allocations ==> r["POMIS"] == Min(allocations["POMIS"], pomisLimit))
            && (forall k | k in allocations && k !in {"SCSS", "POMIS", "SWP"} :: r[k] == allocations[k])
            && r.Keys == allocations.Keys + {"SWP"} + (if ScssIneligible(age) then {"SCSS"} else {})
  {
  }

  /** Starting from non-negative SCSS, the surplus is never negative. */
  lemma CapsWithSurplusNonneg(allocations: map<string, real>, age: Option<int>, scssLimit: real, pomisLimit: real)
    requires CapsWith(allocations, age, scssLimit, pomisLimit).Ok?
    requires "SCSS" in allocations ==> allocations["SCSS"] >= 0.0
    ensures CapsWith(allocations, age, scssLimit, pomisLimit).value.surplus >= 0.0
  {
    var c1 := AgeStep(allocations, age);
    assert c1.surplus >= 0.0;
    var c2 := CapStep(c1, "SCSS", scssLimit).value;
    assert c2.surplus >= 0.0;
  }

  /** The SCSS step never fails on a positive corpus: its ceiling is positive. */
  lemma ScssLimitPositive(corpus: real)
    requires corpus > 0.0
    ensures ScssPctLimit(corpus) > 0.0
  {
    PctOfCorpusPositive(ScssMax, corpus);
  }

  /** The caps only fail for a negative POMIS limit with no POMIS entry; with the real limits they succeed. */
  lemma ApplyInstrumentCapsSucceeds(corpus: real, allocations: map<string, real>, age: Option<int>, pomisLimit: real)
    requires pomisLimit >= 0.0 || "POMIS" in allocations
    ensures ApplyInstrumentCaps(corpus, allocations, age, pomisLimit).Ok?
  {
    if corpus > 0.0 {
      ScssLimitPositive(corpus);
      if pomisLimit >= 0.0 {
        assert PctOfCorpus(pomisLimit, corpus) >= 0.0 by {
          assert pomisLimit / corpus >= 0.0;
        }
      }
    }
  }

  /** Starting from non-negative SCSS, the surplus is never negative. */
  lemma ApplyInstrumentCapsSurplusNonneg(corpus: real, allocations: map<string, real>, age: Option<int>, pomisLimit: real)
    requires ApplyInstrumentCaps(corpus, allocations, age, pomisLimit).Ok?
    requires "SCSS" in allocations ==> allocations["SCSS"] >= 0.0
    ensures ApplyInstrumentCaps(corpus, allocations, age, pomisLimit).value.surplus >= 0.0
  {
    if corpus > 0.0 {
      CapsWithSurplusNonneg(allocations, age, ScssPctLimit(corpus), PomisPctLimit(pomisLimit, corpus));
    }
  }

  /** A corpus of one crore at age 65: SCSS 50 % is cut to the 30 lakh ceiling (30 %) and SWP takes the other 20 %. */
  lemma ApplyInstrumentCapsExample()
    ensures ApplyInstrumentCaps(10000000.0, map["SCSS" := 50.0, "SWP" := 50.0], Some(65), PomisMaxSingle)
            == Ok(Capped(map["SCSS" := 30.0, "SWP" := 70.0], 20.0))
  {
    var a := map["SCSS" := 50.0, "SWP" := 50.0];
    assert PctOfCorpus(ScssMax, 10000000.0) == 30.0;
    assert PctOfCorpus(PomisMaxSingle, 10000000.0) == 4.5;
    assert AgeStep(a, Some(65)) == Capped(a, 0.0);
    var c2 := Capped(a["SCSS" := 30.0], 20.0);
    assert CapStep(Capped(a, 0.0), "SCSS", 30.0) == Ok(c2);
    assert CapStep(c2, "POMIS", 4.5) == Ok(c2);
    assert c2.allocations["SWP" := 70.0] == map["SCSS" := 30.0, "SWP" := 70.0];
    assert ScssPctLimit(10000000.0) == 30.0 && PomisPctLimit(PomisMaxSingle, 10000000.0) == 4.5;
    assert CapsWith(a, Some(65), 30.0, 4.5) == Ok(Capped(map["SCSS" := 30.0, "SWP" := 70.0], 20.0));
  }

  // ---------------------------------------------------------------------
  // Percentages and slider limits
  // ---------------------------------------------------------------------

  /** `percent_from_amount(amount, corpus)`: 0 without a corpus, 100 above it, else rounded to cents. */
  function PercentFromAmount(amount: real, corpus: real): (r: real)
    ensures corpus <= 0.0 ==> r == 0.0
    ensures corpus > 0.0 && PctOfCorpus(amount, corpus) > 100.0 ==> r == 100.0
  {
    if corpus <= 0.0 then 0.0
    else if PctOfCorpus(amount, corpus) > 100.0 then 100.0
    else Round2(PctOfCorpus(amount, corpus))
  }

  /** For a non-negative amount the percentage lies in 0..100 and within half a cent of the exact share. */
  lemma PercentFromAmountBounds(amount: real, corpus: real)
    requires amount >= 0.0
    ensures 0.0 <= PercentFromAmount(amount, corpus) <= 100.0
    ensures corpus > 0.0 && PctOfCorpus(amount, corpus) <= 100.0 ==>
              PctOfCorpus(amount, corpus) - 0.005 < PercentFromAmount(amount, corpus)
                <= PctOfCorpus(amount, corpus) + 0.005
  {
    if corpus > 0.0 {
      var x := PctOfCorpus(amount, corpus);
      assert x >= 0.0 by {
        assert amount / corpus >= 0.0;
      }
      if x <= 100.0 {
        Round2Monotone(0.0, x);
        Round2Monotone(x, 100.0);
        Round2Cents(0);
        Round2Cents(10000);
      }
    }
  }

  /** `get_instrument_max_percent`: the slider maximum for one instrument. */
  function GetInstrumentMaxPercent(inst: string, corpus: real, age: Option<int>): (r: real)
    ensures corpus <= 0.0 ==> r == 0.0
    ensures inst == "SCSS" && ScssIneligible(age) ==> r == 0.0
    ensures corpus > 0.0 && inst !in {"SCSS", "POMIS"} ==> r == 100.0
    ensures corpus > 0.0 && inst == "SCSS" && !ScssIneligible(age) ==> r == ScssPctLimit(corpus)
    ensures corpus > 0.0 && inst == "POMIS" ==> r == PomisPctLimit(PomisMaxSingle, corpus)
    ensures r <= 100.0
  {
    if corpus <= 0.0 then 0.0
    else if inst == "SCSS" then
      if ScssIneligible(age) then 0.0 else ScssPctLimit(corpus)
    else if inst == "POMIS" then PomisPctLimit(PomisMaxSingle, corpus)
    else 100.0
  }

  /** `get_allocation_max_pct`: the same limits, except that a zero corpus yields 0 only for SCSS and POMIS. */
  function GetAllocationMaxPct(inst: string, corpus: real, age: Option<int>): (r: real)
    ensures inst == "SCSS" && ScssIneligible(age) ==> r == 0.0
    ensures inst !in {"SCSS", "POMIS"} ==> r == 100.0
    ensures inst in {"SCSS", "POMIS"} ==> r <= 100.0
    ensures inst in {"SCSS", "POMIS"} && corpus == 0.0 ==> r == 0.0
    ensures corpus != 0.0 && inst == "SCSS" && !ScssIneligible(age) ==> r == Min(100.0, PctOfCorpus(ScssMax, corpus))
    ensures corpus != 0.0 && inst == "POMIS" ==> r == Min(100.0, PctOfCorpus(PomisMaxSingle, corpus))
  {
    if inst == "SCSS" then
      if ScssIneligible(age) then 0.0
      else if corpus != 0.0 then Min(100.0, PctOfCorpus(ScssMax, corpus)) else 0.0
    else if inst == "POMIS" then
      if corpus != 0.0 then Min(100.0, PctOfCorpus(PomisMaxSingle, corpus)) else 0.0
    else 100.0
  }

  /** The two limit functions agree on a positive corpus and part ways otherwise. */
  lemma MaxPercentFunctionsAgree(inst: string, corpus: real, age: Option<int>)
    ensures corpus > 0.0 ==> GetAllocationMaxPct(inst, corpus, age) == GetInstrumentMaxPercent(inst, corpus, age)
    ensures corpus <= 0.0 && inst !in {"SCSS", "POMIS"} ==>
              GetAllocationMaxPct(inst, corpus, age) == 100.0 && GetInstrumentMaxPercent(inst, corpus, age) == 0.0
  {
  }

  /** On a positive corpus every slider limit lies in 0..100. */
  lemma MaxPercentBounds(inst: string, corpus: real, age: Option<int>)
    requires corpus > 0.0
    ensures 0.0 <= GetInstrumentMaxPercent(inst, corpus, age) <= 100.0
  {
    PctOfCorpusPositive(ScssMax, corpus);
    PctOfCorpusPositive(PomisMaxSingle, corpus);
  }

  // ---------------------------------------------------------------------
  // rebalance_to_100
  // ---------------------------------------------------------------------

  /** The entries `rebalance_to_100` may move: those not locked. */
  function Adjustable(alloc: map<string, real>, locked: set<string>): set<string> {
    alloc.Keys - locked
  }

  /** Every adjustable entry moved by `share` and floored at 0, before rounding. */
  function ShiftedBy(alloc: map<string, real>, locked: set<string>, share: real): (r: map<string, real>)
    ensures r.Keys == alloc.Keys
  {
    map k | k in alloc :: if k in locked then alloc[k] else Max(0.0, alloc[k] + share)
  }

  /** The equal share of `100 - total` that each unlocked entry receives. */
  function RebalanceShare(alloc: map<string, real>, locked: set<string>): real
    requires Adjustable(alloc, locked) != {}
  {
    (100.0 - Sum(alloc)) / |Adjustable(alloc, locked)| as real
  }

  /**
   `rebalance_to_100(alloc, locked_keys)`: spread `100 - total` equally over
   the unlocked entries (none below 0) and round every entry; with nothing
   unlocked the allocation comes back as it is, unrounded.
   */
  function RebalanceTo100(alloc: map<string, real>, locked: set<string>): (r: map<string, real>)
    ensures r.Keys == alloc.Keys
    ensures Adjustable(alloc, locked) == {} ==> r == alloc
  {
    var adjustable := Adjustable(alloc, locked);
    if adjustable == {} then alloc
    else RoundValues(ShiftedBy(alloc, locked, RebalanceShare(alloc, locked)))
  }

  /**
   With something unlocked: locked entries are only rounded, and each
   unlocked one is its value plus an equal share of `100 - total`, floored
   at 0 and rounded, so it never ends below 0.
   */
  lemma RebalanceTo100Entries(alloc: map<string, real>, locked: set<string>)
    requires Adjustable(alloc, locked) != {}
    ensures var r := RebalanceTo100(alloc, locked);
            && (forall k | k in alloc && k in locked :: r[k] == Round2(alloc[k]))
            && (forall k | k in alloc && k !in locked ::
                  r[k] == Round2(Max(0.0, alloc[k] + RebalanceShare(alloc, locked))))
            && (forall k | k in alloc && k !in locked :: r[k] >= 0.0)
  {
    var share := RebalanceShare(alloc, locked);
    var exact := ShiftedBy(alloc, locked, share);
    var r := RebalanceTo100(alloc, locked);
    assert r == RoundValues(exact);
    forall k | k in alloc && k !in locked
      ensures r[k] == Round2(Max(0.0, alloc[k] + RebalanceShare(alloc, locked)))
      ensures r[k] >= 0.0
    {
      assert exact[k] == Max(0.0, alloc[k] + share);
      Round2Monotone(0.0, exact[k]);
      Round2Cents(0);
    }
  }

  /** When no unlocked entry hits the floor at 0, the total before rounding is exactly 100. */
  lemma RebalanceTo100Total(alloc: map<string, real>, locked: set<string>)
    requires Adjustable(alloc, locked) != {}
    requires forall k | k in alloc && k !in locked ::
               alloc[k] + RebalanceShare(alloc, locked) >= 0.0
    ensures Sum(ShiftedBy(alloc, locked, RebalanceShare(alloc, locked))) == 100.0
  {
    var adjustable := Adjustable(alloc, locked);
    var gap := 100.0 - Sum(alloc);
    var exact := ShiftedBy(alloc, locked, gap / |adjustable| as real);
    SumSpread(alloc, adjustable, gap, exact);
  }

  /**
   The same for the returned allocation: when no unlocked entry hits the
   floor at 0, the rounded entries sum to 100 within half a cent per entry.
   */
  lemma RebalanceTo100ResultTotal(alloc: map<string, real>, locked: set<string>)
    requires Adjustable(alloc, locked) != {}
    requires forall k | k in alloc && k !in locked ::
               alloc[k] + RebalanceShare(alloc, locked) >= 0.0
    ensures 100.0 - 0.005 * |alloc| as real <= Sum(RebalanceTo100(alloc, locked))
    ensures Sum(RebalanceTo100(alloc, locked)) <= 100.0 + 0.005 * |alloc| as real
  {
    var exact := ShiftedBy(alloc, locked, RebalanceShare(alloc, locked));
    RebalanceTo100Total(alloc, locked);
    assert RebalanceTo100(alloc, locked) == RoundValues(exact);
    SumClose(exact, RoundValues(exact));
  }

  // ---------------------------------------------------------------------
  // redistribute_remaining
  // ---------------------------------------------------------------------

  /**
   `redistribute_remaining(alloc, changed_key)`: keep the changed entry and
   scale all the others by `(100 - fixed) / other_total`; a non-positive
   other total leaves the allocation alone. A missing key is a KeyError.
   */
  function RedistributeRemaining(alloc: map<string, real>, changed: string): (r: Result<map<string, real>>)
    ensures changed !in alloc ==> r == Err(KeyError(changed))
    ensures changed in alloc ==> r.Ok? && r.value.Keys == alloc.Keys && r.value[changed] == alloc[changed]
    ensures changed in alloc && Sum(alloc - {changed}) <= 0.0 ==> r == Ok(alloc)
  {
    if changed !in alloc then Err(KeyError(changed))
    else
      var others := alloc - {changed};
      var otherTotal := Sum(others);
      if otherTotal <= 0.0 then Ok(alloc)
      else Ok(Scale(others, (100.0 - alloc[changed]) / otherTotal)[changed := alloc[changed]])
  }

  /** With a positive other total the result sums to exactly 100. */
  lemma RedistributeRemainingTotal(alloc: map<string, real>, changed: string)
    requires changed in alloc && Sum(alloc - {changed}) > 0.0
    ensures Sum(RedistributeRemaining(alloc, changed).value) == 100.0
  {
    var others := alloc - {changed};
    var remaining := 100.0 - alloc[changed];
    var scaled := Scale(others, remaining / Sum(others));
    ScaleToTarget(others, remaining, Sum(others));
    assert changed !in scaled;
    SumInsert(scaled, changed, alloc[changed]);
  }

  /**
   Each other entry is scaled by `remaining / other_total`: in product form it
   is the share `remaining * v` of the other total, and any two keep their ratio.
   */
  lemma RedistributeRemainingShares(alloc: map<string, real>, changed: string, r: map<string, real>,
                                    j: string, k: string, remaining: real, otherTotal: real)
    requires changed in alloc && Sum(alloc - {changed}) > 0.0
    requires RedistributeRemaining(alloc, changed) == Ok(r)
    requires j in alloc && k in alloc && j != changed && k != changed
    requires remaining == 100.0 - alloc[changed] && otherTotal == Sum(alloc - {changed})
    ensures r[k] * otherTotal == remaining * alloc[k]
    ensures r[j] * alloc[k] == r[k] * alloc[j]
  {
    RedistributeRemainingFactor(alloc, changed, remaining / otherTotal);
    ScaledOthersShares(alloc, changed, r, j, k, remaining, otherTotal);
  }

  /** The share facts for any map built as the others scaled by `remaining / otherTotal` plus the changed entry. */
  lemma ScaledOthersShares(alloc: map<string, real>, changed: string, r: map<string, real>,
                           j: string, k: string, remaining: real, otherTotal: real)
    requires changed in alloc && j in alloc && k in alloc && j != changed && k != changed && otherTotal != 0.0
    requires r == Scale(alloc - {changed}, remaining / otherTotal)[changed := alloc[changed]]
    ensures r[k] * otherTotal == remaining * alloc[k]
    ensures r[j] * alloc[k] == r[k] * alloc[j]
  {
    var f := remaining / otherTotal;
    assert r[j] == alloc[j] * f && r[k] == alloc[k] * f;
    SharePair(r[j], r[k], alloc[j], alloc[k], f, otherTotal, remaining);
  }

  /** With a positive other total, the result is the others scaled by the common factor, plus the changed entry. */
  lemma RedistributeRemainingFactor(alloc: map<string, real>, changed: string, f: real)
    requires changed in alloc && Sum(alloc - {changed}) > 0.0
    requires f == (100.0 - alloc[changed]) / Sum(alloc - {changed})
    ensures RedistributeRemaining(alloc, changed) == Ok(Scale(alloc - {changed}, f)[changed := alloc[changed]])
  {
  }

  // ---------------------------------------------------------------------
  // rebalance_allocations_to_100
  // ---------------------------------------------------------------------

  /** The instruments still below their limit, which may receive more. */
  function BelowLimit(allocations: map<string, real>, corpus: real, age: Option<int>): set<string> {
    set k | k in allocations && allocations[k] < GetAllocationMaxPct(k, corpus, age)
  }

  /**
   `rebalance_allocations_to_100(allocations, total_corpus, age)`: unless
   the total already rounds to 100, add an equal share of the gap to every
   instrument below its limit, never past that limit.
   */
  function RebalanceAllocationsTo100(allocations: map<string, real>, corpus: real, age: Option<int>)
    : (r: map<string, real>)
    ensures r.Keys == allocations.Keys
    ensures Round2(Sum(allocations)) == 100.0 ==> r == allocations
    ensures BelowLimit(allocations, corpus, age) == {} ==> r == allocations
  {
    var eligible := BelowLimit(allocations, corpus, age);
    if Round2(Sum(allocations)) == 100.0 || eligible == {} then allocations
    else
      var addEach := (100.0 - Sum(allocations)) / |eligible| as real;
      map k | k in allocations ::
        if k in eligible then Min(GetAllocationMaxPct(k, corpus, age), allocations[k] + addEach)
        else allocations[k]
  }

  /**
   When it acts: instruments at or over their limit are untouched, and each
   of the others gains an equal share of the gap, cut back to its limit.
   */
  lemma RebalanceAllocationsTo100Entries(allocations: map<string, real>, corpus: real, age: Option<int>)
    requires Round2(Sum(allocations)) != 100.0
    requires BelowLimit(allocations, corpus, age) != {}
    ensures var r := RebalanceAllocationsTo100(allocations, corpus, age);
            var eligible := BelowLimit(allocations, corpus, age);
            && (forall k | k in allocations && k !in eligible :: r[k] == allocations[k])
            && (forall k | k in eligible ::
                  r[k] == Min(GetAllocationMaxPct(k, corpus, age),
                              allocations[k] + (100.0 - Sum(allocations)) / |eligible| as real))
            && (forall k | k in eligible :: r[k] <= GetAllocationMaxPct(k, corpus, age))
  {
    var r := RebalanceAllocationsTo100(allocations, corpus, age);
    var eligible := BelowLimit(allocations, corpus, age);
    var addEach := (100.0 - Sum(allocations)) / |eligible| as real;
    forall k | k in allocations
      ensures r[k] == if k in eligible then Min(GetAllocationMaxPct(k, corpus, age), allocations[k] + addEach)
                      else allocations[k]
    {
    }
  }

  /** When no receiving instrument reaches its limit, the total becomes exactly 100. */
  lemma RebalanceAllocationsTo100Total(allocations: map<string, real>, corpus: real, age: Option<int>)
    requires Round2(Sum(allocations)) != 100.0
    requires BelowLimit(allocations, corpus, age) != {}
    requires forall k | k in BelowLimit(allocations, corpus, age) ::
               allocations[k] + (100.0 - Sum(allocations)) / |BelowLimit(allocations, corpus, age)| as real
               <= GetAllocationMaxPct(k, corpus, age)
    ensures Sum(RebalanceAllocationsTo100(allocations, corpus, age)) == 100.0
  {
    var eligible := BelowLimit(allocations, corpus, age);
    var gap := 100.0 - Sum(allocations);
    SumSpread(allocations, eligible, gap, RebalanceAllocationsTo100(allocations, corpus, age));
  }

  // ---------------------------------------------------------------------
  // apply_age_based_default_allocation and the stage rules
  // ---------------------------------------------------------------------

  /** `scenario["allocations"]`: a TypeError on a non-dict and a KeyError without allocations. */
  function AllocationsOf(scenario: Scenario): (r: Result<map<string, real>>)
    ensures r.Ok? <==> scenario.Dict? && scenario.allocations.Some?
    ensures r.Ok? ==> r.value == scenario.allocations.value
  {
    if scenario.NotADict? then Err(TypeError)
    else if scenario.allocations.None? then Err(KeyError("allocations"))
    else Ok(scenario.allocations.value)
  }

  /**
   The allocation `apply_age_based_default_allocation` builds below 60, before
   it is stored, given the POMIS ceiling as a percentage.
   */
  function AgeBasedAllocation(alloc: map<string, real>, pomisMax: real): map<string, real> {
    var others := alloc - {"SCSS", "POMIS"};
    var t := Sum(others);
    var totalOther := if t == 0.0 then 1.0 else t;
    Scale(others, (100.0 - pomisMax) / totalOther)["SCSS" := 0.0]["POMIS" := pomisMax]
  }

  /**
   `apply_age_based_default_allocation(scenario, total_corpus, age)`: from 60
   on (or without an age) nothing changes; below 60 SCSS goes to 0, POMIS to
   its ceiling, and the rest is rescaled into what POMIS leaves.
   */
  function ApplyAgeBasedDefaultAllocation(scenario: Scenario, corpus: real, age: Option<int>)
    : (r: Result<Scenario>)
    ensures age.None? || age.value >= 60 ==> r == Ok(scenario)
    ensures age.Some? && age.value < 60 ==>
              (r.Ok? <==> AllocationsOf(scenario).Ok?)
              && (r.Ok? ==> r.value == scenario.(allocations :=
                                Some(AgeBasedAllocation(scenario.allocations.value,
                                                        GetAllocationMaxPct("POMIS", corpus, age)))))
  {
    if age.None? || age.value >= 60 then Ok(scenario)
    else
      match AllocationsOf(scenario)
      case Err(e) => Err(e)
      case Ok(alloc) =>
        Ok(scenario.(allocations := Some(AgeBasedAllocation(alloc, GetAllocationMaxPct("POMIS", corpus, age)))))
  }

  /** Below 60: SCSS 0, POMIS at its ceiling, and the others fill the rest so that the total is exactly 100. */
  lemma AgeBasedAllocationSpec(alloc: map<string, real>, pomisMax: real)
    requires Sum(alloc - {"SCSS", "POMIS"}) != 0.0
    ensures var r := AgeBasedAllocation(alloc, pomisMax);
            && r.Keys == alloc.Keys + {"SCSS", "POMIS"}
            && r["SCSS"] == 0.0
            && r["POMIS"] == pomisMax
            && Sum(r) == 100.0
  {
    var others := alloc - {"SCSS", "POMIS"};
    var t := Sum(others);
    var scaled := Scale(others, (100.0 - pomisMax) / t);
    assert AgeBasedAllocation(alloc, pomisMax) == scaled["SCSS" := 0.0]["POMIS" := pomisMax];
    ScaleToTarget(others, 100.0 - pomisMax, t);
    assert "SCSS" !in scaled && "POMIS" !in scaled;
    SumInsert(scaled, "SCSS", 0.0);
    SumInsert(scaled["SCSS" := 0.0], "POMIS", pomisMax);
  }

  /** Whatever the other total: every key is kept, SCSS and POMIS are added, SCSS is 0 and POMIS at its ceiling. */
  lemma AgeBasedAllocationShape(alloc: map<string, real>, pomisMax: real)
    ensures var r := AgeBasedAllocation(alloc, pomisMax);
            && r.Keys == alloc.Keys + {"SCSS", "POMIS"}
            && r["SCSS"] == 0.0
            && r["POMIS"] == pomisMax
  {
  }

  /** The others keep their ratios, each getting the share `remaining * v` of their total (product form). */
  lemma AgeBasedAllocationShares(alloc: map<string, real>, pomisMax: real, j: string, k: string,
                                 remaining: real, otherTotal: real)
    requires j in alloc && k in alloc && j !in {"SCSS", "POMIS"} && k !in {"SCSS", "POMIS"}
    requires remaining == 100.0 - pomisMax && otherTotal == Sum(alloc - {"SCSS", "POMIS"}) && otherTotal != 0.0
    ensures var r := AgeBasedAllocation(alloc, pomisMax);
            && r[k] * otherTotal == remaining * alloc[k]
            && r[j] * alloc[k] == r[k] * alloc[j]
  {
    AgeBasedFactor(alloc, pomisMax);
    AgeScaledShares(alloc, pomisMax, AgeBasedAllocation(alloc, pomisMax), j, k, remaining, otherTotal);
  }

  /** With a non-zero other total, the others are scaled by `(100 - pomisMax) / other total`. */
  lemma AgeBasedFactor(alloc: map<string, real>, pomisMax: real)
    requires Sum(alloc - {"SCSS", "POMIS"}) != 0.0
    ensures AgeBasedAllocation(alloc, pomisMax)
            == Scale(alloc - {"SCSS", "POMIS"}, (100.0 - pomisMax) / Sum(alloc - {"SCSS", "POMIS"}))
                 ["SCSS" := 0.0]["POMIS" := pomisMax]
  {
  }

  lemma AgeScaledShares(alloc: map<string, real>, pomisMax: real, r: map<string, real>,
                        j: string, k: string, remaining: real, otherTotal: real)
    requires j in alloc && k in alloc && j !in {"SCSS", "POMIS"} && k !in {"SCSS", "POMIS"} && otherTotal != 0.0
    requires r == Scale(alloc - {"SCSS", "POMIS"}, remaining / otherTotal)["SCSS" := 0.0]["POMIS" := pomisMax]
    ensures r[k] * otherTotal == remaining * alloc[k]
    ensures r[j] * alloc[k] == r[k] * alloc[j]
  {
    var f := remaining / otherTotal;
    assert r[j] == alloc[j] * f && r[k] == alloc[k] * f;
    SharePair(r[j], r[k], alloc[j], alloc[k], f, otherTotal, remaining);
  }

  /**
   `enforce_stage_investment_rules(scenario, stage, age)`: SCSS is set to 0
   for an ineligible age and in the "early" and "mid" stages; nothing else changes.
   */
  function EnforceStageInvestmentRules(scenario: Scenario, stage: string, age: Option<int>)
    : (r: Result<Scenario>)
    ensures r.Ok? <==> AllocationsOf(scenario).Ok?
  {
    match AllocationsOf(scenario)
    case Err(e) => Err(e)
    case Ok(alloc) =>
      if ScssIneligible(age) || stage == "early" || stage == "mid" then
        Ok(scenario.(allocations := Some(alloc["SCSS" := 0.0])))
      else Ok(scenario)
  }

  /** SCSS ends at 0 exactly when one of the rules applies or it already was; other entries never move. */
  lemma EnforceStageRulesSpec(scenario: Scenario, stage: string, age: Option<int>)
    requires AllocationsOf(scenario).Ok?
    ensures var before := scenario.allocations.value;
            var r := EnforceStageInvestmentRules(scenario, stage, age).value;
            var after := r.allocations.value;
            && r.rates == scenario.rates && r.incomeSources == scenario.incomeSources
            && (ScssIneligible(age) || stage in {"early", "mid"} ==> "SCSS" in after && after["SCSS"] == 0.0)
            && (!ScssIneligible(age) && stage !in {"early", "mid"} ==> after == before)
            && (forall k | k in before && k != "SCSS" :: k in after && after[k] == before[k])
  {
  }

  /** Applying the stage rules twice is the same as applying them once. */
  lemma EnforceStageRulesIdempotent(scenario: Scenario, stage: string, age: Option<int>)
    requires AllocationsOf(scenario).Ok?
    ensures var once := EnforceStageInvestmentRules(scenario, stage, age).value;
            EnforceStageInvestmentRules(once, stage, age) == Ok(once)
  {
    var once := EnforceStageInvestmentRules(scenario, stage, age).value;
    if ScssIneligible(age) || stage == "early" || stage == "mid" {
      var a := once.allocations.value;
      assert a["SCSS" := 0.0] == a;
    }
  }
}
