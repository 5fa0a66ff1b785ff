/**
 The life-stage helpers of ui/investment_plan.py (`_get_life_stage`,
 `get_visible_income_sources`) and the allocation edit handler
 `allocation_changed`, taken out of its widget callback as a pure function
 of the current allocation, the edited instrument, its new value, the age
 and the two ceilings as percentages.
 */
module AllocationEdit {
  import opened Common
  import opened InstrumentCaps

  // ---------------------------------------------------------------------
  // _get_life_stage
  // ---------------------------------------------------------------------

  /** The stage for a numeric age: under 35 "early", under 55 "mid", otherwise "retirement". */
  function StageOfAge(age: real): (r: string)
    ensures r in {"early", "mid", "retirement"}
  {
    if age < 35.0 then "early"
    else if age < 55.0 then "mid"
    else "retirement"
  }

  /** The position of a stage along a life: early, mid, retirement. */
  function StageRank(stage: string): nat {
    if stage == "early" then 0 else if stage == "mid" then 1 else 2
  }

  /**
   `_get_life_stage(user_data)`: the age is `user_data.get("GLAge", {}).get("input", 35)`.
   A non-dict GLAge entry has no `.get` (AttributeError) and an age that is
   not a number cannot be compared with 35 (TypeError).
   */
  function LifeStage(userData: map<string, Value>): (r: Result<string>)
    ensures "GLAge" !in userData ==> r == Ok("mid")
    ensures "GLAge" in userData && !userData["GLAge"].VDict? ==> r == Err(AttributeError)
    ensures r.Ok? ==> r.value in {"early", "mid", "retirement"}
  {
    var entry := GetOr(userData, "GLAge", VDict(map[]));
    if !entry.VDict? then Err(AttributeError)
    else
      var age := GetOr(entry.d, "input", VNum(35.0));
      match AsNumber(age)
      case None => Err(TypeError)
      case Some(a) => Ok(StageOfAge(a))
  }

  /** An older age never maps to an earlier stage. */
  lemma StageMonotone(a: real, b: real)
    requires a <= b
    ensures StageRank(StageOfAge(a)) <= StageRank(StageOfAge(b))
  {
  }

  /** The thresholds: "early" exactly below 35, "retirement" exactly from 55 on. */
  lemma StageThresholds(a: real)
    ensures StageOfAge(a) == "early" <==> a < 35.0
    ensures StageOfAge(a) == "mid" <==> 35.0 <= a < 55.0
    ensures StageOfAge(a) == "retirement" <==> a >= 55.0
  {
  }

  /** A numeric age in the profile decides the stage; anything else in its place is an error. */
  lemma LifeStageOfProfile(userData: map<string, Value>, age: Value)
    requires "GLAge" in userData && userData["GLAge"] == Wrap(age)
    ensures AsNumber(age).Some? ==> LifeStage(userData) == Ok(StageOfAge(AsNumber(age).value))
    ensures AsNumber(age).None? ==> LifeStage(userData) == Err(TypeError)
  {
  }

  // ---------------------------------------------------------------------
  // get_visible_income_sources
  // ---------------------------------------------------------------------

  /** `[k for k in s if k not in banned]`: the order-preserving filter. */
  function Without(s: seq<string>, banned: set<string>): (r: seq<string>)
    ensures forall x :: x in r <==> x in s && x !in banned
    ensures |r| <= |s|
    ensures (forall i | 0 <= i < |s| :: s[i] !in banned) ==> r == s
  {
    if |s| == 0 then []
    else if s[0] in banned then Without(s[1..], banned)
    else [s[0]] + Without(s[1..], banned)
  }

  /** The filter keeps the order of the list: its result is a subsequence. */
  lemma {:induction false} WithoutIsSubsequence(s: seq<string>, banned: set<string>)
    ensures IsSubsequence(Without(s, banned), s)
    decreases |s|
  {
    if |s| > 0 {
      WithoutIsSubsequence(s[1..], banned);
      if s[0] !in banned {
        assert Without(s, banned)[1..] == Without(s[1..], banned);
      }
    }
  }

  /** The per-country income sources before any stage rule. */
  function IncomeSourcesOf(country: string): Option<seq<string>> {
    if country == "IN" then Some(["rental", "pension", "annuity", "dividends", "other"])
    else if country == "US" then Some(["social_security", "rental", "pension", "annuity", "dividends", "other"])
    else if country == "UK" then Some(["rental", "pension", "annuity", "dividends", "other"])
    else None
  }

  /**
   `get_visible_income_sources(stage, country)`: the country's list, without
   pension and annuity in the "early" stage and without pension in "mid".
   An unknown country is a KeyError.
   */
  function VisibleIncomeSources(stage: string, country: string): (r: Result<seq<string>>)
    ensures IncomeSourcesOf(country).None? <==> r == Err(KeyError(country))
    ensures r.Ok? ==> forall x :: x in r.value <==>
                        x in IncomeSourcesOf(country).value
                        && !(stage == "early" && x in {"pension", "annuity"})
                        && !(stage == "mid" && x == "pension")
  {
    match IncomeSourcesOf(country)
    case None => Err(KeyError(country))
    case Some(base) =>
      if stage == "early" then Ok(Without(base, {"pension", "annuity"}))
      else if stage == "mid" then Ok(Without(base, {"pension"}))
      else Ok(base)
  }

  /** Later stages see more: early's sources are among mid's, and mid's among retirement's. */
  lemma VisibleSourcesGrow(country: string, x: string)
    requires IncomeSourcesOf(country).Some?
    ensures x in VisibleIncomeSources("early", country).value ==> x in VisibleIncomeSources("mid", country).value
    ensures x in VisibleIncomeSources("mid", country).value ==> x in VisibleIncomeSources("retirement", country).value
  {
  }

  /** Every visible list keeps the order of the country's list. */
  lemma VisibleSourcesOrdered(stage: string, country: string)
    requires IncomeSourcesOf(country).Some?
    ensures IsSubsequence(VisibleIncomeSources(stage, country).value, IncomeSourcesOf(country).value)
  {
    var base := IncomeSourcesOf(country).value;
    if stage == "early" {
      WithoutIsSubsequence(base, {"pension", "annuity"});
    } else if stage == "mid" {
      WithoutIsSubsequence(base, {"pension"});
    } else {
      WithoutIsSubsequence(base, {});
    }
  }

  // ---------------------------------------------------------------------
  // allocation_changed
  // ---------------------------------------------------------------------

  /**
   One ceiling of the edit handler: an entry whose `.get(key, 0)` exceeds
   `cap` is cut to it and the excess added to SWP at once. Reading the entry
   is a KeyError when only the default exceeded the cap, and adding to SWP
   is a KeyError without an SWP entry.
   */
  function MoveToSwp(alloc: map<string, real>, key: string, cap: real): (r: Result<map<string, real>>)
    requires key != "SWP"
    ensures GetReal(alloc, key, 0.0) <= cap ==> r == Ok(alloc)
    ensures GetReal(alloc, key, 0.0) > cap && key !in alloc ==> r == Err(KeyError(key))
    ensures GetReal(alloc, key, 0.0) > cap && key in alloc && "SWP" !in alloc ==> r == Err(KeyError("SWP"))
    ensures r.Ok? ==> r.value.Keys == alloc.Keys
    ensures r.Ok? && key in alloc ==> r.value[key] == Min(alloc[key], cap)
    ensures r.Ok? ==> forall k | k in alloc && k != key && k != "SWP" :: r.value[k] == alloc[k]
  {
    if GetReal(alloc, key, 0.0) <= cap then Ok(alloc)
    else if key !in alloc then Err(KeyError(key))
    else if "SWP" !in alloc then Err(KeyError("SWP"))
    else Ok(alloc[key := cap]["SWP" := alloc["SWP"] + (alloc[key] - cap)])
  }

  /** Moving the excess to SWP loses nothing: SWP gains exactly what the entry lost and the total stays. */
  lemma MoveToSwpConserves(alloc: map<string, real>, key: string, cap: real)
    requires key != "SWP" && MoveToSwp(alloc, key, cap).Ok?
    ensures var r := MoveToSwp(alloc, key, cap).value;
            && Sum(r) == Sum(alloc)
            && ("SWP" in alloc && key in alloc ==> r["SWP"] - alloc["SWP"] == alloc[key] - r[key])
  {
    if GetReal(alloc, key, 0.0) > cap {
      MoveExcess(alloc, key, cap);
    }
  }

  lemma MoveExcess(alloc: map<string, real>, key: string, cap: real)
    requires key != "SWP" && key in alloc && "SWP" in alloc
    ensures var r := alloc[key := cap]["SWP" := alloc["SWP"] + (alloc[key] - cap)];
            && Sum(r) == Sum(alloc)
            && r["SWP"] - alloc["SWP"] == alloc[key] - r[key]
  {
    SumTransfer(alloc, key, "SWP", cap, alloc["SWP"] + (alloc[key] - cap));
  }

  /** The edited value written into the state, then SCSS zeroed for an ineligible age. */
  function EditedState(current: map<string, real>, inst: string, newValue: real, age: Option<int>)
    : (r: map<string, real>)
    ensures r.Keys == current.Keys + {inst} + (if ScssIneligible(age) then {"SCSS"} else {})
    ensures ScssIneligible(age) ==> r["SCSS"] == 0.0
    ensures inst != "SCSS" || !ScssIneligible(age) ==> r[inst] == newValue
    ensures forall k | k in current && k != inst && k != "SCSS" :: r[k] == current[k]
  {
    var a := current[inst := newValue];
    if ScssIneligible(age) then a["SCSS" := 0.0] else a
  }

  /** The first pass of the handler: the edit, the eligibility rule and both ceilings, surplus to SWP. */
  function FirstPass(current: map<string, real>, inst: string, newValue: real, age: Option<int>,
                     scssCap: real, pomisCap: real): (r: Result<map<string, real>>)
    ensures r.Ok? ==> r.value.Keys == EditedState(current, inst, newValue, age).Keys
  {
    match MoveToSwp(EditedState(current, inst, newValue, age), "SCSS", scssCap)
    case Err(e) => Err(e)
    case Ok(a) => MoveToSwp(a, "POMIS", pomisCap)
  }

  /** The final pass: SCSS zeroed again for an ineligible age, then both entries clipped to their ceilings. */
  function FinalPass(alloc: map<string, real>, age: Option<int>, scssCap: real, pomisCap: real)
    : (r: Result<map<string, real>>)
    ensures r.Ok? <==> "POMIS" in alloc && ("SCSS" in alloc || ScssIneligible(age))
    ensures r.Ok? ==> r.value.Keys == alloc.Keys + (if ScssIneligible(age) then {"SCSS"} else {})
    ensures r.Ok? ==> r.value["SCSS"] <= scssCap && r.value["POMIS"] <= pomisCap
    ensures r.Ok? && ScssIneligible(age) ==> r.value["SCSS"] == Min(0.0, scssCap)
    ensures r.Ok? && !ScssIneligible(age) ==> r.value["SCSS"] == Min(alloc["SCSS"], scssCap)
    ensures r.Ok? ==> r.value["POMIS"] == Min(alloc["POMIS"], pomisCap)
    ensures r.Ok? ==> forall k | k in alloc && k != "SCSS" && k != "POMIS" :: r.value[k] == alloc[k]
  {
    var a := if ScssIneligible(age) then alloc["SCSS" := 0.0] else alloc;
    if "SCSS" !in a then Err(KeyError("SCSS"))
    else
      var b := a["SCSS" := Min(a["SCSS"], scssCap)];
      if "POMIS" !in b then Err(KeyError("POMIS"))
      else Ok(b["POMIS" := Min(b["POMIS"], pomisCap)])
  }

  /**
   `allocation_changed(inst)`: the new value is written, the first pass moves
   any excess over the ceilings to SWP, `redistribute_remaining` rescales the
   others around the edited instrument, and the final pass re-applies the
   age rule and clips SCSS and POMIS.
   */
  function AllocationChanged(current: map<string, real>, inst: string, newValue: real, age: Option<int>,
                             scssCap: real, pomisCap: real): (r: Result<map<string, real>>)
    ensures r.Ok? ==> "SCSS" in r.value && r.value["SCSS"] <= scssCap
    ensures r.Ok? ==> "POMIS" in r.value && r.value["POMIS"] <= pomisCap
    ensures r.Ok? && ScssIneligible(age) && scssCap >= 0.0 ==> r.value["SCSS"] == 0.0
    ensures r.Ok? ==> r.value.Keys == EditedState(current, inst, newValue, age).Keys
  {
    match FirstPass(current, inst, newValue, age, scssCap, pomisCap)
    case Err(e) => Err(e)
    case Ok(a) =>
      match RedistributeRemaining(a, inst)
      case Err(e) => Err(e)
      case Ok(b) => FinalPass(b, age, scssCap, pomisCap)
  }

  /**
   What the handler ends with: POMIS (and SCSS for an eligible age) is the
   redistributed value clipped to its ceiling, and every other entry is the
   redistributed one.
   */
  lemma AllocationChangedFinal(current: map<string, real>, inst: string, newValue: real, age: Option<int>,
                               scssCap: real, pomisCap: real)
    requires AllocationChanged(current, inst, newValue, age, scssCap, pomisCap).Ok?
    ensures FirstPass(current, inst, newValue, age, scssCap, pomisCap).Ok?
    ensures var a := FirstPass(current, inst, newValue, age, scssCap, pomisCap).value;
            RedistributeRemaining(a, inst).Ok?
    ensures var a := FirstPass(current, inst, newValue, age, scssCap, pomisCap).value;
            var b := RedistributeRemaining(a, inst).value;
            var r := AllocationChanged(current, inst, newValue, age, scssCap, pomisCap).value;
            && "POMIS" in b && r["POMIS"] == Min(b["POMIS"], pomisCap)
            && (!ScssIneligible(age) ==> "SCSS" in b && r["SCSS"] == Min(b["SCSS"], scssCap))
            && (forall k | k in b && k != "SCSS" && k != "POMIS" :: r[k] == b[k])
  {
    var a := FirstPass(current, inst, newValue, age, scssCap, pomisCap).value;
    var b := RedistributeRemaining(a, inst).value;
    assert AllocationChanged(current, inst, newValue, age, scssCap, pomisCap) == FinalPass(b, age, scssCap, pomisCap);
  }

  /** With SWP, SCSS and POMIS all present the handler never raises. */
  lemma AllocationChangedSucceeds(current: map<string, real>, inst: string, newValue: real, age: Option<int>,
                                  scssCap: real, pomisCap: real)
    requires "SWP" in current && "SCSS" in current && "POMIS" in current
    ensures AllocationChanged(current, inst, newValue, age, scssCap, pomisCap).Ok?
  {
    var e := EditedState(current, inst, newValue, age);
    assert "SWP" in e && "SCSS" in e && "POMIS" in e;
    var a1 := MoveToSwp(e, "SCSS", scssCap);
    assert a1.Ok?;
    var a2 := MoveToSwp(a1.value, "POMIS", pomisCap);
    assert a2.Ok?;
  }

  /** Without SCSS (for an eligible age) the final clip raises a KeyError for SCSS. */
  lemma AllocationChangedNeedsScss(current: map<string, real>, inst: string, newValue: real, age: Option<int>,
                                   scssCap: real, pomisCap: real)
    requires !ScssIneligible(age) && "SCSS" !in current && inst != "SCSS"
    requires "SWP" in current && scssCap >= 0.0
    requires "POMIS" in current || pomisCap >= 0.0
    ensures AllocationChanged(current, inst, newValue, age, scssCap, pomisCap) == Err(KeyError("SCSS"))
  {
    var e := EditedState(current, inst, newValue, age);
    assert "SCSS" !in e && GetReal(e, "SCSS", 0.0) == 0.0;
    var a := FirstPass(current, inst, newValue, age, scssCap, pomisCap);
    assert a.Ok? && "SCSS" !in a.value;
  }

  /** The first pass conserves the total: whatever the ceilings cut off is now on SWP. */
  lemma FirstPassConserves(current: map<string, real>, inst: string, newValue: real, age: Option<int>,
                           scssCap: real, pomisCap: real)
    requires FirstPass(current, inst, newValue, age, scssCap, pomisCap).Ok?
    ensures Sum(FirstPass(current, inst, newValue, age, scssCap, pomisCap).value)
            == Sum(EditedState(current, inst, newValue, age))
  {
    var e := EditedState(current, inst, newValue, age);
    var a := MoveToSwp(e, "SCSS", scssCap).value;
    MoveToSwpConserves(e, "SCSS", scssCap);
    MoveToSwpConserves(a, "POMIS", pomisCap);
  }

  /** After the first pass SCSS and POMIS are within their ceilings, and nothing but SWP, SCSS and POMIS moved. */
  lemma FirstPassCaps(current: map<string, real>, inst: string, newValue: real, age: Option<int>,
                      scssCap: real, pomisCap: real)
    requires FirstPass(current, inst, newValue, age, scssCap, pomisCap).Ok?
    ensures var e := EditedState(current, inst, newValue, age);
            var r := FirstPass(current, inst, newValue, age, scssCap, pomisCap).value;
            && ("SCSS" in e ==> r["SCSS"] <= scssCap && r["SCSS"] <= e["SCSS"])
            && ("POMIS" in e ==> r["POMIS"] <= pomisCap)
            && (forall k | k in e && k !in {"SWP", "SCSS", "POMIS"} :: r[k] == e[k])
  {
  }

  /** An edited instrument other than SWP, SCSS and POMIS ends exactly at the value typed in. */
  lemma AllocationChangedKeepsEdit(current: map<string, real>, inst: string, newValue: real, age: Option<int>,
                                   scssCap: real, pomisCap: real)
    requires inst !in {"SWP", "SCSS", "POMIS"}
    ensures var r := AllocationChanged(current, inst, newValue, age, scssCap, pomisCap);
            r.Ok? ==> r.value[inst] == newValue
  {
    if AllocationChanged(current, inst, newValue, age, scssCap, pomisCap).Ok? {
      var a := FirstPass(current, inst, newValue, age, scssCap, pomisCap).value;
      FirstPassCaps(current, inst, newValue, age, scssCap, pomisCap);
      assert a[inst] == newValue;
    }
  }
}
