/**
 `apply_scenario_diff` (ui/scenario_engine.py): a copy of the base data with
 the `"input"` of every field in the diff set to the diff's value.
 */
module ScenarioEngine {
  import opened Common

  /**
   `apply_scenario_diff(base_data, diff)`. The copy makes the caller's data
   untouched, which values give for free. Setting `"input"` on an existing
   field that is not a dictionary is a TypeError.
   */
  function ApplyScenarioDiff(baseData: map<string, Value>, diff: map<string, Value>)
    : (r: Result<map<string, Value>>)
    ensures r.Ok? <==> forall f | f in diff && f in baseData :: baseData[f].VDict?
    ensures r.Ok? ==> r.value.Keys == baseData.Keys + diff.Keys
    ensures r.Ok? ==> forall f | f in diff :: r.value[f].VDict? && "input" in r.value[f].d
                                             && r.value[f].d["input"] == diff[f]
    ensures r.Ok? ==> forall f | f in baseData && f !in diff :: r.value[f] == baseData[f]
  {
    if exists f | f in diff && f in baseData :: !baseData[f].VDict? then Err(TypeError)
    else Ok(map f | f in baseData.Keys + diff.Keys ::
              if f !in diff then baseData[f]
              else if f in baseData then VDict(baseData[f].d["input" := diff[f]])
              else Wrap(diff[f]))
  }

  /**
   A new field is exactly `{"input": value}`; an existing one keeps every
   other sub-key it had.
   */
  lemma ScenarioDiffFieldShape(baseData: map<string, Value>, diff: map<string, Value>, f: string)
    requires ApplyScenarioDiff(baseData, diff).Ok?
    requires f in diff
    ensures var r := ApplyScenarioDiff(baseData, diff).value;
            && (f !in baseData ==> r[f] == Wrap(diff[f]))
            && (f in baseData ==> r[f].d.Keys == baseData[f].d.Keys + {"input"}
                                  && forall j | j in baseData[f].d && j != "input" :: r[f].d[j] == baseData[f].d[j])
  {
  }

  /** Applying the same diff twice is the same as applying it once. */
  lemma ScenarioDiffIdempotent(baseData: map<string, Value>, diff: map<string, Value>)
    requires ApplyScenarioDiff(baseData, diff).Ok?
    ensures var r := ApplyScenarioDiff(baseData, diff).value;
            ApplyScenarioDiff(r, diff) == Ok(r)
  {
    var r := ApplyScenarioDiff(baseData, diff).value;
    assert ApplyScenarioDiff(r, diff).Ok?;
    var r2 := ApplyScenarioDiff(r, diff).value;
    forall f | f in r ensures r2[f] == r[f] {
      if f in diff {
        assert r[f].d["input" := diff[f]] == r[f].d;
        assert r[f] == VDict(r[f].d);
      }
    }
    assert r2.Keys == r.Keys;
    assert r2 == r;
  }

  /** An empty diff gives back the base data. */
  lemma ScenarioDiffEmpty(baseData: map<string, Value>)
    ensures ApplyScenarioDiff(baseData, map[]) == Ok(baseData)
  {
    var r := ApplyScenarioDiff(baseData, map[]).value;
    assert r.Keys == baseData.Keys;
    assert r == baseData;
  }
}
