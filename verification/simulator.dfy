/**
 Config-driven hydration of the user profile (ui/simulator.py):
 `hydrate_defaults_from_config`, `apply_defaults_from_config` with its
 nested `set_default`, and the third default-scenario table
 `default_investment_scenario`.

 The profile and its nested dictionaries are `Value`s. Each loop over the
 config becomes a sequence of `Write`s folded into a dictionary; the three
 folds are `set_default` (`Store`), plain assignment and
 `if key not in d` assignment (`Put`).
 */
module Simulator {
  import opened Common
  import PlanScenarios
  import AllocationEdit

  // ---------------------------------------------------------------------
  // Writes and the loops that apply them
  // ---------------------------------------------------------------------

  /** One `container[key] = value` the loop may perform. */
  datatype Write = Write(key: string, value: Value)

  /** The keys a sequence of writes touches. */
  function WKeys(w: seq<Write>): set<string> {
    set i | 0 <= i < |w| :: w[i].key
  }

  /** The value of the last write to `k`: the one that remains after all are applied. */
  function LastValue(w: seq<Write>, k: string): Value
    requires k in WKeys(w)
  {
    if w[|w| - 1].key == k then w[|w| - 1].value
    else
      assert k in WKeys(w[..|w| - 1]) by {
        var i :| 0 <= i < |w| && w[i].key == k;
        assert i < |w| - 1 && w[..|w| - 1][i] == w[i];
      }
      LastValue(w[..|w| - 1], k)
  }

  /** The position of the first write to `k`; every earlier write is to another key. */
  function FirstIndex(w: seq<Write>, k: string): (i: nat)
    requires k in WKeys(w)
    ensures i < |w| && w[i].key == k
    ensures forall j | 0 <= j < i :: w[j].key != k
    decreases |w|
  {
    if w[0].key == k then 0
    else
      assert k in WKeys(w[1..]) by {
        var i :| 0 <= i < |w| && w[i].key == k;
        assert i > 0 && w[1..][i - 1] == w[i];
      }
      var i := FirstIndex(w[1..], k);
      assert forall j | 1 <= j <= i :: w[j] == w[1..][j - 1];
      1 + i
  }

  /** The value of the first write to `k`: the one `setdefault` keeps. */
  function FirstValue(w: seq<Write>, k: string): Value
    requires k in WKeys(w)
  {
    w[FirstIndex(w, k)].value
  }

  /** Dropping the last write leaves the first write to every key still written where it was. */
  lemma FirstValuePrefix(w: seq<Write>, k: string)
    requires |w| > 0 && k in WKeys(w)
    ensures k in WKeys(w[..|w| - 1]) ==> FirstValue(w, k) == FirstValue(w[..|w| - 1], k)
    ensures k !in WKeys(w[..|w| - 1]) ==> w[|w| - 1].key == k && FirstValue(w, k) == w[|w| - 1].value
  {
    var p := w[..|w| - 1];
    var i := FirstIndex(w, k);
    if k in WKeys(p) {
      var ip := FirstIndex(p, k);
      assert w[ip] == p[ip];
    }
  }

  /** A write put in front is the first write to its own key and hides nothing else. */
  lemma FirstValueCons(x: Write, rest: seq<Write>, k: string)
    requires k in WKeys([x] + rest)
    ensures x.key == k ==> FirstValue([x] + rest, k) == x.value
    ensures x.key != k ==> k in WKeys(rest) && FirstValue([x] + rest, k) == FirstValue(rest, k)
  {
    var s := [x] + rest;
    assert s[0] == x && s[1..] == rest;
  }

  /** A write put in front is the last write to its key only when the rest never writes it. */
  lemma {:induction false} LastValueCons(x: Write, rest: seq<Write>, k: string)
    requires k in WKeys([x] + rest)
    ensures k in WKeys(rest) ==> LastValue([x] + rest, k) == LastValue(rest, k)
    ensures k !in WKeys(rest) ==> x.key == k && LastValue([x] + rest, k) == x.value
    decreases |rest|
  {
    var s := [x] + rest;
    WKeysCons(x, rest);
    if |rest| == 0 {
      assert s == [x];
    } else {
      var p := rest[..|rest| - 1];
      assert s[|s| - 1] == rest[|rest| - 1];
      assert s[..|s| - 1] == [x] + p;
      WKeysPrefix(rest);
      if rest[|rest| - 1].key != k {
        WKeysCons(x, p);
        LastValueCons(x, p, k);
      }
    }
  }

  lemma WKeysPrefix(w: seq<Write>)
    requires |w| > 0
    ensures WKeys(w) == WKeys(w[..|w| - 1]) + {w[|w| - 1].key}
  {
    var p := w[..|w| - 1];
    forall k | k in WKeys(w) ensures k in WKeys(p) + {w[|w| - 1].key} {
      var i :| 0 <= i < |w| && w[i].key == k;
      if i < |w| - 1 { assert p[i] == w[i]; }
    }
    forall k | k in WKeys(p) ensures k in WKeys(w) {
      var i :| 0 <= i < |p| && p[i].key == k;
      assert w[i] == p[i];
    }
  }

  /**
   The loop `for (key, value) in w: if overwrite or key not in d: d[key] = value`.
   With `overwrite` it is plain assignment; without it, Python's `setdefault`.
   */
  function Put(c: map<string, Value>, w: seq<Write>, overwrite: bool): map<string, Value>
  {
    if |w| == 0 then c
    else
      var p := Put(c, w[..|w| - 1], overwrite);
      var last := w[|w| - 1];
      if overwrite || last.key !in p then p[last.key := last.value] else p
  }

  /**
   What `Put` leaves: the old keys plus the written ones; with `overwrite`
   each written key holds its last value, without it nothing old changes;
   keys never written keep their values.
   */
  lemma {:induction false} PutSpec(c: map<string, Value>, w: seq<Write>, overwrite: bool)
    ensures Put(c, w, overwrite).Keys == c.Keys + WKeys(w)
    ensures forall k | k in c && k !in WKeys(w) :: Put(c, w, overwrite)[k] == c[k]
    ensures overwrite ==> forall k | k in WKeys(w) :: Put(c, w, overwrite)[k] == LastValue(w, k)
    ensures !overwrite ==> forall k | k in c :: Put(c, w, overwrite)[k] == c[k]
    ensures !overwrite ==> forall k | k in WKeys(w) && k !in c :: Put(c, w, overwrite)[k] == FirstValue(w, k)
    decreases |w|
  {
    if |w| > 0 {
      PutSpec(c, w[..|w| - 1], overwrite);
      WKeysPrefix(w);
      if !overwrite {
        forall k | k in WKeys(w) && k !in c
          ensures Put(c, w, overwrite)[k] == FirstValue(w, k)
        {
          FirstValuePrefix(w, k);
        }
      }
    }
  }

  /** A dictionary that already holds what the writes would leave is a fixed point of `Put`. */
  lemma PutStable(x: map<string, Value>, w: seq<Write>, overwrite: bool)
    requires overwrite ==> forall k | k in WKeys(w) :: k in x && x[k] == LastValue(w, k)
    requires !overwrite ==> WKeys(w) <= x.Keys
    ensures Put(x, w, overwrite) == x
  {
    PutSpec(x, w, overwrite);
  }

  /** Applying the same writes twice is the same as applying them once. */
  lemma PutIdempotent(c: map<string, Value>, w: seq<Write>, overwrite: bool)
    ensures Put(Put(c, w, overwrite), w, overwrite) == Put(c, w, overwrite)
  {
    PutSpec(c, w, overwrite);
    PutStable(Put(c, w, overwrite), w, overwrite);
  }

  /**
   `set_default(container, key, value)`: with `force` always write; else
   write a missing key, keep an existing dict that has "input", and replace
   an existing value only when it equals None, "" or 0.
   */
  function SetDefault(c: map<string, Value>, key: string, value: Value, force: bool): (r: map<string, Value>)
    ensures r.Keys == c.Keys + {key}
    ensures forall k | k in c && k != key :: r[k] == c[k]
    ensures force || key !in c ==> r[key] == value
    ensures !force && key in c && c[key].VDict? && "input" in c[key].d ==> r[key] == c[key]
    ensures !force && key in c && !IsBlank(c[key]) ==> r[key] == c[key]
    ensures !force && key in c && IsBlank(c[key]) ==> r[key] == value
  {
    if force then c[key := value]
    else if key !in c then c[key := value]
    else
      var existing := c[key];
      if existing.VDict? && "input" in existing.d then c
      else if IsBlank(existing) then c[key := value]
      else c
  }

  /** The loop `for (key, value) in w: set_default(c, key, value)`. */
  function Store(c: map<string, Value>, w: seq<Write>, force: bool): map<string, Value>
  {
    if |w| == 0 then c
    else SetDefault(Store(c, w[..|w| - 1], force), w[|w| - 1].key, w[|w| - 1].value, force)
  }

  /** Every value a write would store is one `set_default` later keeps. */
  predicate NonBlankWrites(w: seq<Write>) {
    forall i | 0 <= i < |w| :: !IsBlank(w[i].value)
  }

  /** With `force` the `set_default` loop is plain assignment. */
  lemma {:induction false} StoreForced(c: map<string, Value>, w: seq<Write>)
    ensures Store(c, w, true) == Put(c, w, true)
    decreases |w|
  {
    if |w| > 0 {
      StoreForced(c, w[..|w| - 1]);
    }
  }

  /**
   Without `force` the `set_default` loop keeps every non-blank value, touches
   no key it does not write, and leaves every written key non-blank when the
   written values are.
   */
  lemma {:induction false} StoreSpec(c: map<string, Value>, w: seq<Write>)
    ensures Store(c, w, false).Keys == c.Keys + WKeys(w)
    ensures forall k | k in c && k !in WKeys(w) :: Store(c, w, false)[k] == c[k]
    ensures forall k | k in c && !IsBlank(c[k]) :: Store(c, w, false)[k] == c[k]
    ensures NonBlankWrites(w) ==> forall k | k in WKeys(w) :: !IsBlank(Store(c, w, false)[k])
    ensures NonBlankWrites(w) ==>
              forall k | k in WKeys(w) && (k !in c || IsBlank(c[k])) :: Store(c, w, false)[k] == FirstValue(w, k)
    decreases |w|
  {
    if |w| > 0 {
      var p := w[..|w| - 1];
      StoreSpec(c, p);
      WKeysPrefix(w);
      if NonBlankWrites(w) {
        assert NonBlankWrites(p) by {
          forall i | 0 <= i < |p| ensures !IsBlank(p[i].value) { assert p[i] == w[i]; }
        }
        forall k | k in WKeys(w) && (k !in c || IsBlank(c[k]))
          ensures Store(c, w, false)[k] == FirstValue(w, k)
        {
          FirstValuePrefix(w, k);
        }
      }
    }
  }

  /** A dictionary whose written keys are all present and non-blank is a fixed point of the loop. */
  lemma {:induction false} StoreStable(x: map<string, Value>, w: seq<Write>)
    requires forall k | k in WKeys(w) :: k in x && !IsBlank(x[k])
    ensures Store(x, w, false) == x
    decreases |w|
  {
    if |w| > 0 {
      WKeysPrefix(w);
      StoreStable(x, w[..|w| - 1]);
    }
  }

  /** What `Store` leaves behind is what a second run of the same loop finds already settled. */
  predicate Settled(x: map<string, Value>, w: seq<Write>, force: bool) {
    if force then forall k | k in WKeys(w) :: k in x && x[k] == LastValue(w, k)
    else forall k | k in WKeys(w) :: k in x && !IsBlank(x[k])
  }

  lemma StoreSettles(c: map<string, Value>, w: seq<Write>, force: bool)
    requires !force ==> NonBlankWrites(w)
    ensures Settled(Store(c, w, force), w, force)
  {
    if force {
      StoreForced(c, w);
      PutSpec(c, w, true);
    } else {
      StoreSpec(c, w);
    }
  }

  lemma StoreSettledStable(x: map<string, Value>, w: seq<Write>, force: bool)
    requires Settled(x, w, force)
    ensures Store(x, w, force) == x
  {
    if force {
      StoreForced(x, w);
      PutStable(x, w, true);
    } else {
      StoreStable(x, w);
    }
  }

  /** Running the `set_default` loop twice is the same as running it once. */
  lemma StoreIdempotent(c: map<string, Value>, w: seq<Write>, force: bool)
    requires !force ==> NonBlankWrites(w)
    ensures Store(Store(c, w, force), w, force) == Store(c, w, force)
  {
    StoreSettles(c, w, force);
    StoreSettledStable(Store(c, w, force), w, force);
  }

  // ---------------------------------------------------------------------
  // The config
  // ---------------------------------------------------------------------

  /**
   One config row: `field.get("Field Name")` and `field.get("Field Default Value")`,
   `None` standing for a missing entry.
   */
  datatype ConfigField = ConfigField(name: Option<string>, default: Option<Value>)

  /** The four lists of the config; a missing list is empty (`config.get(section, [])`). */
  datatype Config = Config(
    baseData: seq<ConfigField>,
    onetime: seq<ConfigField>,
    recurring: seq<ConfigField>,
    investmentPlan: seq<ConfigField>)

  /** `if not fname: continue` skips a missing or empty name. */
  predicate Named(f: ConfigField) {
    f.name.Some? && f.name.value != ""
  }

  /** The names of the rows the loops do not skip. */
  function NamedKeys(fs: seq<ConfigField>): set<string>
    decreases |fs|
  {
    if |fs| == 0 then {}
    else (if Named(fs[0]) then {fs[0].name.value} else {}) + NamedKeys(fs[1..])
  }

  /** The first row named `k`: the one a `setdefault`-style loop keeps. */
  function FirstRow(fs: seq<ConfigField>, k: string): (f: ConfigField)
    requires k in NamedKeys(fs)
    ensures Named(f) && f.name.value == k
    decreases |fs|
  {
    if Named(fs[0]) && fs[0].name.value == k then fs[0] else FirstRow(fs[1..], k)
  }

  /** The last row named `k`: the one a forced loop leaves behind. */
  function LastRow(fs: seq<ConfigField>, k: string): (f: ConfigField)
    requires k in NamedKeys(fs)
    ensures Named(f) && f.name.value == k
    decreases |fs|
  {
    if k in NamedKeys(fs[1..]) then LastRow(fs[1..], k) else fs[0]
  }

  /** How a default is stored: `{"input": default}` or, for recurring expenses, `{"monthly": default}`. */
  datatype Shape = Input | Monthly

  function Shaped(shape: Shape, v: Value): (r: Value)
    ensures r.VDict? && !IsBlank(r)
  {
    match shape
    case Input => Wrap(v)
    case Monthly => VDict(map["monthly" := v])
  }

  lemma WKeysCons(w: Write, rest: seq<Write>)
    ensures WKeys([w] + rest) == {w.key} + WKeys(rest)
  {
    var s := [w] + rest;
    assert s[0] == w;
    forall k | k in WKeys(s) ensures k in {w.key} + WKeys(rest) {
      var i :| 0 <= i < |s| && s[i].key == k;
      if i == 0 { assert s[0] == w; } else { assert s[i] == rest[i - 1]; }
    }
    forall k | k in WKeys(rest) ensures k in WKeys(s) {
      var i :| 0 <= i < |rest| && rest[i].key == k;
      assert s[i + 1] == rest[i];
    }
  }

  /**
   The writes of one config loop: every named row whose name is not in
   `skip`, in config order, with `missing` standing in for an absent default.
   */
  function Writes(fs: seq<ConfigField>, missing: Value, shape: Shape, skip: set<string>): (r: seq<Write>)
    ensures WKeys(r) == NamedKeys(fs) - skip
    ensures NonBlankWrites(r)
    ensures forall i | 0 <= i < |r| :: r[i].value.VDict?
    ensures shape == Input ==> forall i | 0 <= i < |r| :: "input" in r[i].value.d
    ensures forall k | k in WKeys(r) :: FirstValue(r, k) == Shaped(shape, FirstRow(fs, k).default.GetOr(missing))
    ensures forall k | k in WKeys(r) :: LastValue(r, k) == Shaped(shape, LastRow(fs, k).default.GetOr(missing))
    decreases |fs|
  {
    if |fs| == 0 then []
    else
      var rest := Writes(fs[1..], missing, shape, skip);
      var f := fs[0];
      if !Named(f) || f.name.value in skip then rest
      else
        var x := Write(f.name.value, Shaped(shape, f.default.GetOr(missing)));
        WKeysCons(x, rest);
        assert forall k | k in WKeys([x] + rest) ::
                 && FirstValue([x] + rest, k) == Shaped(shape, FirstRow(fs, k).default.GetOr(missing))
                 && LastValue([x] + rest, k) == Shaped(shape, LastRow(fs, k).default.GetOr(missing)) by {
          forall k | k in WKeys([x] + rest)
            ensures FirstValue([x] + rest, k) == Shaped(shape, FirstRow(fs, k).default.GetOr(missing))
            ensures LastValue([x] + rest, k) == Shaped(shape, LastRow(fs, k).default.GetOr(missing))
          {
            FirstValueCons(x, rest, k);
            LastValueCons(x, rest, k);
          }
        }
        [x] + rest
  }

  // ---------------------------------------------------------------------
  // hydrate_defaults_from_config
  // ---------------------------------------------------------------------

  /**
   `hydrate_defaults_from_config(user_data, config)`: every named row whose
   name is missing from the profile is added as `{"input": default}`.
   */
  function HydrateDefaultsFromConfig(userData: map<string, Value>, config: seq<ConfigField>)
    : (r: map<string, Value>)
    ensures r.Keys == userData.Keys + NamedKeys(config)
    ensures forall k | k in userData :: r[k] == userData[k]
    ensures forall k | k in r && k !in userData :: r[k].VDict? && "input" in r[k].d
    ensures forall k | k in NamedKeys(config) && k !in userData :: r[k] == Wrap(FirstRow(config, k).default.GetOr(VNone))
  {
    var w := Writes(config, VNone, Input, {});
    PutSpec(userData, w, false);
    Put(userData, w, false)
  }

  /** Hydrating twice is the same as hydrating once. */
  lemma HydrateIdempotent(userData: map<string, Value>, config: seq<ConfigField>)
    ensures HydrateDefaultsFromConfig(HydrateDefaultsFromConfig(userData, config), config)
            == HydrateDefaultsFromConfig(userData, config)
  {
    PutIdempotent(userData, Writes(config, VNone, Input, {}), false);
  }

  /** The `set_default` loop, forced or not, adds the written keys and touches no other. */
  lemma {:induction false} StoreFrame(c: map<string, Value>, w: seq<Write>, force: bool)
    ensures Store(c, w, force).Keys == c.Keys + WKeys(w)
    ensures forall k | k in c && k !in WKeys(w) :: Store(c, w, force)[k] == c[k]
  {
    if force {
      StoreForced(c, w);
      PutSpec(c, w, true);
    } else {
      StoreSpec(c, w);
    }
  }

  // ---------------------------------------------------------------------
  // apply_defaults_from_config, phase by phase
  // ---------------------------------------------------------------------

  /** The base-data loop: every named row except `GLProjectionYears`, as `{"input": default}`. */
  function BaseWrites(fs: seq<ConfigField>): seq<Write> {
    Writes(fs, VNone, Input, {"GLProjectionYears"})
  }

  /** The one-time loop: `{"input": default}` with 0 for a missing default. */
  function OnetimeWrites(fs: seq<ConfigField>): seq<Write> {
    Writes(fs, VNum(0.0), Input, {})
  }

  /** The recurring loop: `{"monthly": default}` with 0 for a missing default. */
  function RecurringWrites(fs: seq<ConfigField>): seq<Write> {
    Writes(fs, VNum(0.0), Monthly, {})
  }

  /**
   `setdefault("onetime_expenses", {})`, then `set_default` of every one-time
   row into it. A container that is not a dictionary fails on the first write.
   */
  function OnetimePhase(u: map<string, Value>, ws: seq<Write>, force: bool): (r: Result<map<string, Value>>)
    ensures r.Ok? <==> |ws| == 0 || "onetime_expenses" !in u || u["onetime_expenses"].VDict?
    ensures r.Ok? ==> Frame(u, r.value, "onetime_expenses")
  {
    var u1 := SetDefaultKey(u, "onetime_expenses", VDict(map[]));
    if |ws| == 0 then Ok(u1)
    else if !u1["onetime_expenses"].VDict? then Err(TypeError)
    else Ok(u1["onetime_expenses" := VDict(Store(u1["onetime_expenses"].d, ws, force))])
  }

  /**
   `setdefault("recurring_expenses", {})`, `setdefault(country, {})` on it, then
   every recurring row written into the country's bucket when `force` or when
   the bucket lacks it. With `force` each written amount holds its last row's
   default; without it, an amount the bucket lacked holds its first row's.
   */
  function RecurringPhase(u: map<string, Value>, country: Value, ws: seq<Write>, force: bool)
    : (r: Result<map<string, Value>>)
    ensures r.Ok? ==> Frame(u, r.value, "recurring_expenses")
    ensures r.Ok? ==> r.value["recurring_expenses"].VDict? && country.VStr?
                      && country.s in r.value["recurring_expenses"].d
    ensures "recurring_expenses" in u && !u["recurring_expenses"].VDict? ==> r == Err(AttributeError)
    ensures var rec := GetOr(u, "recurring_expenses", VDict(map[]));
            r.Ok? <==> rec.VDict? && country.VStr? && (|ws| == 0 || country.s !in rec.d || rec.d[country.s].VDict?)
    ensures r.Ok? && |ws| > 0 ==>
              var before := BucketBefore(u, country);
              var b := r.value["recurring_expenses"].d[country.s];
              && b.VDict? && b.d.Keys == before.Keys + WKeys(ws)
              && (forall k | k in before && k !in WKeys(ws) :: b.d[k] == before[k])
              && (force ==> forall k | k in WKeys(ws) :: b.d[k] == LastValue(ws, k))
              && (!force ==> forall k | k in before :: b.d[k] == before[k])
              && (!force ==> forall k | k in WKeys(ws) && k !in before :: b.d[k] == FirstValue(ws, k))
  {
    var u1 := SetDefaultKey(u, "recurring_expenses", VDict(map[]));
    var rec := u1["recurring_expenses"];
    if !rec.VDict? then Err(AttributeError)
    else if !country.VStr? then Err(TypeError)
    else
      var rec1 := SetDefaultKey(rec.d, country.s, VDict(map[]));
      var bucket := rec1[country.s];
      if |ws| == 0 then Ok(u1["recurring_expenses" := VDict(rec1)])
      else if !bucket.VDict? then Err(TypeError)
      else
        PutSpec(bucket.d, ws, force);
        Ok(u1["recurring_expenses" := VDict(rec1[country.s := VDict(Put(bucket.d, ws, force))])])
  }

  /** The country's recurring bucket before the phase; empty when there is none to read. */
  function BucketBefore(u: map<string, Value>, country: Value): map<string, Value> {
    if "recurring_expenses" in u && u["recurring_expenses"].VDict? && country.VStr?
       && country.s in u["recurring_expenses"].d && u["recurring_expenses"].d[country.s].VDict?
    then u["recurring_expenses"].d[country.s].d
    else map[]
  }

  /** Only the current country's bucket changes; the others are as they were. */
  lemma RecurringOtherCountries(u: map<string, Value>, country: Value, ws: seq<Write>, force: bool)
    requires RecurringPhase(u, country, ws, force).Ok?
    requires "recurring_expenses" in u
    ensures var rec := u["recurring_expenses"];
            var rec2 := RecurringPhase(u, country, ws, force).value["recurring_expenses"];
            && rec.VDict? && rec2.VDict? && rec2.d.Keys == rec.d.Keys + {country.s}
            && forall k | k in rec.d && k != country.s :: rec2.d[k] == rec.d[k]
  {
  }

  /** Without `force` a recurring amount already in the bucket is never replaced. */
  lemma RecurringKeepsEntered(u: map<string, Value>, country: Value, ws: seq<Write>)
    requires RecurringPhase(u, country, ws, false).Ok?
    requires "recurring_expenses" in u && u["recurring_expenses"].VDict? && country.VStr?
    requires country.s in u["recurring_expenses"].d && u["recurring_expenses"].d[country.s].VDict?
    ensures var old_ := u["recurring_expenses"].d[country.s].d;
            var new_ := RecurringPhase(u, country, ws, false).value["recurring_expenses"].d[country.s];
            && new_.VDict? && new_.d.Keys == old_.Keys + WKeys(ws)
            && forall k | k in old_ :: new_.d[k] == old_[k]
  {
    PutSpec(u["recurring_expenses"].d[country.s].d, ws, false);
  }

  // ----- The investment plan -----

  /** The three sections of a scenario the plan rows fill. */
  const Sections: set<string> := {"allocations", "rates", "income_sources"}

  /** The Base scenario the plan phase creates. */
  const EmptyBase: Value :=
    VDict(map["allocations" := VDict(map[]), "rates" := VDict(map[]), "income_sources" := VDict(map[])])

  /** `base_scenario[section].setdefault(key, value)`. */
  datatype SectionWrite = SectionWrite(section: string, key: string, value: Value)

  predicate StartsWith(s: string, prefix: string) {
    |prefix| <= |s| && s[..|prefix|] == prefix
  }

  /** `p` occurs in `s` at position `i`. */
  predicate OccursAt(p: string, s: string, i: int) {
    0 <= i && i + |p| <= |s| && s[i..i + |p|] == p
  }

  /** `p` occurs somewhere in `s`. */
  predicate Occurs(p: string, s: string) {
    exists i | 0 <= i <= |s| :: OccursAt(p, s, i)
  }

  /** Python's `s.replace(p, "")`: every non-overlapping occurrence, scanned left to right, removed. */
  function ReplaceAll(s: string, p: string): (r: string)
    requires |p| > 0
    ensures |r| <= |s|
    decreases |s|
  {
    if |s| < |p| then s
    else if s[..|p|] == p then ReplaceAll(s[|p|..], p)
    else [s[0]] + ReplaceAll(s[1..], p)
  }

  /** A string without an occurrence of `p` is left as it is. */
  lemma {:induction false} ReplaceAllAbsent(s: string, p: string)
    requires |p| > 0 && !Occurs(p, s)
    ensures ReplaceAll(s, p) == s
    decreases |s|
  {
    if |s| >= |p| {
      if s[..|p|] == p {
        assert OccursAt(p, s, 0);
        assert false;
      }
      assert !Occurs(p, s[1..]) by {
        forall i | OccursAt(p, s[1..], i) ensures OccursAt(p, s, i + 1) {
          assert s[1..][i..i + |p|] == s[i + 1..i + 1 + |p|];
        }
      }
      ReplaceAllAbsent(s[1..], p);
      assert [s[0]] + s[1..] == s;
    }
  }

  /** The prefix is stripped from a name whose rest does not contain it again. */
  lemma ReplaceAllPrefix(p: string, t: string)
    requires |p| > 0 && !Occurs(p, t)
    ensures ReplaceAll(p + t, p) == t
  {
    var s := p + t;
    assert s[..|p|] == p;
    assert s[|p|..] == t;
    ReplaceAllAbsent(t, p);
  }

  /**
   The plan loop: a named row starting with `ALLOC_`, `RATE_` or `INCOME_`
   (matched in that order) goes to allocations, rates or income sources under
   its name with that prefix removed; other rows are ignored.
   */
  function PlanWrites(fs: seq<ConfigField>): (r: seq<SectionWrite>)
    ensures forall i | 0 <= i < |r| :: r[i].section in Sections
    decreases |fs|
  {
    if |fs| == 0 then []
    else
      var rest := PlanWrites(fs[1..]);
      var f := fs[0];
      if !Named(f) then rest
      else
        var name := f.name.value;
        var v := f.default.GetOr(VNone);
        if StartsWith(name, "ALLOC_") then [SectionWrite("allocations", ReplaceAll(name, "ALLOC_"), v)] + rest
        else if StartsWith(name, "RATE_") then [SectionWrite("rates", ReplaceAll(name, "RATE_"), v)] + rest
        else if StartsWith(name, "INCOME_") then [SectionWrite("income_sources", ReplaceAll(name, "INCOME_"), v)] + rest
        else rest
  }

  /**
   The section loop on the Base scenario: the scenario must be a dictionary,
   the section must exist (else KeyError) and be a dictionary (else
   `setdefault` raises AttributeError).
   */
  function SectionWrites(base: Value, ws: seq<SectionWrite>): (r: Result<Value>)
    ensures !base.VDict? ==> (r.Ok? <==> |ws| == 0)
    ensures r.Ok? && base.VDict? ==> r.value.VDict? && r.value.d.Keys == base.d.Keys
    ensures r.Err? ==> r.error == TypeError || r.error == AttributeError
                       || exists i | 0 <= i < |ws| :: r.error == KeyError(ws[i].section)
    decreases |ws|
  {
    if |ws| == 0 then Ok(base)
    else if !base.VDict? then Err(TypeError)
    else
      var w := ws[0];
      if w.section !in base.d then Err(KeyError(w.section))
      else
        var sec := base.d[w.section];
        if !sec.VDict? then Err(AttributeError)
        else SectionWrites(VDict(base.d[w.section := VDict(SetDefaultKey(sec.d, w.key, w.value))]), ws[1..])
  }

  /** Every written key sits in its section. */
  predicate SectionsHold(b: Value, ws: seq<SectionWrite>) {
    b.VDict? && forall i | 0 <= i < |ws| ::
      ws[i].section in b.d && b.d[ws[i].section].VDict? && ws[i].key in b.d[ws[i].section].d
  }

  /** `b2` is `b1` with keys only added to its dictionary entries. */
  predicate Keeps(b1: map<string, Value>, b2: map<string, Value>) {
    && b2.Keys == b1.Keys
    && (forall s | s in b1 && !b1[s].VDict? :: b2[s] == b1[s])
    && (forall s | s in b1 && b1[s].VDict? ::
          b2[s].VDict? && forall k | k in b1[s].d :: k in b2[s].d && b2[s].d[k] == b1[s].d[k])
  }

  /**
   The section loop only adds keys (`setdefault` never replaces) and, when it
   succeeds, leaves every written key in its section.
   */
  lemma {:induction false} SectionWritesSpec(b: Value, ws: seq<SectionWrite>)
    requires SectionWrites(b, ws).Ok?
    ensures !b.VDict? ==> |ws| == 0 && SectionWrites(b, ws).value == b
    ensures b.VDict? ==> SectionWrites(b, ws).value.VDict?
                         && Keeps(b.d, SectionWrites(b, ws).value.d)
                         && SectionsHold(SectionWrites(b, ws).value, ws)
    decreases |ws|
  {
    if |ws| > 0 {
      var w := ws[0];
      var sec := b.d[w.section];
      var b1 := VDict(b.d[w.section := VDict(SetDefaultKey(sec.d, w.key, w.value))]);
      SectionWritesSpec(b1, ws[1..]);
      var r := SectionWrites(b1, ws[1..]).value;
      assert SectionWrites(b, ws).value == r;
      forall i | 0 <= i < |ws|
        ensures ws[i].section in r.d && r.d[ws[i].section].VDict? && ws[i].key in r.d[ws[i].section].d
      {
        if i > 0 { assert ws[i] == ws[1..][i - 1]; }
      }
    }
  }

  /** A Base scenario that already holds every written key is left as it is. */
  lemma {:induction false} SectionWritesStable(b: Value, ws: seq<SectionWrite>)
    requires SectionsHold(b, ws)
    ensures SectionWrites(b, ws) == Ok(b)
    decreases |ws|
  {
    if |ws| > 0 {
      var w := ws[0];
      assert w.key in b.d[w.section].d;
      assert b.d[w.section := VDict(b.d[w.section].d)] == b.d;
      assert SectionsHold(b, ws[1..]) by {
        forall i | 0 <= i < |ws[1..]|
          ensures ws[1..][i].section in b.d && b.d[ws[1..][i].section].VDict? && ws[1..][i].key in b.d[ws[1..][i].section].d
        {
          assert ws[1..][i] == ws[i + 1];
        }
      }
      SectionWritesStable(b, ws[1..]);
    }
  }

  /** On a scenario whose written sections all exist as dictionaries the loop cannot fail. */
  lemma {:induction false} SectionWritesTotal(b: Value, ws: seq<SectionWrite>)
    requires b.VDict?
    requires forall i | 0 <= i < |ws| :: ws[i].section in b.d && b.d[ws[i].section].VDict?
    ensures SectionWrites(b, ws).Ok?
    decreases |ws|
  {
    if |ws| > 0 {
      var w := ws[0];
      var b1 := VDict(b.d[w.section := VDict(SetDefaultKey(b.d[w.section].d, w.key, w.value))]);
      forall i | 0 <= i < |ws[1..]| ensures ws[1..][i].section in b1.d && b1.d[ws[1..][i].section].VDict? {
        assert ws[1..][i] == ws[i + 1];
      }
      SectionWritesTotal(b1, ws[1..]);
    }
  }

  /** A scenario marked as not yet synchronised with the engine. */
  predicate AllSynced(s: map<string, Value>) {
    forall k | k in s :: s[k].VDict? && "_engine_synced" in s[k].d && s[k].d["_engine_synced"] == VBool(false)
  }

  /** `for sc in scenarios.values(): sc["_engine_synced"] = False`. */
  function SyncAll(s: map<string, Value>): (r: Result<map<string, Value>>)
    ensures r.Ok? <==> forall k | k in s :: s[k].VDict?
    ensures r.Ok? ==> r.value.Keys == s.Keys && AllSynced(r.value)
    ensures r.Ok? ==> forall k | k in s ::
              r.value[k].d.Keys == s[k].d.Keys + {"_engine_synced"}
              && forall j | j in s[k].d && j != "_engine_synced" :: r.value[k].d[j] == s[k].d[j]
  {
    if exists k | k in s :: !s[k].VDict? then Err(TypeError)
    else Ok(map k | k in s :: VDict(s[k].d["_engine_synced" := VBool(false)]))
  }

  lemma SyncStable(s: map<string, Value>)
    requires AllSynced(s)
    ensures SyncAll(s) == Ok(s)
  {
    assert SyncAll(s).Ok?;
    var r := SyncAll(s).value;
    forall k | k in s ensures r[k] == s[k] {
      assert s[k].d["_engine_synced" := VBool(false)] == s[k].d;
      assert s[k] == VDict(s[k].d);
    }
    assert r.Keys == s.Keys;
    assert r == s;
  }

  /**
   The plan phase on the (possibly reset) plan: `setdefault` of
   `active_scenario` and `scenarios`, the Base scenario (re)created when
   missing or forced, the section writes, then every scenario marked unsynced.
   */
  function PlanValue(plan: Value, ws: seq<SectionWrite>, force: bool): (r: Result<Value>)
    ensures !plan.VDict? ==> r == Err(AttributeError)
    ensures r.Ok? ==> r.value.VDict? && r.value.d.Keys == plan.d.Keys + {"active_scenario", "scenarios"}
    ensures r.Ok? && "active_scenario" in plan.d ==> r.value.d["active_scenario"] == plan.d["active_scenario"]
  {
    if !plan.VDict? then Err(AttributeError)
    else
      var p1 := SetDefaultKey(SetDefaultKey(plan.d, "active_scenario", VStr("Base")), "scenarios", VDict(map[]));
      var sc := p1["scenarios"];
      if !sc.VDict? then Err(TypeError)
      else
        var s1 := if "Base" !in sc.d || force then sc.d["Base" := EmptyBase] else sc.d;
        match SectionWrites(s1["Base"], ws)
        case Err(e) => Err(e)
        case Ok(base) =>
          match SyncAll(s1["Base" := base])
          case Err(e) => Err(e)
          case Ok(s3) => Ok(VDict(p1["scenarios" := VDict(s3)]))
  }

  /** `investment_plan` reset to `{}` when missing or forced, then `PlanValue`. */
  function PlanPhase(u: map<string, Value>, ws: seq<SectionWrite>, force: bool): (r: Result<map<string, Value>>)
    ensures r.Ok? ==> Frame(u, r.value, "investment_plan")
  {
    var plan := if "investment_plan" !in u || force then VDict(map[]) else u["investment_plan"];
    match PlanValue(plan, ws, force)
    case Err(e) => Err(e)
    case Ok(p) => Ok(u["investment_plan" := p])
  }

  /** What a successful plan phase leaves: the scenario keys present, every written key in Base, every scenario unsynced. */
  predicate PlanSettled(p: Value, ws: seq<SectionWrite>) {
    && p.VDict? && "active_scenario" in p.d && "scenarios" in p.d && p.d["scenarios"].VDict?
    && "Base" in p.d["scenarios"].d
    && SectionsHold(p.d["scenarios"].d["Base"], ws)
    && AllSynced(p.d["scenarios"].d)
  }

  lemma PlanValueSettles(plan: Value, ws: seq<SectionWrite>, force: bool)
    requires forall i | 0 <= i < |ws| :: ws[i].section in Sections
    requires PlanValue(plan, ws, force).Ok?
    ensures PlanSettled(PlanValue(plan, ws, force).value, ws)
  {
    var p1 := SetDefaultKey(SetDefaultKey(plan.d, "active_scenario", VStr("Base")), "scenarios", VDict(map[]));
    var sc := p1["scenarios"];
    var s1 := if "Base" !in sc.d || force then sc.d["Base" := EmptyBase] else sc.d;
    var b := s1["Base"];
    SectionWritesSpec(b, ws);
    var base := SectionWrites(b, ws).value;
    var s2 := s1["Base" := base];
    assert SyncAll(s2).Ok?;
    var s3 := SyncAll(s2).value;
    assert s2["Base"].VDict?;
    var nb := s3["Base"];
    SyncKeyOutsideSections();
    forall i | 0 <= i < |ws|
      ensures ws[i].section in nb.d && nb.d[ws[i].section].VDict? && ws[i].key in nb.d[ws[i].section].d
    {
      var sec := ws[i].section;
      assert sec in Sections && sec != "_engine_synced";
      assert nb.d[sec] == base.d[sec];
    }
  }

  lemma SyncKeyOutsideSections()
    ensures "_engine_synced" !in Sections
  {
    assert "_engine_synced"[0] == '_';
    assert "allocations"[0] == 'a' && "rates"[0] == 'r' && "income_sources"[0] == 'i';
  }

  /** A plan that is already settled is left as it is (without `force`). */
  lemma PlanValueStable(p: Value, ws: seq<SectionWrite>)
    requires PlanSettled(p, ws)
    ensures PlanValue(p, ws, false) == Ok(p)
  {
    var sc := p.d["scenarios"];
    SectionWritesStable(sc.d["Base"], ws);
    assert sc.d["Base" := sc.d["Base"]] == sc.d;
    SyncStable(sc.d);
    assert p.d["scenarios" := VDict(sc.d)] == p.d;
  }

  /** With `force` the plan phase cannot fail and yields the same plan whatever the profile held. */
  lemma PlanPhaseForced(u: map<string, Value>, ws: seq<SectionWrite>)
    requires forall i | 0 <= i < |ws| :: ws[i].section in Sections
    ensures PlanPhase(u, ws, true).Ok?
    ensures PlanPhase(u, ws, true).value["investment_plan"] == PlanValue(VDict(map[]), ws, true).value
  {
    SectionWritesTotal(EmptyBase, ws);
    SectionWritesSpec(EmptyBase, ws);
  }

  /** Without `force`, allocations, rates and income sources already in Base keep their values. */
  lemma PlanKeepsEntered(plan: Value, ws: seq<SectionWrite>)
    requires PlanValue(plan, ws, false).Ok?
    requires plan.VDict? && "scenarios" in plan.d && plan.d["scenarios"].VDict?
    requires "Base" in plan.d["scenarios"].d
    ensures var p := PlanValue(plan, ws, false).value;
            && plan.d["scenarios"].d["Base"].VDict?
            && p.VDict? && "scenarios" in p.d && p.d["scenarios"].VDict? && "Base" in p.d["scenarios"].d
            && p.d["scenarios"].d["Base"].VDict?
    ensures var b := plan.d["scenarios"].d["Base"].d;
            var nb := PlanValue(plan, ws, false).value.d["scenarios"].d["Base"].d;
            forall s, k | s in b && b[s].VDict? && k in b[s].d && s != "_engine_synced" ::
              s in nb && nb[s].VDict? && k in nb[s].d && nb[s].d[k] == b[s].d[k]
  {
    var sc := plan.d["scenarios"];
    var b := sc.d["Base"];
    var base := SectionWrites(b, ws).value;
    var s2 := sc.d["Base" := base];
    assert SyncAll(s2).Ok?;
    assert s2["Base"].VDict?;
    SectionWritesSpec(b, ws);
  }

  // ---------------------------------------------------------------------
  // apply_defaults_from_config
  // ---------------------------------------------------------------------

  /** The profile keys the phases after the base-data loop own. */
  const PhaseKeys: set<string> :=
    {"onetime_expenses", "recurring_expenses", "investment_plan", "_defaults_applied"}

  /**
   `apply_defaults_from_config(user_data, config, force=force)`: the country
   is read first (default "IN"), then the base-data, one-time, recurring and
   plan phases run in order and `_defaults_applied` is set when missing.
   */
  function ApplyDefaultsFromConfig(userData: map<string, Value>, config: Config, force: bool)
    : (r: Result<map<string, Value>>)
    ensures r.Ok? ==> userData.Keys + PhaseKeys <= r.value.Keys
    ensures r.Ok? ==> r.value.Keys == userData.Keys + WKeys(BaseWrites(config.baseData)) + PhaseKeys
  {
    var country := GetOr(userData, "country", VStr("IN"));
    var u1 := Store(userData, BaseWrites(config.baseData), force);
    StoreFrame(userData, BaseWrites(config.baseData), force);
    match OnetimePhase(u1, OnetimeWrites(config.onetime), force)
    case Err(e) => Err(e)
    case Ok(u2) =>
      match RecurringPhase(u2, country, RecurringWrites(config.recurring), force)
      case Err(e) => Err(e)
      case Ok(u3) =>
        match PlanPhase(u3, PlanWrites(config.investmentPlan), force)
        case Err(e) => Err(e)
        case Ok(u4) =>
          PhaseChainKeys(u1, u2, u3, u4);
          Ok(SetDefaultKey(u4, "_defaults_applied", VBool(true)))
  }

  lemma PhaseChainKeys(u1: map<string, Value>, u2: map<string, Value>, u3: map<string, Value>, u4: map<string, Value>)
    requires Frame(u1, u2, "onetime_expenses") && Frame(u2, u3, "recurring_expenses")
    requires Frame(u3, u4, "investment_plan")
    ensures SetDefaultKey(u4, "_defaults_applied", VBool(true)).Keys == u1.Keys + PhaseKeys
  {
  }

  /** The intermediate profiles of a successful run, named for the lemmas below. */
  datatype Run = Run(
    country: Value,
    afterBase: map<string, Value>,
    afterOnetime: map<string, Value>,
    afterRecurring: map<string, Value>,
    afterPlan: map<string, Value>)

  /** A successful run, phase by phase. */
  predicate RunOf(userData: map<string, Value>, config: Config, force: bool, run: Run) {
    && run.country == GetOr(userData, "country", VStr("IN"))
    && run.afterBase == Store(userData, BaseWrites(config.baseData), force)
    && OnetimePhase(run.afterBase, OnetimeWrites(config.onetime), force) == Ok(run.afterOnetime)
    && RecurringPhase(run.afterOnetime, run.country, RecurringWrites(config.recurring), force) == Ok(run.afterRecurring)
    && PlanPhase(run.afterRecurring, PlanWrites(config.investmentPlan), force) == Ok(run.afterPlan)
  }

  /** A successful call is a successful run of the four phases followed by the marker. */
  lemma ApplyDefaultsRun(userData: map<string, Value>, config: Config, force: bool)
    ensures ApplyDefaultsFromConfig(userData, config, force).Ok? ==>
              exists run :: (RunOf(userData, config, force, run)
                             && ApplyDefaultsFromConfig(userData, config, force).value
                                == SetDefaultKey(run.afterPlan, "_defaults_applied", VBool(true)))
  {
    if ApplyDefaultsFromConfig(userData, config, force).Ok? {
      var country := GetOr(userData, "country", VStr("IN"));
      var u1 := Store(userData, BaseWrites(config.baseData), force);
      var u2 := OnetimePhase(u1, OnetimeWrites(config.onetime), force).value;
      var u3 := RecurringPhase(u2, country, RecurringWrites(config.recurring), force).value;
      var u4 := PlanPhase(u3, PlanWrites(config.investmentPlan), force).value;
      var run := Run(country, u1, u2, u3, u4);
      assert RunOf(userData, config, force, run);
    }
  }

  /** The base-data loop never writes `GLProjectionYears`: Base Data owns it. */
  lemma ApplyDefaultsKeepsProjectionYears(userData: map<string, Value>, config: Config, force: bool)
    ensures var r := ApplyDefaultsFromConfig(userData, config, force);
            r.Ok? ==> var r := r.value;
              && ("GLProjectionYears" in r <==> "GLProjectionYears" in userData)
              && ("GLProjectionYears" in userData ==> r["GLProjectionYears"] == userData["GLProjectionYears"])
  {
    if ApplyDefaultsFromConfig(userData, config, force).Ok? {
      var country := GetOr(userData, "country", VStr("IN"));
      var u1 := Store(userData, BaseWrites(config.baseData), force);
      var u2 := OnetimePhase(u1, OnetimeWrites(config.onetime), force).value;
      var u3 := RecurringPhase(u2, country, RecurringWrites(config.recurring), force).value;
      var u4 := PlanPhase(u3, PlanWrites(config.investmentPlan), force).value;
      var r := SetDefaultKey(u4, "_defaults_applied", VBool(true));
      assert ApplyDefaultsFromConfig(userData, config, force).value == r;
      ChainSameOutside(u1, u2, u3, u4);
      StoreFrame(userData, BaseWrites(config.baseData), force);
      assert "GLProjectionYears" !in WKeys(BaseWrites(config.baseData));
      ProjectionYearsOutsidePhases();
      assert "GLProjectionYears" in r <==> "GLProjectionYears" in u1;
    }
  }

  /**
   The value a base-data row leaves in the profile: `{"input": default}` of
   the last row with that name when forced; without `force`, of the first
   such row when the profile had no value or a blank one. A name a later
   phase owns is left to that phase.
   */
  lemma ApplyDefaultsBaseValues(userData: map<string, Value>, config: Config, force: bool, k: string)
    requires k in NamedKeys(config.baseData) && k != "GLProjectionYears" && k !in PhaseKeys
    ensures var r := ApplyDefaultsFromConfig(userData, config, force);
            r.Ok? ==>
              && (force ==> r.value[k] == Wrap(LastRow(config.baseData, k).default.GetOr(VNone)))
              && (!force && (k !in userData || IsBlank(userData[k])) ==>
                    r.value[k] == Wrap(FirstRow(config.baseData, k).default.GetOr(VNone)))
  {
    if ApplyDefaultsFromConfig(userData, config, force).Ok? {
      var bw := BaseWrites(config.baseData);
      var country := GetOr(userData, "country", VStr("IN"));
      var u1 := Store(userData, bw, force);
      var u2 := OnetimePhase(u1, OnetimeWrites(config.onetime), force).value;
      var u3 := RecurringPhase(u2, country, RecurringWrites(config.recurring), force).value;
      var u4 := PlanPhase(u3, PlanWrites(config.investmentPlan), force).value;
      var r := SetDefaultKey(u4, "_defaults_applied", VBool(true));
      assert ApplyDefaultsFromConfig(userData, config, force).value == r;
      ChainSameOutside(u1, u2, u3, u4);
      assert k in WKeys(bw);
      StoreFrame(userData, bw, force);
      if force {
        StoreForced(userData, bw);
        PutSpec(userData, bw, true);
      } else {
        StoreSpec(userData, bw);
      }
    }
  }

  /**
   Without `force` a value the user entered (present and not None, "", 0 or
   False) is never overwritten, unless it sits under one of the keys the
   later phases own.
   */
  lemma ApplyDefaultsKeepsEntered(userData: map<string, Value>, config: Config)
    ensures var r := ApplyDefaultsFromConfig(userData, config, false);
            r.Ok? ==> var r := r.value;
              forall k | k in userData && !IsBlank(userData[k]) && k !in PhaseKeys :: r[k] == userData[k]
  {
    if ApplyDefaultsFromConfig(userData, config, false).Ok? {
      ApplyDefaultsRun(userData, config, false);
      var run :| RunOf(userData, config, false, run)
                 && ApplyDefaultsFromConfig(userData, config, false).value
                    == SetDefaultKey(run.afterPlan, "_defaults_applied", VBool(true));
      StoreSpec(userData, BaseWrites(config.baseData));
    }
  }

  /**
   A successful call leaves the marker, an active scenario, a Base scenario,
   every written allocation, rate and income-source key in Base, and every
   scenario marked unsynchronised.
   */
  lemma ApplyDefaultsPlanShape(userData: map<string, Value>, config: Config, force: bool)
    ensures var r := ApplyDefaultsFromConfig(userData, config, force);
            r.Ok? ==> var r := r.value;
              && "_defaults_applied" in r
              && PlanSettled(r["investment_plan"], PlanWrites(config.investmentPlan))
  {
    if ApplyDefaultsFromConfig(userData, config, force).Ok? {
      ApplyDefaultsRun(userData, config, force);
      var run :| RunOf(userData, config, force, run)
                 && ApplyDefaultsFromConfig(userData, config, force).value
                    == SetDefaultKey(run.afterPlan, "_defaults_applied", VBool(true));
      var u3 := run.afterRecurring;
      var ws := PlanWrites(config.investmentPlan);
      var plan := if "investment_plan" !in u3 || force then VDict(map[]) else u3["investment_plan"];
      PlanValueSettles(plan, ws, force);
    }
  }

  /**
   On a fresh profile the call always succeeds: when neither the profile nor
   the base-data rows hold the one-time, recurring or plan keys and the
   country is missing or a string, every phase finds what it needs and the
   plan phase builds Base from scratch.
   */
  lemma ApplyDefaultsSucceeds(userData: map<string, Value>, config: Config, force: bool)
    requires {"onetime_expenses", "recurring_expenses", "investment_plan"} !! (userData.Keys + NamedKeys(config.baseData))
    requires GetOr(userData, "country", VStr("IN")).VStr?
    ensures ApplyDefaultsFromConfig(userData, config, force).Ok?
  {
    var bw := BaseWrites(config.baseData);
    var u1 := Store(userData, bw, force);
    StoreFrame(userData, bw, force);
    assert "onetime_expenses" !in u1 && "recurring_expenses" !in u1 && "investment_plan" !in u1;
    var u2 := OnetimePhase(u1, OnetimeWrites(config.onetime), force);
    assert u2.Ok?;
    assert "recurring_expenses" !in u2.value && "investment_plan" !in u2.value;
    var u3 := RecurringPhase(u2.value, GetOr(userData, "country", VStr("IN")), RecurringWrites(config.recurring), force);
    assert u3.Ok?;
    assert "investment_plan" !in u3.value;
    PlanValueFresh(PlanWrites(config.investmentPlan), force);
  }

  /** From an empty plan the plan phase cannot fail: Base is created with every section the rows write to. */
  lemma PlanValueFresh(ws: seq<SectionWrite>, force: bool)
    requires forall i | 0 <= i < |ws| :: ws[i].section in Sections
    ensures PlanValue(VDict(map[]), ws, force).Ok?
  {
    var none: map<string, Value> := map[];
    var p1 := SetDefaultKey(SetDefaultKey(none, "active_scenario", VStr("Base")), "scenarios", VDict(none));
    assert p1["scenarios"] == VDict(none);
    var s1 := map["Base" := EmptyBase];
    assert (if "Base" !in none || force then none["Base" := EmptyBase] else none) == s1;
    SectionWritesTotal(EmptyBase, ws);
    var base := SectionWrites(EmptyBase, ws).value;
    assert base.VDict?;
    assert s1["Base" := base] == map["Base" := base];
    assert SyncAll(map["Base" := base]).Ok?;
  }

  // ----- Idempotence -----

  /** What the one-time phase leaves and a second run finds settled. */
  predicate OnetimeDone(x: map<string, Value>, ws: seq<Write>, force: bool) {
    "onetime_expenses" in x
    && (|ws| == 0 || (x["onetime_expenses"].VDict? && Settled(x["onetime_expenses"].d, ws, force)))
  }

  lemma OnetimeSettles(u: map<string, Value>, ws: seq<Write>, force: bool)
    requires NonBlankWrites(ws)
    requires OnetimePhase(u, ws, force).Ok?
    ensures OnetimeDone(OnetimePhase(u, ws, force).value, ws, force)
  {
    if |ws| > 0 {
      var u1 := SetDefaultKey(u, "onetime_expenses", VDict(map[]));
      StoreSettles(u1["onetime_expenses"].d, ws, force);
    }
  }

  lemma OnetimeStable(x: map<string, Value>, ws: seq<Write>, force: bool)
    requires OnetimeDone(x, ws, force)
    ensures OnetimePhase(x, ws, force) == Ok(x)
  {
    if |ws| > 0 {
      StoreSettledStable(x["onetime_expenses"].d, ws, force);
      assert x["onetime_expenses" := VDict(x["onetime_expenses"].d)] == x;
    }
  }

  /** The bucket already holds what the recurring loop would write. */
  predicate PutSettled(b: map<string, Value>, ws: seq<Write>, force: bool) {
    if force then forall k | k in WKeys(ws) :: k in b && b[k] == LastValue(ws, k)
    else WKeys(ws) <= b.Keys
  }

  predicate RecurringDone(x: map<string, Value>, country: Value, ws: seq<Write>, force: bool) {
    && "recurring_expenses" in x && x["recurring_expenses"].VDict? && country.VStr?
    && country.s in x["recurring_expenses"].d
    && (|ws| == 0 || (x["recurring_expenses"].d[country.s].VDict?
                      && PutSettled(x["recurring_expenses"].d[country.s].d, ws, force)))
  }

  lemma RecurringSettles(u: map<string, Value>, country: Value, ws: seq<Write>, force: bool)
    requires RecurringPhase(u, country, ws, force).Ok?
    ensures RecurringDone(RecurringPhase(u, country, ws, force).value, country, ws, force)
  {
    if |ws| > 0 {
      var u1 := SetDefaultKey(u, "recurring_expenses", VDict(map[]));
      var rec1 := SetDefaultKey(u1["recurring_expenses"].d, country.s, VDict(map[]));
      PutSpec(rec1[country.s].d, ws, force);
    }
  }

  lemma RecurringStable(x: map<string, Value>, country: Value, ws: seq<Write>, force: bool)
    requires RecurringDone(x, country, ws, force)
    ensures RecurringPhase(x, country, ws, force) == Ok(x)
  {
    var rec := x["recurring_expenses"].d;
    if |ws| > 0 {
      PutStable(rec[country.s].d, ws, force);
      assert rec[country.s := VDict(rec[country.s].d)] == rec;
    }
    assert x["recurring_expenses" := VDict(rec)] == x;
  }

  /** With `force` the plan is the one built from scratch; without, a settled plan. */
  predicate PlanDone(x: map<string, Value>, ws: seq<SectionWrite>, force: bool) {
    "investment_plan" in x
    && if force then PlanValue(VDict(map[]), ws, true) == Ok(x["investment_plan"])
       else PlanSettled(x["investment_plan"], ws)
  }

  lemma PlanSettles(u: map<string, Value>, ws: seq<SectionWrite>, force: bool)
    requires forall i | 0 <= i < |ws| :: ws[i].section in Sections
    requires PlanPhase(u, ws, force).Ok?
    ensures PlanDone(PlanPhase(u, ws, force).value, ws, force)
  {
    var plan := if "investment_plan" !in u || force then VDict(map[]) else u["investment_plan"];
    PlanValueSettles(plan, ws, force);
  }

  lemma PlanStable(x: map<string, Value>, ws: seq<SectionWrite>, force: bool)
    requires PlanDone(x, ws, force)
    ensures PlanPhase(x, ws, force) == Ok(x)
  {
    if !force {
      PlanValueStable(x["investment_plan"], ws);
    }
    assert x["investment_plan" := x["investment_plan"]] == x;
  }

  /** An entry none of three single-key updates touches keeps its value. */
  lemma FrameChain(a: map<string, Value>, b: map<string, Value>, c: map<string, Value>, d: map<string, Value>,
                   k1: string, k2: string, k3: string, key: string)
    requires Frame(a, b, k1) && Frame(b, c, k2) && Frame(c, d, k3)
    requires key in a && key != k1 && key != k2 && key != k3
    ensures key in d && d[key] == a[key]
  {
  }

  /** The profile a successful run returns, with its phases' frames. */
  predicate Finished(userData: map<string, Value>, config: Config, force: bool, run: Run, r: map<string, Value>) {
    && RunOf(userData, config, force, run)
    && r == SetDefaultKey(run.afterPlan, "_defaults_applied", VBool(true))
    && WKeys(BaseWrites(config.baseData)) !! PhaseKeys + {"country"}
  }

  /** `x` and `y` agree on every entry outside the phase keys. */
  predicate SameOutside(x: map<string, Value>, y: map<string, Value>) {
    && (forall k | k in x && k !in PhaseKeys :: k in y && y[k] == x[k])
    && (forall k | k in y && k !in PhaseKeys :: k in x)
  }

  /** The later phases only touch the phase keys. */
  lemma RunSameOutside(userData: map<string, Value>, config: Config, force: bool, run: Run, r: map<string, Value>)
    requires Finished(userData, config, force, run, r)
    ensures SameOutside(run.afterBase, r)
  {
    ChainSameOutside(run.afterBase, run.afterOnetime, run.afterRecurring, run.afterPlan);
  }

  lemma ProjectionYearsOutsidePhases()
    ensures "GLProjectionYears" !in PhaseKeys
  {
    var g := "GLProjectionYears";
    assert g[0] == 'G';
    assert "onetime_expenses"[0] == 'o' && "recurring_expenses"[0] == 'r';
    assert "investment_plan"[0] == 'i' && "_defaults_applied"[0] == '_';
  }

  lemma ChainSameOutside(u1: map<string, Value>, u2: map<string, Value>, u3: map<string, Value>, u4: map<string, Value>)
    requires Frame(u1, u2, "onetime_expenses") && Frame(u2, u3, "recurring_expenses")
    requires Frame(u3, u4, "investment_plan")
    ensures SameOutside(u1, SetDefaultKey(u4, "_defaults_applied", VBool(true)))
  {
  }

  lemma SettledTransfer(x: map<string, Value>, y: map<string, Value>, w: seq<Write>, force: bool)
    requires Settled(x, w, force)
    requires forall k | k in WKeys(w) :: k in y && y[k] == x[k]
    ensures Settled(y, w, force)
  {
  }

  /** The base-data loop finds its writes settled and the country where it was. */
  lemma SecondBase(userData: map<string, Value>, bw: seq<Write>, force: bool, u1: map<string, Value>, r: map<string, Value>)
    requires !force ==> NonBlankWrites(bw)
    requires u1 == Store(userData, bw, force)
    requires SameOutside(u1, r)
    requires WKeys(bw) !! PhaseKeys + {"country"}
    ensures Store(r, bw, force) == r
    ensures GetOr(r, "country", VStr("IN")) == GetOr(userData, "country", VStr("IN"))
  {
    StoreFrame(userData, bw, force);
    StoreSettles(userData, bw, force);
    SettledTransfer(u1, r, bw, force);
    StoreSettledStable(r, bw, force);
  }

  lemma SecondOnetime(userData: map<string, Value>, config: Config, force: bool, run: Run, r: map<string, Value>)
    requires Finished(userData, config, force, run, r)
    ensures OnetimePhase(r, OnetimeWrites(config.onetime), force) == Ok(r)
  {
    var ow := OnetimeWrites(config.onetime);
    OnetimeSettles(run.afterBase, ow, force);
    assert Frame(run.afterRecurring, run.afterPlan, "investment_plan");
    assert Frame(run.afterPlan, r, "_defaults_applied");
    FrameChain(run.afterOnetime, run.afterRecurring, run.afterPlan, r,
               "recurring_expenses", "investment_plan", "_defaults_applied", "onetime_expenses");
    assert OnetimeDone(r, ow, force);
    OnetimeStable(r, ow, force);
  }

  lemma SecondRecurring(userData: map<string, Value>, config: Config, force: bool, run: Run, r: map<string, Value>)
    requires Finished(userData, config, force, run, r)
    ensures RecurringPhase(r, run.country, RecurringWrites(config.recurring), force) == Ok(r)
  {
    var rw := RecurringWrites(config.recurring);
    RecurringSettles(run.afterOnetime, run.country, rw, force);
    assert Frame(run.afterRecurring, run.afterPlan, "investment_plan");
    assert Frame(run.afterPlan, r, "_defaults_applied");
    assert r["recurring_expenses"] == run.afterRecurring["recurring_expenses"];
    assert RecurringDone(r, run.country, rw, force);
    RecurringStable(r, run.country, rw, force);
  }

  lemma SecondPlan(userData: map<string, Value>, config: Config, force: bool, run: Run, r: map<string, Value>)
    requires Finished(userData, config, force, run, r)
    ensures PlanPhase(r, PlanWrites(config.investmentPlan), force) == Ok(r)
    ensures SetDefaultKey(r, "_defaults_applied", VBool(true)) == r
  {
    var pw := PlanWrites(config.investmentPlan);
    PlanSettles(run.afterRecurring, pw, force);
    assert Frame(run.afterPlan, r, "_defaults_applied");
    assert r["investment_plan"] == run.afterPlan["investment_plan"];
    assert PlanDone(r, pw, force);
    PlanStable(r, pw, force);
  }

  /**
   Calling `apply_defaults_from_config` a second time changes nothing, as its
   docstring promises, provided no base-data row is named `country` or after
   one of the keys the later phases own.
   */
  lemma ApplyDefaultsIdempotent(userData: map<string, Value>, config: Config, force: bool)
    requires WKeys(BaseWrites(config.baseData)) !! PhaseKeys + {"country"}
    ensures var r := ApplyDefaultsFromConfig(userData, config, force);
            r.Ok? ==> var r := r.value;
              ApplyDefaultsFromConfig(r, config, force) == Ok(r)
  {
    if ApplyDefaultsFromConfig(userData, config, force).Ok? {
      ApplyDefaultsRun(userData, config, force);
      var run :| RunOf(userData, config, force, run)
                 && ApplyDefaultsFromConfig(userData, config, force).value
                    == SetDefaultKey(run.afterPlan, "_defaults_applied", VBool(true));
      var r := ApplyDefaultsFromConfig(userData, config, force).value;
      assert Finished(userData, config, force, run, r);
      RunSameOutside(userData, config, force, run, r);
      SecondBase(userData, BaseWrites(config.baseData), force, run.afterBase, r);
      SecondOnetime(userData, config, force, run, r);
      SecondRecurring(userData, config, force, run, r);
      SecondPlan(userData, config, force, run, r);
    }
  }

  // ---------------------------------------------------------------------
  // default_investment_scenario
  // ---------------------------------------------------------------------

  /**
   `default_investment_scenario(country)`: the US and the UK have tables;
   every other country gets the India one. It has no withdrawal section.
   */
  function DefaultInvestmentScenario(country: string): (r: PlanScenarios.Scenario)
    ensures r.Dict? && r.allocations.Some? && r.rates.Some? && r.incomeSources.Some?
    ensures r.withdrawal.None? && r.engineSynced.None?
    ensures r.rates.value.Keys == r.allocations.value.Keys
    ensures (country == "US") == ("401K" in r.allocations.value)
    ensures (country == "UK") == ("PENSION" in r.allocations.value)
  {
    if country == "US" then
      PlanScenarios.Dict(
        Some(map["401K" := 40.0, "IRA" := 30.0, "BROKERAGE" := 30.0]),
        Some(map["401K" := 5.0, "IRA" := 4.0, "BROKERAGE" := 6.0]),
        Some(map["social_security" := 2000.0, "rental" := 0.0, "pension" := 0.0,
                 "annuity" := 0.0, "dividends" := 0.0, "other" := 0.0]),
        None, None)
    else if country == "UK" then
      PlanScenarios.Dict(
        Some(map["PENSION" := 70.0, "ISA" := 30.0]),
        Some(map["PENSION" := 4.0, "ISA" := 3.0]),
        Some(map["rental" := 0.0, "pension" := 1200.0, "annuity" := 0.0, "dividends" := 0.0, "other" := 0.0]),
        None, None)
    else
      PlanScenarios.Dict(
        Some(map["SWP" := 40.0, "FD" := 25.0, "SCSS" := 20.0, "POMIS" := 15.0]),
        Some(map["SWP" := 6.0, "FD" := 5.0, "SCSS" := 8.0, "POMIS" := 7.0]),
        Some(map["rental" := 0.0, "pension" := 0.0, "annuity" := 0.0, "dividends" := 0.0, "other" := 0.0]),
        None, None)
  }

  /** Every table allocates exactly 100 % and gives a rate for exactly the allocated instruments. */
  lemma DefaultInvestmentScenarioWellFormed(country: string)
    ensures var sc := DefaultInvestmentScenario(country);
            && sc.allocations.Some? && sc.rates.Some? && sc.incomeSources.Some?
            && Sum(sc.allocations.value) == 100.0
            && sc.rates.value.Keys == sc.allocations.value.Keys
  {
    if country == "US" {
      SumOfLiteral3("401K", "IRA", "BROKERAGE", 40.0, 30.0, 30.0);
    } else if country == "UK" {
      UkAllocationSum();
    } else {
      SumOfLiteral4("SWP", "FD", "SCSS", "POMIS", 40.0, 25.0, 20.0, 15.0);
    }
  }

  lemma UkAllocationSum()
    ensures Sum(map["PENSION" := 70.0, "ISA" := 30.0]) == 100.0
  {
    var m := map["PENSION" := 70.0, "ISA" := 30.0];
    SumRemove(m, "PENSION");
    assert m - {"PENSION"} == map["ISA" := 30.0];
    SumRemove(map["ISA" := 30.0], "ISA");
    assert map["ISA" := 30.0] - {"ISA"} == map[];
  }

  /**
   For the three known countries the income sources of the table are exactly
   the sources `get_visible_income_sources` lists for that country.
   */
  lemma DefaultIncomeSourcesMatchVisible(country: string)
    requires country in {"IN", "US", "UK"}
    ensures var sc := DefaultInvestmentScenario(country);
            var srcs := AllocationEdit.IncomeSourcesOf(country);
            && sc.incomeSources.Some? && srcs.Some?
            && forall x :: x in sc.incomeSources.value <==> x in srcs.value
  {
  }

  /**
   The two default tables for India name the same instruments but disagree
   on every share: this one starts at 40/25/20/15, `_default_scenario` at
   50/30/15/5.
   */
  lemma DefaultTablesDisagreeForIndia()
    ensures DefaultInvestmentScenario("IN").allocations.value.Keys
            == PlanScenarios.DefaultScenario("IN").allocations.value.Keys
    ensures forall k | k in DefaultInvestmentScenario("IN").allocations.value ::
              DefaultInvestmentScenario("IN").allocations.value[k]
              != PlanScenarios.DefaultScenario("IN").allocations.value[k]
  {
  }
}
