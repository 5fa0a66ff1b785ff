/**
 `hydrate_initial_corpus_defaults` (ui/base_data.py): the initial corpus is
 kept when its keys are exactly the country's default instruments and is
 otherwise replaced by the country's defaults.
 */
module BaseData {
  import opened Common

  /** The per-country default corpus; an unknown country has none. */
  function CorpusDefaults(country: string): map<string, real> {
    if country == "IN" then map["PF" := 150000.0, "PPF" := 100000.0, "NPS" := 50000.0, "SUPER" := 0.0, "OTHER" := 0.0]
    else if country == "US" then map["401K" := 50000.0, "IRA" := 30000.0, "BROKERAGE" := 20000.0, "OTHER" := 0.0]
    else if country == "UK" then map["PENSION" := 40000.0, "ISA" := 20000.0, "OTHER" := 0.0]
    else map[]
  }

  /** A table of numbers as profile values. */
  function Numbers(m: map<string, real>): map<string, Value> {
    map k | k in m :: VNum(m[k])
  }

  /** `for k, v in m.items(): c.setdefault(k, v)`; the order does not matter, as the keys differ. */
  function SetDefaults(c: map<string, Value>, m: map<string, Value>): map<string, Value> {
    map k | k in c.Keys + m.Keys :: if k in c then c[k] else m[k]
  }

  /**
   `hydrate_initial_corpus_defaults(user_data, country)`: `setdefault` of
   `initial_corpus`, a reset to `{}` when its keys differ from the defaults',
   then `setdefault` of every default. A corpus that is not a dictionary has
   no `keys()`.
   */
  function HydrateInitialCorpusDefaults(userData: map<string, Value>, country: string)
    : (r: Result<map<string, Value>>)
    ensures r.Ok? <==> "initial_corpus" !in userData || userData["initial_corpus"].VDict?
    ensures r.Ok? ==> Frame(userData, r.value, "initial_corpus")
    ensures r.Ok? ==> r.value["initial_corpus"].VDict?
                      && r.value["initial_corpus"].d.Keys == CorpusDefaults(country).Keys
  {
    var u1 := SetDefaultKey(userData, "initial_corpus", VDict(map[]));
    var corpus := u1["initial_corpus"];
    if !corpus.VDict? then Err(AttributeError)
    else
      var expected := Numbers(CorpusDefaults(country));
      var kept := if corpus.d.Keys != expected.Keys then map[] else corpus.d;
      Ok(u1["initial_corpus" := VDict(SetDefaults(kept, expected))])
  }

  /** A corpus whose keys already match keeps every value the user entered. */
  lemma CorpusKeptWhenKeysMatch(userData: map<string, Value>, country: string)
    requires "initial_corpus" in userData && userData["initial_corpus"].VDict?
    requires userData["initial_corpus"].d.Keys == CorpusDefaults(country).Keys
    ensures HydrateInitialCorpusDefaults(userData, country) == Ok(userData)
  {
    var c := userData["initial_corpus"].d;
    assert SetDefaults(c, Numbers(CorpusDefaults(country))) == c;
    assert userData["initial_corpus" := VDict(c)] == userData;
  }

  /** A corpus with other keys (after a country switch, say) becomes the country's defaults exactly. */
  lemma CorpusResetWhenKeysDiffer(userData: map<string, Value>, country: string)
    requires "initial_corpus" !in userData
             || (userData["initial_corpus"].VDict?
                 && userData["initial_corpus"].d.Keys != CorpusDefaults(country).Keys)
    ensures HydrateInitialCorpusDefaults(userData, country).Ok?
    ensures HydrateInitialCorpusDefaults(userData, country).value["initial_corpus"]
            == VDict(Numbers(CorpusDefaults(country)))
  {
    var expected := Numbers(CorpusDefaults(country));
    assert SetDefaults(map[], expected) == expected;
    if "initial_corpus" !in userData && expected.Keys == {} {
      assert expected == map[];
    }
  }

  /** An unknown country leaves an empty corpus. */
  lemma CorpusUnknownCountry(userData: map<string, Value>, country: string)
    requires country !in {"IN", "US", "UK"}
    requires HydrateInitialCorpusDefaults(userData, country).Ok?
    ensures HydrateInitialCorpusDefaults(userData, country).value["initial_corpus"] == VDict(map[])
  {
  }

  /** Hydrating twice is the same as hydrating once. */
  lemma HydrateCorpusIdempotent(userData: map<string, Value>, country: string)
    requires HydrateInitialCorpusDefaults(userData, country).Ok?
    ensures var r := HydrateInitialCorpusDefaults(userData, country).value;
            HydrateInitialCorpusDefaults(r, country) == Ok(r)
  {
    CorpusKeptWhenKeysMatch(HydrateInitialCorpusDefaults(userData, country).value, country);
  }
}
