/**
 `apply_country_defaults` (ui/assumptions.py): a one-time fill of the
 inflation and FD-rate fields from a per-country table, guarded by the
 `_defaults_applied` marker.
 */
module Assumptions {
  import opened Common

  /** The per-country assumption defaults; any other country has none. */
  function AssumptionDefaults(country: string): map<string, real> {
    if country == "IN" then map["GLInflationRate" := 6.0, "GLNormalFDRate" := 7.0, "GLSrCitizenFDRate" := 7.5]
    else if country == "US" then map["GLInflationRate" := 3.0, "GLNormalFDRate" := 4.5, "GLSrCitizenFDRate" := 4.0]
    else if country == "UK" then map["GLInflationRate" := 2.5, "GLNormalFDRate" := 4.0, "GLSrCitizenFDRate" := 4.2]
    else map[]
  }

  /**
   `defaults.get(country, {})` for the profile's country value: a string is
   looked up, a dictionary is unhashable (TypeError), and any other value
   matches no entry.
   */
  function DefaultsFor(country: Value): Result<map<string, real>> {
    match country
    case VStr(s) => Ok(AssumptionDefaults(s))
    case VDict(_) => Err(TypeError)
    case _ => Ok(map[])
  }

  /**
   `apply_country_defaults(user_data)`: nothing when the marker is present;
   otherwise every missing field of the country's table (country "IN" when
   absent) is added as `{"input": value}` and the marker is set to True.
   */
  function ApplyCountryDefaults(userData: map<string, Value>): (r: Result<map<string, Value>>)
    ensures "_defaults_applied" in userData ==> r == Ok(userData)
    ensures r.Ok? ==> "_defaults_applied" in r.value && r.value.Keys >= userData.Keys
    ensures r.Ok? && "_defaults_applied" !in userData ==> r.value["_defaults_applied"] == VBool(true)
    ensures r.Ok? ==> forall k | k in userData && k != "_defaults_applied" :: r.value[k] == userData[k]
  {
    if "_defaults_applied" in userData then Ok(userData)
    else
      match DefaultsFor(GetOr(userData, "country", VStr("IN")))
      case Err(e) => Err(e)
      case Ok(defaults) =>
        var filled := map k | k in userData.Keys + defaults.Keys ::
                        if k in userData then userData[k] else Wrap(VNum(defaults[k]));
        Ok(filled["_defaults_applied" := VBool(true)])
  }

  /**
   The fields added are exactly the country's missing defaults, each as
   `{"input": value}`.
   */
  lemma CountryDefaultsAdded(userData: map<string, Value>, country: string)
    requires "_defaults_applied" !in userData
    requires GetOr(userData, "country", VStr("IN")) == VStr(country)
    ensures ApplyCountryDefaults(userData).Ok?
    ensures var r := ApplyCountryDefaults(userData).value;
            && r.Keys == userData.Keys + AssumptionDefaults(country).Keys + {"_defaults_applied"}
            && forall k | k in AssumptionDefaults(country) && k !in userData ::
                 r[k] == Wrap(VNum(AssumptionDefaults(country)[k]))
  {
  }

  /** A profile without a country gets India's defaults. */
  lemma CountryDefaultsMissingCountry(userData: map<string, Value>)
    requires "_defaults_applied" !in userData && "country" !in userData
    ensures ApplyCountryDefaults(userData).Ok?
    ensures var r := ApplyCountryDefaults(userData).value;
            forall k | k in AssumptionDefaults("IN") :: k in r
  {
    CountryDefaultsAdded(userData, "IN");
  }

  /** For a country without a table only the marker is added. */
  lemma CountryDefaultsUnknown(userData: map<string, Value>)
    requires "_defaults_applied" !in userData
    requires DefaultsFor(GetOr(userData, "country", VStr("IN"))) == Ok(map[])
    ensures ApplyCountryDefaults(userData) == Ok(userData["_defaults_applied" := VBool(true)])
  {
    var none: map<string, real> := map[];
    var filled := map k | k in userData.Keys + none.Keys :: if k in userData then userData[k] else Wrap(VNum(none[k]));
    assert filled == userData;
  }

  /** Calling it twice is the same as calling it once. */
  lemma CountryDefaultsIdempotent(userData: map<string, Value>)
    requires ApplyCountryDefaults(userData).Ok?
    ensures var r := ApplyCountryDefaults(userData).value;
            ApplyCountryDefaults(r) == Ok(r)
  {
  }
}
