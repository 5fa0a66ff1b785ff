/**
 The expense totals of ui/expenses.py: the yearly recurring totals (must-have
 and optional, inflated to a given year) and the one-time grand total, both
 read from the current country's bucket only.
 */
module Expenses {
  import opened Common

  /**
   `user_data.get(container, {}).get(user_data.get("country"), {})`, which
   must be a dictionary to be iterated. A dictionary as the country is
   unhashable; any other non-string country finds no bucket, which counts as
   empty. A bucket that is a dictionary is returned as it is, and a
   non-empty result is always the dictionary the country names.
   */
  function CountryBucket(userData: map<string, Value>, container: string): (r: Result<map<string, Value>>)
    ensures var c := GetOr(userData, container, VDict(map[]));
            var country := GetOr(userData, "country", VNone);
            c.VDict? && !country.VDict? && !(country.VStr? && country.s in c.d) ==> r == Ok(map[])
    ensures var c := GetOr(userData, container, VDict(map[]));
            var country := GetOr(userData, "country", VNone);
            r.Ok? && r.value != map[] ==>
              c.VDict? && country.VStr? && country.s in c.d && c.d[country.s] == VDict(r.value)
    ensures var c := GetOr(userData, container, VDict(map[]));
            var country := GetOr(userData, "country", VNone);
            c.VDict? && country.VStr? && country.s in c.d && c.d[country.s].VDict? ==> r == Ok(c.d[country.s].d)
    ensures var c := GetOr(userData, container, VDict(map[]));
            var country := GetOr(userData, "country", VNone);
            r.Ok? <==> c.VDict? && !country.VDict? && (country.VStr? && country.s in c.d ==> c.d[country.s].VDict?)
    ensures !GetOr(userData, container, VDict(map[])).VDict? ==> r == Err(AttributeError)
    ensures GetOr(userData, container, VDict(map[])).VDict? && GetOr(userData, "country", VNone).VDict?
            ==> r == Err(TypeError)
    ensures r.Err? ==> r.error in {AttributeError, TypeError}
  {
    var c := GetOr(userData, container, VDict(map[]));
    var country := GetOr(userData, "country", VNone);
    if !c.VDict? then Err(AttributeError)
    else if country.VDict? then Err(TypeError)
    else
      var b := if country.VStr? && country.s in c.d then c.d[country.s] else VDict(map[]);
      if !b.VDict? then Err(AttributeError) else Ok(b.d)
  }

  /** `v.get(field, 0)` used as a number: `v` must be a dictionary and the amount a number. */
  function Amount(v: Value, field: string): Result<real> {
    if !v.VDict? then Err(AttributeError)
    else
      match AsNumber(GetOr(v.d, field, VNum(0.0)))
      case None => Err(TypeError)
      case Some(n) => Ok(n)
  }

  /** The amount of every entry of a bucket. */
  function Amounts(b: map<string, Value>, field: string): (r: Result<map<string, real>>)
    ensures r.Ok? <==> forall k | k in b :: Amount(b[k], field).Ok?
    ensures r.Ok? ==> r.value.Keys == b.Keys && forall k | k in b :: Amount(b[k], field) == Ok(r.value[k])
  {
    if exists k | k in b :: !b[k].VDict? then Err(AttributeError)
    else if exists k | k in b :: Amount(b[k], field).Err? then Err(TypeError)
    else Ok(map k | k in b :: Amount(b[k], field).value)
  }

  predicate EndsWith(s: string, suffix: string) {
    |suffix| <= |s| && s[|s| - |suffix|..] == suffix
  }

  /** The must-have amounts: entries whose key does not end in "Opt" (the others count as zero). */
  function MustPart(m: map<string, real>): map<string, real> {
    map k | k in m :: if EndsWith(k, "Opt") then 0.0 else m[k]
  }

  /** The optional amounts: entries whose key ends in "Opt" (the others count as zero). */
  function OptPart(m: map<string, real>): map<string, real> {
    map k | k in m :: if EndsWith(k, "Opt") then m[k] else 0.0
  }

  /** Every entry goes to exactly one of the two totals, so together they are the whole bucket. */
  lemma MonthlySplit(m: map<string, real>)
    ensures Sum(MustPart(m)) + Sum(OptPart(m)) == Sum(m)
    ensures forall k | k in m :: (MustPart(m)[k] == 0.0 || OptPart(m)[k] == 0.0)
  {
    SumPlus(MustPart(m), OptPart(m), m);
  }

  lemma PowNonzero(x: real, n: nat)
    requires x != 0.0
    ensures Pow(x, n) != 0.0
  {
  }

  /**
   `(1 + inflation) ** (year - 1)`; a negative exponent divides, which fails
   on a zero base.
   */
  function Factor(inflation: real, year: int): (r: Result<real>)
    ensures r.Ok? <==> year >= 1 || 1.0 + inflation != 0.0
    ensures r.Err? ==> r.error == ZeroDivisionError
    ensures year < 1 && r.Ok? ==> r.value * Pow(1.0 + inflation, 1 - year) == 1.0
  {
    if year >= 1 then Ok(Pow(1.0 + inflation, year - 1))
    else if 1.0 + inflation == 0.0 then Err(ZeroDivisionError)
    else
      PowNonzero(1.0 + inflation, 1 - year);
      Ok(1.0 / Pow(1.0 + inflation, 1 - year))
  }

  /** In year 1 the factor is 1 whatever the inflation. */
  lemma FactorYearOne(inflation: real)
    ensures Factor(inflation, 1) == Ok(1.0)
  {
  }

  /** Each further year multiplies the factor by `1 + inflation`, before year 1 as well as after. */
  lemma FactorNextYear(inflation: real, year: int)
    requires year >= 1 || 1.0 + inflation != 0.0
    ensures Factor(inflation, year).Ok? && Factor(inflation, year + 1).Ok?
    ensures Factor(inflation, year + 1).value == Factor(inflation, year).value * (1.0 + inflation)
  {
    var x := 1.0 + inflation;
    if year <= 0 {
      PowNonzero(x, 1 - year);
      PowNonzero(x, -year);
      assert Pow(x, 1 - year) == x * Pow(x, -year);
      InverseStep(x, Pow(x, -year));
    }
  }

  lemma InverseStep(x: real, p: real)
    requires x != 0.0 && p != 0.0
    ensures 1.0 / p == (1.0 / (x * p)) * x
  {
  }

  /**
   `compute_yearly_recurring_expenses_UI(user_data, inflation, year)`: the
   must-have and optional monthly sums of the country's bucket, times 12 and
   the inflation factor, each rounded to two decimals.
   */
  function RecurringTotals(userData: map<string, Value>, inflation: real, year: int): (r: Result<(real, real)>)
    ensures var b := CountryBucket(userData, "recurring_expenses");
            r.Ok? <==> b.Ok? && Amounts(b.value, "monthly").Ok? && Factor(inflation, year).Ok?
  {
    match CountryBucket(userData, "recurring_expenses")
    case Err(e) => Err(e)
    case Ok(b) =>
      match Amounts(b, "monthly")
      case Err(e) => Err(e)
      case Ok(m) =>
        match Factor(inflation, year)
        case Err(e) => Err(e)
        case Ok(f) => Ok(Yearly(Sum(MustPart(m)), Sum(OptPart(m)), f))
  }

  /** Two monthly sums, times 12 and the factor, rounded. */
  function Yearly(must: real, opt: real, f: real): (real, real) {
    (Round2(must * 12.0 * f), Round2(opt * 12.0 * f))
  }

  /** `compute_grand_total_onetime_UI(user_data)`: the rounded sum of the bucket's `"input"` amounts. */
  function OnetimeTotal(userData: map<string, Value>): (r: Result<real>)
    ensures var b := CountryBucket(userData, "onetime_expenses");
            r.Ok? <==> b.Ok? && Amounts(b.value, "input").Ok?
    ensures r.Ok? ==>
              var m := Amounts(CountryBucket(userData, "onetime_expenses").value, "input").value;
              Sum(m) - 0.005 < r.value <= Sum(m) + 0.005
  {
    match CountryBucket(userData, "onetime_expenses")
    case Err(e) => Err(e)
    case Ok(b) =>
      match Amounts(b, "input")
      case Err(e) => Err(e)
      case Ok(m) => Ok(Round2(Sum(m)))
  }

  /** The totals are the yearly totals of the bucket's amounts under the year's factor. */
  lemma RecurringTotalsOf(userData: map<string, Value>, inflation: real, year: int,
                          b: map<string, Value>, m: map<string, real>, f: real)
    requires CountryBucket(userData, "recurring_expenses") == Ok(b)
    requires Amounts(b, "monthly") == Ok(m)
    requires Factor(inflation, year) == Ok(f)
    ensures RecurringTotals(userData, inflation, year) == Ok(Yearly(Sum(MustPart(m)), Sum(OptPart(m)), f))
  {
  }

  /** In year 1 the totals are twelve times the monthly sums, whatever the inflation. */
  lemma RecurringYearOne(userData: map<string, Value>, inflation: real, b: map<string, Value>, m: map<string, real>,
                         must: real, opt: real)
    requires CountryBucket(userData, "recurring_expenses") == Ok(b)
    requires Amounts(b, "monthly") == Ok(m)
    requires must == Sum(MustPart(m)) && opt == Sum(OptPart(m))
    ensures RecurringTotals(userData, inflation, 1) == Ok((Round2(12.0 * must), Round2(12.0 * opt)))
  {
    FactorYearOne(inflation);
    RecurringTotalsOf(userData, inflation, 1, b, m, 1.0);
    YearlyOne(must, opt);
  }

  lemma YearlyOne(must: real, opt: real)
    ensures Yearly(must, opt, 1.0) == (Round2(12.0 * must), Round2(12.0 * opt))
  {
    assert must * 12.0 * 1.0 == 12.0 * must && opt * 12.0 * 1.0 == 12.0 * opt;
  }

  /** `x` is `exact` rounded to cents, up to the half cent rounding allows. */
  predicate WithinHalfCent(x: real, exact: real) {
    exact - 0.005 < x <= exact + 0.005
  }

  lemma YearlyBounds(must: real, opt: real, f: real)
    ensures WithinHalfCent(Yearly(must, opt, f).0, must * 12.0 * f)
    ensures WithinHalfCent(Yearly(must, opt, f).1, opt * 12.0 * f)
  {
  }

  lemma YearlyZero(f: real)
    ensures Yearly(0.0, 0.0, f) == (0.0, 0.0)
  {
    assert 0.0 * 12.0 * f == 0.0;
    Round2Cents(0);
  }

  lemma SplitArith(must: real, opt: real, total: real, f: real)
    requires must + opt == total
    ensures must * 12.0 * f + opt * 12.0 * f == total * 12.0 * f
  {
  }

  /**
   Each total is its exact yearly amount to within half a cent, and the two
   exact amounts add up to the whole bucket's yearly amount.
   */
  lemma RecurringTotalsSplit(userData: map<string, Value>, inflation: real, year: int,
                             b: map<string, Value>, m: map<string, real>, f: real,
                             must: real, opt: real, total: real)
    requires CountryBucket(userData, "recurring_expenses") == Ok(b)
    requires Amounts(b, "monthly") == Ok(m)
    requires Factor(inflation, year) == Ok(f)
    requires must == Sum(MustPart(m)) && opt == Sum(OptPart(m)) && total == Sum(m)
    ensures var r := RecurringTotals(userData, inflation, year);
            && r.Ok?
            && must * 12.0 * f - 0.005 < r.value.0 <= must * 12.0 * f + 0.005
            && opt * 12.0 * f - 0.005 < r.value.1 <= opt * 12.0 * f + 0.005
            && must * 12.0 * f + opt * 12.0 * f == total * 12.0 * f
  {
    RecurringTotalsOf(userData, inflation, year, b, m, f);
    assert RecurringTotals(userData, inflation, year) == Ok(Yearly(must, opt, f));
    YearlyBounds(must, opt, f);
    MonthlySplit(m);
    SplitArith(must, opt, total, f);
  }

  /** A missing bucket gives zero for both totals. */
  lemma RecurringMissingBucket(userData: map<string, Value>, inflation: real, year: int)
    requires CountryBucket(userData, "recurring_expenses") == Ok(map[])
    requires year >= 1 || 1.0 + inflation != 0.0
    ensures RecurringTotals(userData, inflation, year) == Ok((0.0, 0.0))
  {
    FactorNextYear(inflation, year);
    var f := Factor(inflation, year).value;
    var m: map<string, real> := map[];
    assert Amounts(map[], "monthly") == Ok(m);
    assert MustPart(m) == map[] && OptPart(m) == map[];
    RecurringTotalsOf(userData, inflation, year, map[], m, f);
    assert RecurringTotals(userData, inflation, year) == Ok(Yearly(0.0, 0.0, f));
    YearlyZero(f);
  }

  /** A missing bucket gives a zero one-time total. */
  lemma OnetimeMissingBucket(userData: map<string, Value>)
    requires CountryBucket(userData, "onetime_expenses") == Ok(map[])
    ensures OnetimeTotal(userData) == Ok(0.0)
  {
    var m: map<string, real> := map[];
    assert Amounts(map[], "input") == Ok(m);
    Round2Cents(0);
  }

  /** An entry without `"input"` counts as zero in the one-time total. */
  lemma OnetimeMissingInput(v: Value)
    requires v.VDict? && "input" !in v.d
    ensures Amount(v, "input") == Ok(0.0)
  {
  }

  /** Changing another country's bucket leaves the current country's bucket, and so both totals, as they were. */
  lemma BucketIgnoresOtherCountries(userData: map<string, Value>, container: string, other: string, v: Value)
    requires container != "country"
    requires container in userData && userData[container].VDict?
    requires GetOr(userData, "country", VNone) != VStr(other)
    ensures var u2 := userData[container := VDict(userData[container].d[other := v])];
            CountryBucket(u2, container) == CountryBucket(userData, container)
  {
  }

  lemma TotalsIgnoreOtherCountries(userData: map<string, Value>, other: string, rv: Value, ov: Value,
                                   inflation: real, year: int)
    requires "recurring_expenses" in userData && userData["recurring_expenses"].VDict?
    requires "onetime_expenses" in userData && userData["onetime_expenses"].VDict?
    requires GetOr(userData, "country", VNone) != VStr(other)
    ensures var u2 := userData["recurring_expenses" := VDict(userData["recurring_expenses"].d[other := rv])];
            RecurringTotals(u2, inflation, year) == RecurringTotals(userData, inflation, year)
    ensures var u3 := userData["onetime_expenses" := VDict(userData["onetime_expenses"].d[other := ov])];
            OnetimeTotal(u3) == OnetimeTotal(userData)
  {
    BucketIgnoresOtherCountries(userData, "recurring_expenses", other, rv);
    BucketIgnoresOtherCountries(userData, "onetime_expenses", other, ov);
  }
}
