/**
 Shared vocabulary of the model: optional values, the Python exceptions the
 core can raise, an abstraction of Python's `round`, the sum of the values of
 a dictionary, and a dynamic `Value` for the loosely typed parts of the
 user profile.
 */
module Common {

  /** A present or absent value (a missing dictionary key, Python's None). */
  datatype Option<+T> = None | Some(value: T) {
    function GetOr(default: T): T {
      match this
      case Some(v) => v
      case None => default
    }
  }

  /** The Python exceptions the modelled functions can raise. */
  datatype Error =
    | KeyError(key: string)   // d[key] on a dict without that key
    | KeyErrorAmong(keys: set<string>)  // d[key] for one of `keys`; which one depends on dict order
    | TypeError               // an operation applied to a value of the wrong type
    | AttributeError          // `.get` / `.setdefault` called on a non-dict
    | ZeroDivisionError       // a division or negative power of zero

  /** Either the value a Python function returns or the exception it raises. */
  datatype Result<+T> = Ok(value: T) | Err(error: Error)

  // ---------------------------------------------------------------------
  // Rounding
  // ---------------------------------------------------------------------

  /** Python's `round(x, 2)` on exact reals (ties rounded upward). */
  function Round2(x: real): (r: real)
    ensures x - 0.005 < r <= x + 0.005
  {
    ((x * 100.0 + 0.5).Floor as real) / 100.0
  }

  /** Python's `round(x, 0)` on exact reals (ties rounded upward). */
  function Round0(x: real): (r: real)
    ensures x - 0.5 < r <= x + 0.5
    ensures r == r.Floor as real
  {
    (x + 0.5).Floor as real
  }

  /** A value with at most two decimal places is left alone by Round2. */
  lemma Round2Cents(c: int)
    ensures Round2(c as real / 100.0) == c as real / 100.0
  {
    var x := c as real / 100.0;
    assert x * 100.0 + 0.5 == c as real + 0.5;
    assert (c as real + 0.5).Floor == c;
  }

  /** Every value of `m` has at most two decimal places. */
  predicate InCents(m: map<string, real>) {
    forall k | k in m :: Round2(m[k]) == m[k]
  }

  /** Adding a value with at most two decimal places keeps a dictionary in cents. */
  lemma InCentsAdd(m: map<string, real>, k: string, c: int)
    requires InCents(m)
    ensures InCents(m[k := c as real / 100.0])
  {
    Round2Cents(c);
  }

  /** Round2 never reverses the order of two reals. */
  lemma Round2Monotone(x: real, y: real)
    requires x <= y
    ensures Round2(x) <= Round2(y)
  {
    assert (x * 100.0 + 0.5).Floor <= (y * 100.0 + 0.5).Floor;
  }

  /** Rounding every value of a dictionary to two decimals. */
  function RoundValues(m: map<string, real>): (r: map<string, real>)
    ensures r.Keys == m.Keys
    ensures forall k | k in m :: m[k] - 0.005 < r[k] <= m[k] + 0.005
  {
    map k | k in m :: Round2(m[k])
  }

  /** `v` per cent of `a`, computed in either order. */
  lemma PercentOfOne(a: real, v: real)
    ensures v * (a / 100.0) == a * v / 100.0
  {
  }

  function Min(a: real, b: real): real { if a <= b then a else b }
  function Max(a: real, b: real): real { if a >= b then a else b }

  // ---------------------------------------------------------------------
  // Sums of dictionary values (Python's `sum(d.values())`)
  // ---------------------------------------------------------------------

  /** The sum of the values of `m`; the order in which keys are visited does not matter. */
  function Sum(m: map<string, real>): real
    decreases |m|, 3
  {
    if |m| == 0 then 0.0
    else
      PickIndependent(m);
      var k :| k in m; m[k] + Sum(m - {k})
  }

  /** Whichever key is taken out first, the sum is the same. */
  lemma {:induction false} PickIndependent(m: map<string, real>)
    requires |m| > 0
    ensures forall k, j | k in m && j in m :: m[k] + Sum(m - {k}) == m[j] + Sum(m - {j})
    decreases |m|, 2
  {
    forall k, j | k in m && j in m
      ensures m[k] + Sum(m - {k}) == m[j] + Sum(m - {j})
    {
      PickPair(m, k, j);
    }
  }

  lemma {:induction false} PickPair(m: map<string, real>, k: string, j: string)
    requires k in m && j in m
    ensures m[k] + Sum(m - {k}) == m[j] + Sum(m - {j})
    decreases |m|, 1
  {
    if k != j {
      var mk := m - {k};
      var mj := m - {j};
      assert j in mk && k in mj;
      assert mk.Keys == m.Keys - {k};
      assert |mk| == |m| - 1;
      assert |mj| == |m| - 1;
      SumRemove(mk, j);
      SumRemove(mj, k);
      assert mk - {j} == mj - {k};
    }
  }

  /** The sum splits into one entry plus the sum of the rest. */
  lemma {:induction false} SumRemove(m: map<string, real>, k: string)
    requires k in m
    ensures Sum(m) == m[k] + Sum(m - {k})
    decreases |m|, 4
  {
    PickIndependent(m);
  }

  /** Adding a new key adds its value to the sum. */
  lemma SumInsert(m: map<string, real>, k: string, v: real)
    requires k !in m
    ensures Sum(m[k := v]) == Sum(m) + v
  {
    SumRemove(m[k := v], k);
    assert m[k := v] - {k} == m;
  }

  /** Overwriting one key changes the sum by the difference. */
  lemma SumUpdate(m: map<string, real>, k: string, v: real)
    ensures k in m ==> Sum(m[k := v]) == Sum(m) - m[k] + v
    ensures k !in m ==> Sum(m[k := v]) == Sum(m) + v
  {
    if k in m {
      SumRemove(m[k := v], k);
      SumRemove(m, k);
      assert m[k := v] - {k} == m - {k};
    } else {
      SumInsert(m, k, v);
    }
  }

  /** Moving weight between two entries keeps the sum. */
  lemma SumTransfer(m: map<string, real>, a: string, b: string, x: real, y: real)
    requires a in m && b in m && a != b && x + y == m[a] + m[b]
    ensures Sum(m[a := x][b := y]) == Sum(m)
  {
    SumUpdate(m, a, x);
    SumUpdate(m[a := x], b, y);
  }

  /** Every value multiplied by `f`. */
  function Scale(m: map<string, real>, f: real): map<string, real>
  {
    map k | k in m :: m[k] * f
  }

  /** `ks` lists every key of `m` exactly once. */
  ghost predicate Lists(ks: seq<string>, m: map<string, real>) {
    (forall i, j | 0 <= i < j < |ks| :: ks[i] != ks[j]) &&
    (forall i | 0 <= i < |ks| :: ks[i] in m) &&
    (forall k | k in m :: k in ks)
  }

  /** The values of `m` at `ks`, added from left to right. */
  ghost function SumAt(m: map<string, real>, ks: seq<string>): real {
    if |ks| == 0 then 0.0 else (if ks[0] in m then m[ks[0]] else 0.0) + SumAt(m, ks[1..])
  }

  /** Some listing of the keys of `m` (see KeysOfLists). */
  ghost function KeysOf(m: map<string, real>): seq<string>
    decreases |m|
  {
    if |m| == 0 then []
    else
      var k :| k in m;
      var rest := m - {k};
      assert |rest| == |m| - 1 by { assert rest.Keys == m.Keys - {k}; }
      [k] + KeysOf(rest)
  }

  lemma {:induction false} KeysOfLists(m: map<string, real>)
    ensures Lists(KeysOf(m), m)
    decreases |m|
  {
    if |m| > 0 {
      var ks := KeysOf(m);
      var k := ks[0];
      var rest := m - {k};
      assert |rest| == |m| - 1 by { assert rest.Keys == m.Keys - {k}; }
      assert ks == [k] + KeysOf(rest);
      KeysOfLists(rest);
      ListsCons(k, KeysOf(rest), m);
    }
  }

  /** Listing a key of `m` in front of a listing of the rest lists all of `m`. */
  lemma ListsCons(k: string, tail: seq<string>, m: map<string, real>)
    requires k in m && Lists(tail, m - {k})
    ensures Lists([k] + tail, m)
  {
    var ks := [k] + tail;
    forall i, j | 0 <= i < j < |ks| ensures ks[i] != ks[j] {
      if i > 0 { assert ks[i] == tail[i - 1]; }
      assert ks[j] == tail[j - 1];
    }
    forall i | 0 <= i < |ks| ensures ks[i] in m {
      if i > 0 { assert ks[i] == tail[i - 1]; }
    }
    forall j | j in m ensures j in ks {
      if j != k { assert j in m - {k}; }
    }
  }

  /** Entries outside `ks` do not contribute to SumAt. */
  lemma {:induction false} SumAtRemove(m: map<string, real>, ks: seq<string>, k: string)
    requires k !in ks
    ensures SumAt(m - {k}, ks) == SumAt(m, ks)
  {
    if |ks| > 0 {
      SumAtRemove(m, ks[1..], k);
    }
  }

  /** Summing along any listing of the keys gives Sum. */
  lemma {:induction false} SumAlong(m: map<string, real>, ks: seq<string>)
    requires Lists(ks, m)
    ensures Sum(m) == SumAt(m, ks)
    decreases |ks|
  {
    if |ks| == 0 {
      assert m.Keys == {};
    } else {
      var k := ks[0];
      var rest := m - {k};
      var tail := ks[1..];
      assert k !in tail by {
        forall i | 0 <= i < |tail| ensures tail[i] != k { assert ks[i + 1] != ks[0]; }
      }
      assert Lists(tail, rest) by { ListsTail(m, ks); }
      assert Sum(m) == m[k] + Sum(rest) by { SumRemove(m, k); }
      assert Sum(rest) == SumAt(rest, tail) by { SumAlong(rest, tail); }
      assert SumAt(rest, tail) == SumAt(m, tail) by { SumAtRemove(m, tail, k); }
    }
  }

  lemma ListsTail(m: map<string, real>, ks: seq<string>)
    requires Lists(ks, m) && |ks| > 0
    ensures Lists(ks[1..], m - {ks[0]})
  {
    var tail := ks[1..];
    forall j | j in m - {ks[0]} ensures j in tail {
      assert j in ks;
      var i :| 0 <= i < |ks| && ks[i] == j;
      assert i != 0;
      assert tail[i - 1] == j;
    }
  }

  /** Scaling the values scales their sum along a listing; the unscaled sum is named `total`. */
  lemma {:induction false} SumAtScale(m: map<string, real>, ks: seq<string>, f: real, total: real)
    requires SumAt(m, ks) == total
    ensures SumAt(Scale(m, f), ks) == total * f
  {
    if |ks| > 0 {
      SumAtScale(m, ks[1..], f, SumAt(m, ks[1..]));
      SumAtScaleStep(m, ks, f, total, SumAt(m, ks[1..]), SumAt(Scale(m, f), ks[1..]));
    }
  }

  /** The step of SumAtScale: a scaled head and a scaled tail make a scaled listing. */
  lemma SumAtScaleStep(m: map<string, real>, ks: seq<string>, f: real, total: real, t: real, ts: real)
    requires |ks| > 0 && SumAt(m, ks) == total
    requires t == SumAt(m, ks[1..]) && ts == SumAt(Scale(m, f), ks[1..]) && ts == t * f
    ensures SumAt(Scale(m, f), ks) == total * f
  {
    var s := Scale(m, f);
    if ks[0] in m {
      Distribute(SumAt(s, ks), total, m[ks[0]], s[ks[0]], t, ts, f);
    } else {
      Distribute(SumAt(s, ks), total, 0.0, 0.0, t, ts, f);
    }
  }

  /** `(h + t) * f` is `h * f + t * f`, with every part named. */
  lemma Distribute(r: real, v: real, h: real, hs: real, t: real, ts: real, f: real)
    requires v == h + t && r == hs + ts && hs == h * f && ts == t * f
    ensures r == v * f
  {
  }

  /** Scaling every value scales the sum. */
  lemma SumScale(m: map<string, real>, f: real, total: real)
    requires Sum(m) == total
    ensures Sum(Scale(m, f)) == total * f
  {
    SumByKeys(m);
    ScaleKeysOf(m, f);
    SumAtScale(m, KeysOf(m), f, total);
  }

  /** Sum adds the values along KeysOf. */
  lemma SumByKeys(m: map<string, real>)
    ensures Sum(m) == SumAt(m, KeysOf(m))
  {
    KeysOfLists(m);
    SumAlong(m, KeysOf(m));
  }

  /** Sum of a scaled map, along the listing of the unscaled one. */
  lemma ScaleKeysOf(m: map<string, real>, f: real)
    ensures Sum(Scale(m, f)) == SumAt(Scale(m, f), KeysOf(m))
  {
    var s := Scale(m, f);
    KeysOfLists(m);
    assert s.Keys == m.Keys;
    SumAlong(s, KeysOf(m));
  }

  /** A dictionary of zeros sums to zero. */
  lemma {:induction false} SumZero(m: map<string, real>)
    requires forall k | k in m :: m[k] == 0.0
    ensures Sum(m) == 0.0
    decreases |m|
  {
    if |m| > 0 {
      var k :| k in m;
      var rest := m - {k};
      assert |rest| == |m| - 1 by { assert rest.Keys == m.Keys - {k}; }
      SumRemove(m, k);
      SumZero(rest);
    }
  }

  /** The sum of two dictionaries over the same keys, added key by key. */
  lemma {:induction false} SumPlus(a: map<string, real>, b: map<string, real>, c: map<string, real>)
    requires a.Keys == b.Keys == c.Keys
    requires forall k | k in c :: c[k] == a[k] + b[k]
    ensures Sum(c) == Sum(a) + Sum(b)
    decreases |c|
  {
    if |c| > 0 {
      var k :| k in c;
      var ra, rb, rc := a - {k}, b - {k}, c - {k};
      assert |rc| == |c| - 1 by { assert rc.Keys == c.Keys - {k}; }
      assert ra.Keys == rb.Keys == rc.Keys;
      SumRemove(a, k);
      SumRemove(b, k);
      SumRemove(c, k);
      SumPlus(ra, rb, rc);
    }
  }

  /** `x` for each key in `s`, zero for the other keys of `m`. */
  function Spike(m: map<string, real>, s: set<string>, x: real): map<string, real> {
    map k | k in m :: if k in s then x else 0.0
  }

  /** The spike of `s` sums to `x` once per key of `s`; the count `n` and the total are named. */
  lemma {:induction false} SumSpike(m: map<string, real>, s: set<string>, x: real, n: nat, total: real)
    requires s <= m.Keys && n == |s| && (n as real) * x == total
    ensures Sum(Spike(m, s, x)) == total
    decreases |m|
  {
    if |m| > 0 {
      var k :| k in m;
      var rm := m - {k};
      assert |rm| == |m| - 1 by { assert rm.Keys == m.Keys - {k}; }
      var rs := s - {k};
      SpikeStep(m, s, x, k);
      if k in s {
        assert |rs| == |s| - 1;
        var fewer: nat := n - 1;
        var rest := total - x;
        CountDown(n, x, total, fewer, rest);
        SumSpike(rm, rs, x, fewer, rest);
      } else {
        assert rs == s;
        SumSpike(rm, rs, x, n, total);
      }
    } else {
      assert s == {};
      CountZero(n, x, total);
      assert Spike(m, s, x).Keys == {};
    }
  }

  /** Taking one key out of the spike takes out its `x` or 0. */
  lemma SpikeStep(m: map<string, real>, s: set<string>, x: real, k: string)
    requires k in m
    ensures Sum(Spike(m, s, x)) == (if k in s then x else 0.0) + Sum(Spike(m - {k}, s - {k}, x))
  {
    var sp := Spike(m, s, x);
    assert sp - {k} == Spike(m - {k}, s - {k}, x);
    SumRemove(sp, k);
  }

  /** One copy of `x` fewer. */
  lemma CountDown(n: nat, x: real, total: real, fewer: nat, rest: real)
    requires (n as real) * x == total && fewer == n - 1 && rest == total - x
    ensures (fewer as real) * x == rest
  {
  }

  /** No copies of `x` make nothing. */
  lemma CountZero(n: nat, x: real, total: real)
    requires n == 0 && (n as real) * x == total
    ensures total == 0.0
  {
  }

  /** Adding `x` to the entries whose keys are in `s` adds `x` once per such key; the count `n` and that total are named. */
  lemma SumBump(m: map<string, real>, s: set<string>, x: real, r: map<string, real>, n: nat, total: real)
    requires s <= m.Keys && r.Keys == m.Keys
    requires forall k | k in m :: r[k] == (if k in s then m[k] + x else m[k])
    requires n == |s| && (n as real) * x == total
    ensures Sum(r) == Sum(m) + total
  {
    var sp := Spike(m, s, x);
    assert forall k | k in r :: r[k] == m[k] + sp[k];
    SumPlus(m, sp, r);
    SumSpike(m, s, x, n, total);
  }

  /** `a * v / 100` for every value `v`: the money a percentage of `a` stands for. */
  function PercentOf(a: real, m: map<string, real>): (r: map<string, real>)
    ensures r.Keys == m.Keys
  {
    map k | k in m :: a * m[k] / 100.0
  }

  /** Taking a percentage of every value takes it of the sum. */
  lemma SumPercentOf(a: real, m: map<string, real>, total: real)
    requires Sum(m) == total
    ensures Sum(PercentOf(a, m)) == a * total / 100.0
  {
    var f := a / 100.0;
    assert Sum(PercentOf(a, m)) == Sum(Scale(m, f)) by { PercentOfIsScale(a, m); }
    SumScale(m, f, total);
    PercentOfFactor(a, total, f, Sum(Scale(m, f)));
  }

  /** A sum scaled by `a / 100` is `a` percent of it. */
  lemma PercentOfFactor(a: real, total: real, f: real, s: real)
    requires f == a / 100.0 && s == total * f
    ensures s == a * total / 100.0
  {
  }

  /** Over values summing to 100, the percentages of `a` sum to `a`. */
  lemma SumPercentOfHundred(a: real, m: map<string, real>)
    requires Sum(m) == 100.0
    ensures Sum(PercentOf(a, m)) == a
  {
    var f := a / 100.0;
    assert Sum(PercentOf(a, m)) == Sum(Scale(m, f)) by { PercentOfIsScale(a, m); }
    SumScale(m, f, 100.0);
  }

  lemma PercentOfIsScale(a: real, m: map<string, real>)
    ensures PercentOf(a, m) == Scale(m, a / 100.0)
  {
    forall k | k in m ensures PercentOf(a, m)[k] == Scale(m, a / 100.0)[k] {
      PercentOfOne(a, m[k]);
    }
  }

  /** A factor that takes the sum to `target` takes every scaled dictionary's sum there too. */
  lemma SumScaleTo(m: map<string, real>, f: real, total: real, target: real)
    requires Sum(m) == total && total * f == target
    ensures Sum(Scale(m, f)) == target
  {
    SumScale(m, f, total);
  }

  /** Scaling by `target / Sum(m)` takes a non-zero sum to `target`. */
  lemma ScaleToTarget(m: map<string, real>, target: real, total: real)
    requires total == Sum(m) && total != 0.0
    ensures Sum(Scale(m, target / total)) == target
  {
    var f := target / total;
    ShareFactor(target, total, f);
    SumScaleTo(m, f, total, target);
  }

  /** Adding an equal share of `gap` to every key of `s` adds `gap` to the sum. */
  lemma SumSpread(m: map<string, real>, s: set<string>, gap: real, r: map<string, real>)
    requires s <= m.Keys && s != {} && r.Keys == m.Keys
    requires forall k | k in m :: r[k] == (if k in s then m[k] + gap / |s| as real else m[k])
    ensures Sum(r) == Sum(m) + gap
  {
    var n: nat := |s|;
    var x := gap / n as real;
    SpreadShare(gap, n, x);
    SumBump(m, s, x, r, n, gap);
  }

  /** `n` shares of `gap / n` make up `gap`. */
  lemma SpreadShare(gap: real, n: nat, x: real)
    requires n != 0 && x == gap / n as real
    ensures (n as real) * x == gap
  {
  }

  /** `target / total` is the factor that takes `total` to `target`. */
  lemma ShareFactor(target: real, total: real, f: real)
    requires total != 0.0 && f == target / total
    ensures total * f == target
  {
  }

  /**
   * An entry scaled by a factor `f` with `total * f == target` is the share
   * `target * v` of `total`, in product form.
   */
  lemma ShareProduct(a: real, v: real, f: real, total: real, target: real)
    requires a == v * f && total * f == target
    ensures a * total == target * v
  {
  }

  /** Two entries scaled by the same factor keep the ratio of their values. */
  lemma ScaledRatio(a: real, b: real, va: real, vb: real, f: real)
    requires a == va * f && b == vb * f
    ensures a * vb == b * va
  {
  }

  /** Two values scaled by `target / total`: each is its share of `total` in product form, and they keep their ratio. */
  lemma SharePair(a: real, b: real, va: real, vb: real, f: real, total: real, target: real)
    requires total != 0.0 && f == target / total && a == va * f && b == vb * f
    ensures b * total == target * vb
    ensures a * vb == b * va
  {
    ShareFactor(target, total, f);
    ScaledRatio(a, b, va, vb, f);
    ShareProduct(b, vb, f, total, target);
  }

  /** Non-negative values have a non-negative sum. */
  lemma {:induction false} SumNonneg(m: map<string, real>)
    requires forall k | k in m :: m[k] >= 0.0
    ensures Sum(m) >= 0.0
    decreases |m|
  {
    if |m| > 0 {
      var k :| k in m;
      SumRemove(m, k);
      SumNonneg(m - {k});
    }
  }

  /** Rounding every value to cents moves the sum by at most half a cent per key. */
  lemma {:induction false} SumClose(a: map<string, real>, b: map<string, real>)
    requires a.Keys == b.Keys
    requires forall k | k in a :: a[k] - 0.005 < b[k] <= a[k] + 0.005
    ensures Sum(a) - 0.005 * |a| as real <= Sum(b) <= Sum(a) + 0.005 * |a| as real
    decreases |a|
  {
    if |a| > 0 {
      var k :| k in a;
      var ra := a - {k};
      var rb := b - {k};
      assert ra.Keys == a.Keys - {k};
      assert rb.Keys == ra.Keys;
      assert |ra| == |a| - 1;
      SumRemove(a, k);
      SumRemove(b, k);
      SumClose(ra, rb);
    }
  }

  /** A dictionary display of four distinct keys sums to its four values. */
  lemma SumOfLiteral4(a: string, b: string, c: string, d: string, x: real, y: real, z: real, w: real)
    requires a != b && a != c && a != d && b != c && b != d && c != d
    ensures Sum(map[a := x, b := y, c := z, d := w]) == x + y + z + w
  {
    SumInsert(map[], a, x);
    SumInsert(map[a := x], b, y);
    SumInsert(map[a := x, b := y], c, z);
    SumInsert(map[a := x, b := y, c := z], d, w);
  }

  /** A dictionary display of three distinct keys sums to its three values. */
  lemma SumOfLiteral3(a: string, b: string, c: string, x: real, y: real, z: real)
    requires a != b && a != c && b != c
    ensures Sum(map[a := x, b := y, c := z]) == x + y + z
  {
    SumInsert(map[], a, x);
    SumInsert(map[a := x], b, y);
    SumInsert(map[a := x, b := y], c, z);
  }

  // ---------------------------------------------------------------------
  // Dynamic values of the user profile
  // ---------------------------------------------------------------------

  /** A JSON-like Python value; ints and floats are both `VNum`. */
  datatype Value =
    | VNone
    | VBool(b: bool)
    | VNum(n: real)
    | VStr(s: string)
    | VDict(d: map<string, Value>)

  /** `{"input": v}`, the shape of every form field in the profile. */
  function Wrap(v: Value): (r: Value)
    ensures r.VDict? && "input" in r.d && r.d["input"] == v
  {
    VDict(map["input" := v])
  }

  /** Python's `v in (None, "", 0)`; `False == 0` and `0.0 == 0` hold in Python. */
  predicate IsBlank(v: Value) {
    v == VNone || v == VStr("") || v == VNum(0.0) || v == VBool(false)
  }

  /** The number a value denotes in arithmetic; `bool` is a subclass of `int` in Python. */
  function AsNumber(v: Value): Option<real> {
    match v
    case VNum(n) => Some(n)
    case VBool(b) => Some(if b then 1.0 else 0.0)
    case _ => None
  }

  /** Python `==` between two values: numbers (and booleans) compare numerically. */
  predicate PyEq(a: Value, b: Value) {
    if AsNumber(a).Some? && AsNumber(b).Some? then AsNumber(a).value == AsNumber(b).value
    else a == b
  }

  /** Python `dict.get(key, default)`. */
  function GetOr(m: map<string, Value>, key: string, default: Value): Value {
    if key in m then m[key] else default
  }

  /** Python `d.get(key, default)` for a real-valued dict. */
  function GetReal(m: map<string, real>, key: string, default: real): real {
    if key in m then m[key] else default
  }

  /** `d.setdefault(key, value)` on a dictionary. */
  function SetDefaultKey(c: map<string, Value>, key: string, value: Value): (r: map<string, Value>)
    ensures r.Keys == c.Keys + {key}
    ensures key in c ==> r == c
    ensures key !in c ==> r[key] == value
    ensures forall k | k in c :: r[k] == c[k]
  {
    if key in c then c else c[key := value]
  }

  /** `r` is `u` with only the entry `key` replaced or added. */
  predicate Frame(u: map<string, Value>, r: map<string, Value>, key: string) {
    r.Keys == u.Keys + {key} && forall k | k in u && k != key :: r[k] == u[k]
  }

  /** `r` is `s` with some entries left out and the rest in their order. */
  predicate IsSubsequence<T(==)>(r: seq<T>, s: seq<T>)
    decreases |s|
  {
    |r| == 0
    || (|s| > 0 && ((r[0] == s[0] && IsSubsequence(r[1..], s[1..])) || IsSubsequence(r, s[1..])))
  }

  /** `x` raised to the natural power `n`. */
  function Pow(x: real, n: nat): real {
    if n == 0 then 1.0 else x * Pow(x, n - 1)
  }
}
