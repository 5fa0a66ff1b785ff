/**
 `safe_get` (ui/summary.py): a nested dictionary lookup that answers a
 default instead of failing.
 */
module Summary {
  import opened Common

  /**
   `safe_get(d, path, default)`: follow the keys of `path` from `d`; give
   `default` as soon as the current value is not a dictionary or the key is
   missing or maps to None.
   */
  function SafeGet(d: Value, path: seq<string>, default: Value): (r: Value)
    ensures |path| == 0 ==> r == d
    ensures |path| > 0 && !d.VDict? ==> r == default
    ensures |path| > 0 && d.VDict? && GetOr(d.d, path[0], VNone) == VNone ==> r == default
    decreases |path|
  {
    if |path| == 0 then d
    else if !d.VDict? then default
    else
      var next := GetOr(d.d, path[0], VNone);
      if next == VNone then default else SafeGet(next, path[1..], default)
  }

  /** `path` leads from `d` to `v` through dictionaries, every key present and not None. */
  predicate Along(d: Value, path: seq<string>, v: Value)
    decreases |path|
  {
    if |path| == 0 then d == v
    else d.VDict? && path[0] in d.d && d.d[path[0]] != VNone && Along(d.d[path[0]], path[1..], v)
  }

  /** A value reached along the path is returned, even a falsy one such as 0. */
  lemma {:induction false} SafeGetAlong(d: Value, path: seq<string>, v: Value, default: Value)
    requires Along(d, path, v)
    ensures SafeGet(d, path, default) == v
    decreases |path|
  {
    if |path| > 0 {
      SafeGetAlong(d.d[path[0]], path[1..], v, default);
    }
  }

  /** A lookup along `p + q` is a lookup along `p` followed by one along `q` from where it arrived. */
  lemma {:induction false} SafeGetAppend(d: Value, p: seq<string>, q: seq<string>, v: Value, default: Value)
    requires Along(d, p, v)
    ensures SafeGet(d, p + q, default) == SafeGet(v, q, default)
    decreases |p|
  {
    if |p| > 0 {
      assert (p + q)[0] == p[0];
      assert (p + q)[1..] == p[1..] + q;
      assert GetOr(d.d, p[0], VNone) == d.d[p[0]];
      SafeGetAppend(d.d[p[0]], p[1..], q, v, default);
    } else {
      assert p + q == q;
    }
  }

  /** A lookup that does not arrive anywhere gives the default. */
  lemma {:induction false} SafeGetMissing(d: Value, path: seq<string>, default: Value)
    requires forall v :: !Along(d, path, v)
    ensures SafeGet(d, path, default) == default
    decreases |path|
  {
    if |path| == 0 {
      assert Along(d, path, d);
    } else if d.VDict? && path[0] in d.d && d.d[path[0]] != VNone {
      forall v ensures !Along(d.d[path[0]], path[1..], v) {
        assert !Along(d, path, v);
      }
      SafeGetMissing(d.d[path[0]], path[1..], default);
    }
  }
}
