/**
 The row logic of `build_assumption_diff` and
 `build_assumption_diff_between` (ui/assumption_diff.py): one row per config
 field whose value differs, in config order. The DataFrame is the sequence
 of rows.
 */
module AssumptionDiff {
  import opened Common

  /**
   One config item: its "Field Name", "Field Description" and "Field Default
   Value", `None` standing for a missing entry.
   */
  datatype Item = Item(name: Option<string>, description: Option<Value>, default: Option<Value>)

  /** A row: the caption ("Assumption"), the reference value, the compared value, their difference and the relative change in percent. */
  datatype Row = Row(caption: Value, reference: real, compared: real, change: real, changePct: Option<real>)

  /** `user_data.get(key, {}).get("input", default)`; the field must be a dictionary. */
  function InputOr(data: map<string, Value>, key: string, default: Value): Result<Value> {
    var field := GetOr(data, key, VDict(map[]));
    if !field.VDict? then Err(AttributeError) else Ok(GetOr(field.d, "input", default))
  }

  /**
   A row's figures agree: the change is compared minus reference, and the
   change in percent is that change relative to the reference, missing
   exactly when the reference is 0.
   */
  predicate Consistent(row: Row) {
    && row.change == row.compared - row.reference
    && (row.changePct.None? <==> row.reference == 0.0)
    && (row.changePct.Some? ==> row.changePct.value * row.reference == row.change * 100.0)
  }

  /** `item["Field Name"]` and `item["Field Description"]`, each a KeyError when missing. */
  function NameAndCaption(item: Item): Result<(string, Value)> {
    if item.name.None? then Err(KeyError("Field Name"))
    else if item.description.None? then Err(KeyError("Field Description"))
    else Ok((item.name.value, item.description.value))
  }

  /** How many of the per-item results are a row. */
  function RowsGiven(results: seq<Result<Option<Row>>>): nat
    decreases |results|
  {
    if |results| == 0 then 0
    else (if results[0].Ok? && results[0].value.Some? then 1 else 0) + RowsGiven(results[1..])
  }

  /**
   The loop both builders share: walks the per-item results in order, stops
   at the first failure, and keeps the rows. It fails exactly when some
   result fails, with the first failure; otherwise it has one row per
   result that is a row, each of them one of the results, and it is empty
   exactly when no result is a row.
   */
  function CollectRows(results: seq<Result<Option<Row>>>): (r: Result<seq<Row>>)
    ensures r.Ok? <==> forall i | 0 <= i < |results| :: results[i].Ok?
    ensures r.Err? ==> exists j | 0 <= j < |results| :: results[j] == Err(r.error) && forall i | 0 <= i < j :: results[i].Ok?
    ensures r.Ok? ==> |r.value| == RowsGiven(results) <= |results|
    ensures r.Ok? ==> (r.value == [] <==> forall i | 0 <= i < |results| :: results[i] == Ok(None))
    ensures r.Ok? ==> forall i | 0 <= i < |r.value| ::
              exists j | 0 <= j < |results| :: results[j] == Ok(Some(r.value[i]))
    decreases |results|
  {
    if |results| == 0 then Ok([])
    else
      assert forall i | 1 <= i < |results| :: results[i] == results[1..][i - 1];
      match results[0]
      case Err(e) => Err(e)
      case Ok(row) =>
        match CollectRows(results[1..])
        case Err(e) => Err(e)
        case Ok(rest) =>
          if row.Some? then
            assert forall i | 1 <= i < |rest| + 1 :: ([row.value] + rest)[i] == rest[i - 1];
            Ok([row.value] + rest)
          else Ok(rest)
  }

  /** The rows keep the results' order: their captions are a subsequence of `captions`, the caption of each result. */
  lemma {:induction false} CollectRowsInOrder(results: seq<Result<Option<Row>>>, captions: seq<Value>)
    requires CollectRows(results).Ok?
    requires |captions| == |results|
    requires forall i | 0 <= i < |results| :: results[i].Ok? && results[i].value.Some? ==> results[i].value.value.caption == captions[i]
    ensures IsSubsequence(Labels(CollectRows(results).value), captions)
    decreases |results|
  {
    if |results| > 0 {
      forall i | 0 <= i < |results| - 1
        ensures results[1..][i].Ok? && results[1..][i].value.Some? ==> results[1..][i].value.value.caption == captions[1..][i]
      {
        assert results[1..][i] == results[i + 1];
      }
      CollectRowsInOrder(results[1..], captions[1..]);
      var rest := CollectRows(results[1..]).value;
      var row := results[0].value;
      if row.Some? {
        var rows := [row.value] + rest;
        assert Labels(rows)[1..] == Labels(rest);
      }
    }
  }

  // ---------------------------------------------------------------------
  // build_assumption_diff
  // ---------------------------------------------------------------------

  /**
   The row of one item against the user's data: none for a non-numeric
   default or an unchanged value; otherwise the difference, and the change
   in percent unless the default is zero.
   */
  function DiffRow(item: Item, userData: map<string, Value>): (r: Result<Option<Row>>)
    ensures NameAndCaption(item).Ok? && AsNumber(item.default.GetOr(VNone)).None? ==> r == Ok(None)
    ensures r.Ok? && r.value.Some? ==> Consistent(r.value.value)
    ensures r.Ok? && r.value.Some? ==> AsNumber(item.default.GetOr(VNone)) == Some(r.value.value.reference)
  {
    match NameAndCaption(item)
    case Err(e) => Err(e)
    case Ok((name, caption)) =>
      var default := item.default.GetOr(VNone);
      match AsNumber(default)
      case None => Ok(None)
      case Some(d) =>
        match InputOr(userData, name, default)
        case Err(e) => Err(e)
        case Ok(current) =>
          if PyEq(current, default) then Ok(None)
          else
            match AsNumber(current)
            case None => Err(TypeError)
            case Some(c) => Ok(Some(Row(caption, d, c, c - d, if d != 0.0 then Some((c - d) / d * 100.0) else None)))
  }

  /** The rows of the items against `userData`, one result per item. */
  function DiffRows(items: seq<Item>, userData: map<string, Value>): (r: seq<Result<Option<Row>>>)
    ensures |r| == |items|
    ensures forall i | 0 <= i < |items| :: r[i] == DiffRow(items[i], userData)
  {
    seq(|items|, i requires 0 <= i < |items| => DiffRow(items[i], userData))
  }

  /**
   `build_assumption_diff(config_base_data, user_data)`: the rows of the
   items in config order. It fails exactly when some item's row fails, with
   the first such failure; it has one row per item that gives one, each of them that item's row, and
   it is empty exactly when no item gives a row.
   */
  function BuildAssumptionDiff(items: seq<Item>, userData: map<string, Value>): (r: Result<seq<Row>>)
    ensures r.Ok? <==> forall i | 0 <= i < |items| :: DiffRow(items[i], userData).Ok?
    ensures r.Err? ==> exists j | 0 <= j < |items| ::
              DiffRow(items[j], userData) == Err(r.error) && forall i | 0 <= i < j :: DiffRow(items[i], userData).Ok?
    ensures r.Ok? ==> |r.value| == RowsGiven(DiffRows(items, userData)) <= |items|
    ensures r.Ok? ==> (r.value == [] <==> forall i | 0 <= i < |items| :: DiffRow(items[i], userData) == Ok(None))
    ensures r.Ok? ==> forall i | 0 <= i < |r.value| ::
              exists j | 0 <= j < |items| :: DiffRow(items[j], userData) == Ok(Some(r.value[i]))
    ensures r.Ok? ==> forall i | 0 <= i < |r.value| :: Consistent(r.value[i])
  {
    CollectRows(DiffRows(items, userData))
  }

  /**
   A row appears exactly when the default is a number and the current value
   (the default when the field has no input) differs from it; its change is
   current minus default, and its change in percent is that change relative
   to the default, or None for a zero default.
   */
  lemma DiffRowSpec(item: Item, userData: map<string, Value>, name: string, caption: Value, d: real, current: Value)
    requires NameAndCaption(item) == Ok((name, caption))
    requires AsNumber(item.default.GetOr(VNone)) == Some(d)
    requires InputOr(userData, name, item.default.GetOr(VNone)) == Ok(current)
    ensures DiffRow(item, userData).Ok? ==> (DiffRow(item, userData).value.Some? <==> !PyEq(current, item.default.GetOr(VNone)))
    ensures DiffRow(item, userData).Ok? && DiffRow(item, userData).value.Some? ==>
              var row := DiffRow(item, userData).value.value;
              && AsNumber(current) == Some(row.compared) && row.reference == d && row.caption == caption
              && row.change == row.compared - row.reference
              && (row.changePct.None? <==> d == 0.0)
              && (row.changePct.Some? ==> row.changePct.value * d == row.change * 100.0)
  {
  }

  /** An item whose default is not a number never gives a row. */
  lemma DiffRowNonNumeric(item: Item, userData: map<string, Value>)
    requires NameAndCaption(item).Ok?
    requires AsNumber(item.default.GetOr(VNone)).None?
    ensures DiffRow(item, userData) == Ok(None)
  {
  }

  /** Data without any of the config's fields gives no rows: every current value falls back to its default. */
  lemma DiffOfDefaultsIsEmpty(items: seq<Item>, userData: map<string, Value>)
    requires forall i | 0 <= i < |items| :: NameAndCaption(items[i]).Ok?
    requires forall i | 0 <= i < |items| :: items[i].name.Some? && items[i].name.value !in userData
    ensures BuildAssumptionDiff(items, userData) == Ok([])
  {
    forall i | 0 <= i < |items| ensures DiffRow(items[i], userData) == Ok(None) {
      var default := items[i].default.GetOr(VNone);
      if AsNumber(default).Some? {
        assert PyEq(default, default);
      }
    }
  }

  /** The labels of a sequence of rows. */
  function Labels(rows: seq<Row>): seq<Value> {
    seq(|rows|, i requires 0 <= i < |rows| => rows[i].caption)
  }

  /** The descriptions of a sequence of items that all have one. */
  function Descriptions(items: seq<Item>): seq<Value>
    requires forall i | 0 <= i < |items| :: items[i].description.Some?
  {
    seq(|items|, i requires 0 <= i < |items| => items[i].description.value)
  }

  /** The rows follow config order: their labels are a subsequence of the items' descriptions. */
  lemma DiffRowsInConfigOrder(items: seq<Item>, userData: map<string, Value>)
    requires BuildAssumptionDiff(items, userData).Ok?
    ensures forall i | 0 <= i < |items| :: items[i].description.Some?
    ensures IsSubsequence(Labels(BuildAssumptionDiff(items, userData).value), Descriptions(items))
  {
    forall i | 0 <= i < |items| ensures items[i].description.Some? {
      assert DiffRow(items[i], userData).Ok?;
    }
    CollectRowsInOrder(DiffRows(items, userData), Descriptions(items));
  }

  // ---------------------------------------------------------------------
  // build_assumption_diff_between
  // ---------------------------------------------------------------------

  /**
   The row of one item between two data sets, both falling back to the
   default: none when equal; otherwise right minus left, and the change in
   percent unless left is 0 or None.
   */
  function BetweenRow(item: Item, left: map<string, Value>, right: map<string, Value>): (r: Result<Option<Row>>)
    ensures r.Ok? && r.value.Some? ==> Consistent(r.value.value)
  {
    match NameAndCaption(item)
    case Err(e) => Err(e)
    case Ok((name, caption)) =>
      var default := item.default.GetOr(VNone);
      match InputOr(left, name, default)
      case Err(e) => Err(e)
      case Ok(l) =>
        match InputOr(right, name, default)
        case Err(e) => Err(e)
        case Ok(r) =>
          if PyEq(l, r) then Ok(None)
          else if AsNumber(l).None? || AsNumber(r).None? then Err(TypeError)
          else
            var a := AsNumber(l).value;
            var b := AsNumber(r).value;
            Ok(Some(Row(caption, a, b, b - a,
                        if PyEq(l, VNum(0.0)) || l == VNone then None else Some((b - a) / a * 100.0))))
  }

  /** The rows of the items between `left` and `right`, one result per item. */
  function BetweenRows(items: seq<Item>, left: map<string, Value>, right: map<string, Value>)
    : (r: seq<Result<Option<Row>>>)
    ensures |r| == |items|
    ensures forall i | 0 <= i < |items| :: r[i] == BetweenRow(items[i], left, right)
  {
    seq(|items|, i requires 0 <= i < |items| => BetweenRow(items[i], left, right))
  }

  /**
   `build_assumption_diff_between(config, left_data, right_data)`: the rows
   in config order, with the same guarantees as `BuildAssumptionDiff`.
   */
  function BuildAssumptionDiffBetween(items: seq<Item>, left: map<string, Value>, right: map<string, Value>)
    : (r: Result<seq<Row>>)
    ensures r.Ok? <==> forall i | 0 <= i < |items| :: BetweenRow(items[i], left, right).Ok?
    ensures r.Err? ==> exists j | 0 <= j < |items| ::
              BetweenRow(items[j], left, right) == Err(r.error) && forall i | 0 <= i < j :: BetweenRow(items[i], left, right).Ok?
    ensures r.Ok? ==> |r.value| == RowsGiven(BetweenRows(items, left, right)) <= |items|
    ensures r.Ok? ==> (r.value == [] <==> forall i | 0 <= i < |items| :: BetweenRow(items[i], left, right) == Ok(None))
    ensures r.Ok? ==> forall i | 0 <= i < |r.value| ::
              exists j | 0 <= j < |items| :: BetweenRow(items[j], left, right) == Ok(Some(r.value[i]))
    ensures r.Ok? ==> forall i | 0 <= i < |r.value| :: Consistent(r.value[i])
  {
    CollectRows(BetweenRows(items, left, right))
  }

  /**
   A row appears exactly when the two values differ; its change is right
   minus left, and its change in percent is relative to left, or None when
   left is zero.
   */
  lemma BetweenRowSpec(item: Item, left: map<string, Value>, right: map<string, Value>,
                       name: string, caption: Value, l: Value, r: Value)
    requires NameAndCaption(item) == Ok((name, caption))
    requires InputOr(left, name, item.default.GetOr(VNone)) == Ok(l)
    requires InputOr(right, name, item.default.GetOr(VNone)) == Ok(r)
    ensures BetweenRow(item, left, right).Ok? ==> (BetweenRow(item, left, right).value.Some? <==> !PyEq(l, r))
    ensures BetweenRow(item, left, right).Ok? && BetweenRow(item, left, right).value.Some? ==>
              var row := BetweenRow(item, left, right).value.value;
              && AsNumber(l) == Some(row.reference) && AsNumber(r) == Some(row.compared)
              && row.change == row.compared - row.reference
              && (row.changePct.None? <==> row.reference == 0.0)
              && (row.changePct.Some? ==> row.changePct.value * row.reference == row.change * 100.0)
  {
  }

  /**
   The `None` half of the guard `left_val not in (0, None)` is never reached:
   a None on the left with a different right value fails on the subtraction
   first.
   */
  lemma BetweenLeftNoneRaises(item: Item, left: map<string, Value>, right: map<string, Value>, name: string, caption: Value, r: Value)
    requires NameAndCaption(item) == Ok((name, caption))
    requires InputOr(left, name, item.default.GetOr(VNone)) == Ok(VNone)
    requires InputOr(right, name, item.default.GetOr(VNone)) == Ok(r)
    requires r != VNone
    ensures BetweenRow(item, left, right) == Err(TypeError)
  {
  }

  /** Comparing a data set with itself gives no rows. */
  lemma BetweenSameIsEmpty(items: seq<Item>, data: map<string, Value>)
    requires BuildAssumptionDiffBetween(items, data, data).Ok?
    ensures BuildAssumptionDiffBetween(items, data, data) == Ok([])
  {
    forall i | 0 <= i < |items| ensures BetweenRow(items[i], data, data) == Ok(None) {
      assert BetweenRow(items[i], data, data).Ok?;
      var nl := NameAndCaption(items[i]).value;
      var l := InputOr(data, nl.0, items[i].default.GetOr(VNone)).value;
      assert PyEq(l, l);
    }
  }
}
