/**
 * The field formatters of src/pgtools.es6.js: element-wise maps over a list of
 * field names (`fields`, `namedParams`, `functionParams`), the update-assignment
 * list (`updateParams`, built on lodash's `_.keys` and `_.intersection`) and the
 * column-alias selection list (`makeSelection`).
 */
module Formatters {
  import opened Text

  /** `fields(arr)`: every field coerced to a string by `'' + field + ''`, which leaves a string as it is. */
  function Fields(arr: seq<string>): (r: seq<string>)
    ensures r == arr
  {
    if arr == [] then [] else
      assert "" + arr[0] + "" == arr[0];
      assert arr == [arr[0]] + arr[1..];
      ["" + arr[0] + ""] + Fields(arr[1..])
  }

  /** `namedParams(arr)`: the named placeholder `:field` for every field, in order. */
  function NamedParams(arr: seq<string>): (r: seq<string>)
    ensures |r| == |arr|
    ensures forall i :: 0 <= i < |arr| ==> r[i] == ":" + arr[i]
  {
    if arr == [] then [] else [":" + arr[0]] + NamedParams(arr[1..])
  }

  /** `functionParams(arr)`: the named argument `_field := :field` for every field, in order. */
  function FunctionParams(arr: seq<string>): (r: seq<string>)
    ensures |r| == |arr|
    ensures forall i :: 0 <= i < |arr| ==> r[i] == "_" + arr[i] + " := :" + arr[i]
  {
    if arr == [] then [] else ["_" + arr[0] + " := :" + arr[0]] + FunctionParams(arr[1..])
  }

  /** Different field lists never give the same placeholders. */
  lemma NamedParamsInjective(a: seq<string>, b: seq<string>)
    requires NamedParams(a) == NamedParams(b)
    ensures a == b
  {
    forall i | 0 <= i < |a|
      ensures a[i] == b[i]
    {
      assert (":" + a[i])[1..] == a[i];
      assert (":" + b[i])[1..] == b[i];
    }
  }

  /** One function argument determines the field it was made from. */
  lemma FunctionParamInjective(f: string, g: string)
    requires "_" + f + " := :" + f == "_" + g + " := :" + g
    ensures f == g
  {
    var s, t := "_" + f + " := :" + f, "_" + g + " := :" + g;
    assert |s| == 2 * |f| + 6 && |t| == 2 * |g| + 6;
    assert s[1..|f| + 1] == f;
    assert t[1..|g| + 1] == g;
  }

  /** Different field lists never give the same function arguments. */
  lemma FunctionParamsInjective(a: seq<string>, b: seq<string>)
    requires FunctionParams(a) == FunctionParams(b)
    ensures a == b
  {
    forall i | 0 <= i < |a|
      ensures a[i] == b[i]
    {
      FunctionParamInjective(a[i], b[i]);
    }
  }

  /** No value occurs twice. */
  predicate Distinct(s: seq<string>)
  {
    forall i, j :: 0 <= i < j < |s| ==> s[i] != s[j]
  }

  /** `_.keys(object)`: the keys of an object, in insertion order. */
  function Keys<V>(entries: seq<(string, V)>): (keys: seq<string>)
    ensures |keys| == |entries|
    ensures forall i :: 0 <= i < |entries| ==> keys[i] == entries[i].0
  {
    seq(|entries|, i requires 0 <= i < |entries| => entries[i].0)
  }

  /**
   * lodash's `_.intersection(a, b)`: one pass over `a` that appends each value
   * found in `b` and not yet in the result. (lodash also stops once the result is
   * as long as the shorter input; by then no further value could be appended.)
   */
  function IntersectionFrom(a: seq<string>, b: seq<string>, result: seq<string>): (r: seq<string>)
    ensures forall x :: x in r <==> x in result || (x in a && x in b)
    ensures Distinct(result) ==> Distinct(r)
    decreases |a|
  {
    if a == [] then result
    else if a[0] !in result && a[0] in b then IntersectionFrom(a[1..], b, result + [a[0]])
    else IntersectionFrom(a[1..], b, result)
  }

  /** `_.intersection(a, b)`: the values common to both, each once. */
  function Intersection(a: seq<string>, b: seq<string>): (r: seq<string>)
    ensures forall x :: x in r <==> x in a && x in b
    ensures Distinct(r)
  {
    IntersectionFrom(a, b, [])
  }

  /** Reference definition: the values of `a` that occur in `b`, in the order of `a`. */
  function Filter(a: seq<string>, b: seq<string>): seq<string>
  {
    if a == [] then [] else (if a[0] in b then [a[0]] else []) + Filter(a[1..], b)
  }

  lemma {:induction false} IntersectionFromDistinct(a: seq<string>, b: seq<string>, result: seq<string>)
    requires Distinct(a)
    requires forall x :: x in a ==> x !in result
    ensures IntersectionFrom(a, b, result) == result + Filter(a, b)
  {
    if a != [] {
      var x, rest := a[0], a[1..];
      assert Distinct(rest) by {
        forall i, j | 0 <= i < j < |rest| ensures rest[i] != rest[j] {
          assert rest[i] == a[i + 1] && rest[j] == a[j + 1];
        }
      }
      assert x !in rest by {
        forall i | 0 <= i < |rest| ensures rest[i] != x {
          assert rest[i] == a[i + 1];
        }
      }
      assert x !in result;
      if x in b {
        assert forall y :: y in rest ==> y !in result + [x];
        IntersectionFromDistinct(rest, b, result + [x]);
        assert Filter(a, b) == [x] + Filter(rest, b);
        assert result + [x] + Filter(rest, b) == result + Filter(a, b);
      } else {
        assert forall y :: y in rest ==> y in a;
        IntersectionFromDistinct(rest, b, result);
        assert Filter(a, b) == Filter(rest, b);
      }
    }
  }

  /** With distinct values in `a` (as an object's keys are), the intersection keeps `a`'s order. */
  lemma IntersectionFollowsFirst(a: seq<string>, b: seq<string>)
    requires Distinct(a)
    ensures Intersection(a, b) == Filter(a, b)
  {
    IntersectionFromDistinct(a, b, []);
  }

  /** The assignment `field = :field`: the field, ` = :`, the field again; it holds a comma only where the field does. */
  function Assignment(field: string): (a: string)
    ensures |a| == 2 * |field| + 4
    ensures a[..|field|] == field && a[|field|..|field| + 4] == " = :" && a[|field| + 4..] == field
    ensures ',' in a <==> ',' in field
  {
    field + " = :" + field
  }

  function Assignments(params: seq<string>): seq<string>
  {
    seq(|params|, i requires 0 <= i < |params| => Assignment(params[i]))
  }

  /** A join of assignments is empty exactly when there are none. */
  lemma AssignmentsJoinEmpty(params: seq<string>)
    ensures Join(Assignments(params), ',') == "" <==> params == []
  {
    var parts := Assignments(params);
    forall k | 0 <= k < |parts|
      ensures parts[k] != ""
    {
      assert |parts[k]| >= 4;
    }
    JoinEmpty(parts, ',');
  }

  /** No key of `data` survives the intersection exactly when no key is allowed. */
  lemma NoAllowedKey<V>(data: seq<(string, V)>, fields: seq<string>)
    ensures Intersection(Keys(data), fields) == [] <==> forall i :: 0 <= i < |data| ==> data[i].0 !in fields
  {
    var keys := Keys(data);
    var params := Intersection(keys, fields);
    if params != [] {
      assert params[0] in keys;
    } else {
      forall i | 0 <= i < |data|
        ensures data[i].0 !in fields
      {
        assert data[i].0 == keys[i];
      }
    }
  }

  /**
   * `updateParams(data, fields)`: the assignments for the keys of `data` that
   * `fields` allows, joined by commas; "" exactly when no key is allowed.
   */
  function UpdateParams<V>(data: seq<(string, V)>, fields: seq<string>): (r: string)
    ensures r == "" <==> forall i :: 0 <= i < |data| ==> data[i].0 !in fields
  {
    var params := Intersection(Keys(data), fields);
    AssignmentsJoinEmpty(params);
    NoAllowedKey(data, fields);
    Join(Assignments(params), ',')
  }

  /**
   * For an object (distinct keys), `updateParams` is the assignments of the
   * allowed keys in the object's key order, joined by commas.
   */
  lemma UpdateParamsOrder<V>(data: seq<(string, V)>, fields: seq<string>)
    requires Distinct(Keys(data))
    ensures UpdateParams(data, fields) == Join(Assignments(Filter(Keys(data), fields)), ',')
  {
    IntersectionFollowsFirst(Keys(data), fields);
  }

  /**
   * When at least one key is allowed and no allowed key holds a comma (keys the
   * allow-list drops may hold anything), splitting `updateParams` at the commas
   * gives exactly the assignments of the allowed keys, each once: no empty
   * piece, so no trailing comma.
   */
  lemma UpdateParamsSplit<V>(data: seq<(string, V)>, fields: seq<string>)
    requires forall i :: 0 <= i < |data| && data[i].0 in fields ==> ',' !in data[i].0
    requires exists i :: 0 <= i < |data| && data[i].0 in fields
    ensures Split(UpdateParams(data, fields), ',') == Assignments(Intersection(Keys(data), fields))
  {
    var keys := Keys(data);
    var params := Intersection(keys, fields);
    var i :| 0 <= i < |data| && data[i].0 in fields;
    assert keys[i] in params;
    var parts := Assignments(params);
    forall k | 0 <= k < |parts|
      ensures ',' !in parts[k]
    {
      var f := params[k];
      assert f in keys && f in fields;
      var j :| 0 <= j < |keys| && keys[j] == f;
      assert ',' !in f;
      assert parts[k] == Assignment(f);
    }
    SplitJoin(parts, ',');
  }

  /** Filtering three distinct keys by the first and the last keeps those two, in order. */
  lemma FilterFirstAndLast(x: string, y: string, z: string)
    requires x != y && y != z && x != z
    ensures Filter([x, y, z], [x, z]) == [x, z]
  {
    assert [x, y, z][1..] == [y, z] && [y, z][1..] == [z] && [z][1..] == [];
    assert y !in [x, z] && z in [x, z] && x in [x, z];
    assert Filter([z], [x, z]) == [z] + Filter([], [x, z]) == [z];
    assert Filter([y, z], [x, z]) == [] + Filter([z], [x, z]) == [z];
    assert Filter([x, y, z], [x, z]) == [x] + Filter([y, z], [x, z]);
  }

  /** Two assignments joined by commas: `f = :f,g = :g`. */
  lemma JoinTwoAssignments(f: string, g: string)
    ensures Join(Assignments([f, g]), ',') == f + " = :" + f + "," + g + " = :" + g
  {
    var parts := Assignments([f, g]);
    assert parts == [Assignment(f), Assignment(g)];
    assert parts[1..] == [Assignment(g)];
  }

  /** Three distinct keys of which the first and the last are allowed give their two assignments, in key order. */
  lemma UpdateParamsFirstAndLast<V>(x: string, y: string, z: string, vx: V, vy: V, vz: V)
    requires x != y && y != z && x != z
    ensures UpdateParams([(x, vx), (y, vy), (z, vz)], [x, z]) == x + " = :" + x + "," + z + " = :" + z
  {
    var data := [(x, vx), (y, vy), (z, vz)];
    assert Keys(data) == [x, y, z];
    UpdateParamsOrder(data, [x, z]);
    FilterFirstAndLast(x, y, z);
    JoinTwoAssignments(x, z);
  }

  /** The example of the module's documentation: `updateParams({a:1,b:2,c:3}, ["a","c"])`. */
  lemma UpdateParamsExample()
    ensures UpdateParams([("a", 1), ("b", 2), ("c", 3)], ["a", "c"]) == "a = :a,c = :c"
  {
    var a, b, c := "a", "b", "c";
    assert a[0] != b[0] && b[0] != c[0] && a[0] != c[0];
    UpdateParamsFirstAndLast(a, b, c, 1, 2, 3);
    assert a + " = :" + a + "," + c + " = :" + c == "a = :a,c = :c";
  }

  /** The selection item `val AS "key"`: it holds a comma only where the key or the expression does. */
  function SelectionItem(key: string, val: string): (item: string)
    ensures |item| == |val| + |key| + 6
    ensures item[..|val|] == val && item[|val|..|val| + 5] == " AS \""
    ensures item[|val| + 5..|val| + 5 + |key|] == key && item[|item| - 1] == '"'
    ensures ',' in item <==> ',' in key || ',' in val
  {
    val + " AS \"" + key + "\""
  }

  function SelectionItems(selection: seq<(string, string)>): seq<string>
  {
    seq(|selection|, i requires 0 <= i < |selection| => SelectionItem(selection[i].0, selection[i].1))
  }

  /**
   * `makeSelection(selection)`: walks the entries in order, pushing one
   * `val AS "key"` item per entry, and joins the items with commas.
   */
  method MakeSelection(selection: seq<(string, string)>) returns (r: string)
    ensures r == Join(SelectionItems(selection), ',')
    ensures r == "" <==> selection == []
  {
    var arr: seq<string> := [];
    for i := 0 to |selection|
      invariant |arr| == i
      invariant forall j :: 0 <= j < i ==> arr[j] == SelectionItem(selection[j].0, selection[j].1)
    {
      var (key, val) := selection[i];
      arr := arr + [val + " AS \"" + key + "\""];
    }
    assert arr == SelectionItems(selection);
    forall k | 0 <= k < |arr|
      ensures arr[k] != ""
    {
      assert |arr[k]| >= 5;
    }
    JoinEmpty(arr, ',');
    r := Join(arr, ',');
  }

  /** When neither keys nor expressions hold a comma, the selection splits back into one item per entry, in order. */
  lemma SelectionSplit(selection: seq<(string, string)>)
    requires selection != []
    requires forall i :: 0 <= i < |selection| ==> ',' !in selection[i].0 && ',' !in selection[i].1
    ensures Split(Join(SelectionItems(selection), ','), ',') == SelectionItems(selection)
  {
    var items := SelectionItems(selection);
    forall k | 0 <= k < |items|
      ensures ',' !in items[k]
    {
      assert items[k] == selection[k].1 + " AS \"" + selection[k].0 + "\"";
    }
    SplitJoin(items, ',');
  }
}
