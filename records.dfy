/**
 * The structured record an asteroid is built from: a JSON value as the JSON library
 * presents it, with the lookups (`at`) and typed reads (`get<T>`) the core performs.
 */
module Records {
  import opened Errors

  /** A JSON value. Numbers of every JSON kind are one `Number`; an object maps each key to one value. */
  datatype Json =
    | Null
    | Bool(b: bool)
    | Number(n: real)
    | Str(s: string)
    | Array(items: seq<Json>)
    | Object(fields: map<string, Json>)

  /** The string-to-number conversion `std::stod`: `None` where it throws. It is not part of this model. */
  type NumParser = string -> Option<real>

  /** `j.at(key)`: the value under `key`; fails when `j` is not an object or lacks the key. */
  function At(j: Json, key: string): (r: Result<Json>)
    ensures r.Ok? <==> j.Object? && key in j.fields
    ensures r.Ok? ==> r.value == j.fields[key]
    ensures !j.Object? ==> r == Err(WrongType(key))
    ensures j.Object? && key !in j.fields ==> r == Err(MissingField(key))
  {
    if !j.Object? then Err(WrongType(key))
    else if key !in j.fields then Err(MissingField(key))
    else Ok(j.fields[key])
  }

  /** A chain of `at` calls, `j.at(path[0]).at(path[1])...`, stopping at the first that fails. */
  function AtPath(j: Json, path: seq<string>): (r: Result<Json>)
    ensures path == [] ==> r == Ok(j)
    decreases |path|
  {
    if path == [] then Ok(j)
    else
      var child :- At(j, path[0]);
      AtPath(child, path[1..])
  }

  /** `AtPath(...).get<std::string>()`. */
  function StringAt(j: Json, path: seq<string>): (r: Result<string>)
    requires path != []
    ensures r.Ok? <==> AtPath(j, path).Ok? && AtPath(j, path).value.Str?
    ensures r.Ok? ==> r.value == AtPath(j, path).value.s
  {
    var v :- AtPath(j, path);
    if v.Str? then Ok(v.s) else Err(WrongType(path[|path| - 1]))
  }

  /** `AtPath(...).get<double>()`: only a JSON number converts. */
  function NumberAt(j: Json, path: seq<string>): (r: Result<real>)
    requires path != []
    ensures r.Ok? <==> AtPath(j, path).Ok? && AtPath(j, path).value.Number?
    ensures r.Ok? ==> r.value == AtPath(j, path).value.n
  {
    var v :- AtPath(j, path);
    if v.Number? then Ok(v.n) else Err(WrongType(path[|path| - 1]))
  }

  /** `AtPath(...).get<bool>()`: only a JSON boolean converts. */
  function BoolAt(j: Json, path: seq<string>): (r: Result<bool>)
    requires path != []
    ensures r.Ok? <==> AtPath(j, path).Ok? && AtPath(j, path).value.Bool?
    ensures r.Ok? ==> r.value == AtPath(j, path).value.b
  {
    var v :- AtPath(j, path);
    if v.Bool? then Ok(v.b) else Err(WrongType(path[|path| - 1]))
  }

  /**
   * The values a range-based `for` visits in `v`: an array's items in order, nothing for null,
   * and a primitive value once, itself. Iterating an object is not modelled and fails as `WrongType(key)`.
   */
  function Elements(v: Json, key: string): (r: Result<seq<Json>>)
    ensures v.Array? ==> r == Ok(v.items)
    ensures v.Null? ==> r == Ok([])
    ensures v.Object? ==> r == Err(WrongType(key))
    ensures (v.Bool? || v.Number? || v.Str?) ==> r == Ok([v])
  {
    match v
    case Array(items) => Ok(items)
    case Null => Ok([])
    case Object(_) => Err(WrongType(key))
    case _ => Ok([v])
  }

  /** `std::stod(text)`; a text it cannot read raises `std::invalid_argument("stod")`. */
  function ParseNumber(text: string, parseNum: NumParser): (r: Result<real>)
    ensures r.Ok? <==> parseNum(text).Some?
    ensures r.Ok? ==> r.value == parseNum(text).value
    ensures r.Err? ==> r.error == InvalidArgument("stod")
  {
    match parseNum(text)
    case Some(x) => Ok(x)
    case None => Err(InvalidArgument("stod"))
  }

  /** A lookup path of one key is a single `at`. */
  lemma {:induction false} AtPathOne(j: Json, k0: string)
    ensures AtPath(j, [k0]) == At(j, k0)
  {
    assert [k0][1..] == [];
    if At(j, k0).Ok? {
      assert AtPath(j, [k0]) == AtPath(j.fields[k0], []);
    }
  }

  /** A lookup path of two keys succeeds exactly when both objects on the way hold their key. */
  lemma {:induction false} AtPathTwo(j: Json, k0: string, k1: string)
    ensures AtPath(j, [k0, k1]).Ok? <==>
              j.Object? && k0 in j.fields && j.fields[k0].Object? && k1 in j.fields[k0].fields
    ensures AtPath(j, [k0, k1]).Ok? ==> AtPath(j, [k0, k1]).value == j.fields[k0].fields[k1]
  {
    assert [k0, k1][1..] == [k1];
    assert [k1][1..] == [];
    if At(j, k0).Ok? {
      var child := j.fields[k0];
      assert AtPath(j, [k0, k1]) == AtPath(child, [k1]);
      if At(child, k1).Ok? {
        assert AtPath(child, [k1]) == AtPath(child.fields[k1], []);
      }
    }
  }

  /** A lookup path of three keys succeeds exactly when the first object holds its key and the two-key rest succeeds below it. */
  lemma {:induction false} AtPathThree(j: Json, k0: string, k1: string, k2: string)
    ensures AtPath(j, [k0, k1, k2]).Ok? <==>
              j.Object? && k0 in j.fields && AtPath(j.fields[k0], [k1, k2]).Ok?
    ensures AtPath(j, [k0, k1, k2]).Ok? ==> AtPath(j, [k0, k1, k2]) == AtPath(j.fields[k0], [k1, k2])
  {
    assert [k0, k1, k2][1..] == [k1, k2];
    if At(j, k0).Ok? {
      assert AtPath(j, [k0, k1, k2]) == AtPath(j.fields[k0], [k1, k2]);
    }
  }

  /**
   * A chain of lookups whose first `i` keys lead to an object lacking key `i` fails there,
   * with `out_of_range` for that key, whatever follows it on the path.
   */
  lemma {:induction false} AtPathMissingKey(j: Json, path: seq<string>, i: nat)
    requires i < |path|
    requires AtPath(j, path[..i]).Ok? && AtPath(j, path[..i]).value.Object?
    requires path[i] !in AtPath(j, path[..i]).value.fields
    ensures AtPath(j, path) == Err(MissingField(path[i]))
    decreases i
  {
    if i == 0 {
      assert path[..0] == [];
    } else {
      assert path[..i][0] == path[0] && path[..i][1..] == path[1..][..i - 1];
      var child := j.fields[path[0]];
      assert AtPath(j, path[..i]) == AtPath(child, path[1..][..i - 1]);
      AtPathMissingKey(child, path[1..], i - 1);
    }
  }

  /** A failed chain of lookups reports a missing or mistyped key, and that key is on its path. */
  lemma {:induction false} AtPathErrorNamesKey(j: Json, path: seq<string>)
    ensures AtPath(j, path).Err? ==> AtPath(j, path).error.MissingField? || AtPath(j, path).error.WrongType?
    ensures AtPath(j, path).Err? ==> AtPath(j, path).error.key in path
    decreases |path|
  {
    if path != [] && At(j, path[0]).Ok? {
      AtPathErrorNamesKey(j.fields[path[0]], path[1..]);
      if AtPath(j, path).Err? {
        var e := AtPath(j.fields[path[0]], path[1..]).error;
        assert e.key in path[1..];
      }
    }
  }
}
