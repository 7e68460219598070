/** JavaScript values as the routes receive them (request bodies, Firestore
    documents) and the JSON values they send back. */
module JsValues {
  import opened Common

  /** A JavaScript number: only finiteness matters to the routes. */
  datatype Number = Finite(r: real) | NonFinite

  /** Objects carry their own enumerable properties in order, plus what
      calling their `toDate()` and `toMillis()` methods does (Firestore
      timestamps have both). A Date holds its time value, `None` when invalid. */
  datatype Value =
    | Undefined
    | Null
    | Bool(b: bool)
    | Num(n: Number)
    | Str(s: string)
    | Arr(items: seq<Value>)
    | Obj(fields: seq<(string, Value)>, toDate: Call, toMillis: Call)
    | DateObj(time: Option<int>)
    | OtherValue(text: string)

  /** A method of an object: absent, throwing, or returning a value. */
  datatype Call = NoMethod | Throws | Returns(v: Value)

  datatype Json =
    | JNull
    | JBool(b: bool)
    | JNum(n: Number)
    | JStr(s: string)
    | JArr(items: seq<Json>)
    | JObj(fields: seq<(string, Json)>)

  function Keys<V>(fields: seq<(string, V)>): (r: seq<string>)
    ensures |r| == |fields|
    ensures forall k | 0 <= k < |fields| :: r[k] == fields[k].0
  {
    if fields == [] then [] else [fields[0].0] + Keys(fields[1..])
  }

  /** The value of the first field named `key`. */
  function Lookup<V>(fields: seq<(string, V)>, key: string): (r: Option<V>)
    ensures r.None? <==> key !in Keys(fields)
  {
    if fields == [] then None
    else if fields[0].0 == key then Some(fields[0].1)
    else Lookup(fields[1..], key)
  }

  /** A key that is found names an entry with the value found. */
  lemma {:induction false} LookupFound<V>(fields: seq<(string, V)>, key: string)
    requires Lookup(fields, key).Some?
    ensures exists i | 0 <= i < |fields| :: fields[i] == (key, Lookup(fields, key).value)
  {
    if fields[0].0 != key {
      LookupFound(fields[1..], key);
      var i :| 0 <= i < |fields[1..]| && fields[1..][i] == (key, Lookup(fields[1..], key).value);
      assert fields[i + 1] == fields[1..][i];
    }
  }

  /** Property assignment `o[key] = v`: an existing key keeps its position. */
  function SetField<V>(fields: seq<(string, V)>, key: string, v: V): (r: seq<(string, V)>)
    ensures Lookup(r, key) == Some(v)
    ensures forall k | k != key :: Lookup(r, k) == Lookup(fields, k)
    ensures key in Keys(fields) ==> Keys(r) == Keys(fields)
    ensures key !in Keys(fields) ==> Keys(r) == Keys(fields) + [key]
  {
    if fields == [] then [(key, v)]
    else if fields[0].0 == key then [(key, v)] + fields[1..]
    else [fields[0]] + SetField(fields[1..], key, v)
  }

  predicate UniqueKeys<V>(fields: seq<(string, V)>) {
    forall i, j | 0 <= i < j < |fields| :: fields[i].0 != fields[j].0
  }

  /** In a field list with unique keys, each entry is what its key looks up. */
  lemma {:induction false} LookupUnique<V>(fields: seq<(string, V)>, i: nat)
    requires UniqueKeys(fields) && i < |fields|
    ensures Lookup(fields, fields[i].0) == Some(fields[i].1)
  {
    if i > 0 {
      assert fields[0].0 != fields[i].0;
      assert fields[1..][i - 1] == fields[i];
      LookupUnique(fields[1..], i - 1);
    }
  }

  /** Assigning a new key appends it. */
  lemma {:induction false} SetFieldAppends<V>(fields: seq<(string, V)>, key: string, v: V)
    requires key !in Keys(fields)
    ensures SetField(fields, key, v) == fields + [(key, v)]
  {
    if fields != [] {
      assert Keys(fields) == [fields[0].0] + Keys(fields[1..]);
      SetFieldAppends(fields[1..], key, v);
    }
  }

  /** Assigning never creates a duplicate key. */
  lemma {:induction false} SetFieldUnique<V>(fields: seq<(string, V)>, key: string, v: V)
    requires UniqueKeys(fields)
    ensures UniqueKeys(SetField(fields, key, v))
  {
    if fields != [] && fields[0].0 != key {
      var rest := fields[1..];
      assert UniqueKeys(rest);
      SetFieldUnique(rest, key, v);
      var t := SetField(rest, key, v);
      var r := SetField(fields, key, v);
      assert r == [fields[0]] + t;
      assert fields[0].0 !in Keys(rest) by {
        forall k | 0 <= k < |rest| ensures Keys(rest)[k] != fields[0].0 {
          assert rest[k] == fields[k + 1];
        }
      }
      assert fields[0].0 !in Keys(t);
      ConsUnique(fields[0], t);
    }
  }

  lemma ConsUnique<V>(x: (string, V), t: seq<(string, V)>)
    requires UniqueKeys(t) && x.0 !in Keys(t)
    ensures UniqueKeys([x] + t)
  {
    var r := [x] + t;
    forall i, j | 0 <= i < j < |r| ensures r[i].0 != r[j].0 {
      if i == 0 {
        assert r[j].0 == Keys(t)[j - 1];
      } else {
        assert r[i] == t[i - 1] && r[j] == t[j - 1];
      }
    }
  }

  /** Object spread: the properties of `fields` assigned in order onto `out`. */
  function SpreadInto<V>(out: seq<(string, V)>, fields: seq<(string, V)>): seq<(string, V)>
    decreases fields
  {
    if fields == [] then out else SpreadInto(SetField(out, fields[0].0, fields[0].1), fields[1..])
  }

  /** After a spread, a key of the spread source has its value there, and
      any other key keeps its value in the target. */
  lemma {:induction false} SpreadIntoLookup<V>(out: seq<(string, V)>, fields: seq<(string, V)>, key: string)
    requires UniqueKeys(fields)
    decreases fields
    ensures Lookup(SpreadInto(out, fields), key)
         == if key in Keys(fields) then Lookup(fields, key) else Lookup(out, key)
  {
    if fields != [] {
      var rest := fields[1..];
      assert UniqueKeys(rest);
      assert Keys(fields) == [fields[0].0] + Keys(rest);
      SpreadIntoLookup(SetField(out, fields[0].0, fields[0].1), rest, key);
      if key == fields[0].0 {
        assert key !in Keys(rest);
      }
    }
  }

  /** A spread onto an object never creates a duplicate key. */
  lemma {:induction false} SpreadIntoUnique<V>(out: seq<(string, V)>, fields: seq<(string, V)>)
    requires UniqueKeys(out)
    ensures UniqueKeys(SpreadInto(out, fields))
    decreases fields
  {
    if fields != [] {
      SetFieldUnique(out, fields[0].0, fields[0].1);
      SpreadIntoUnique(SetField(out, fields[0].0, fields[0].1), fields[1..]);
    }
  }

  /** Elements under their decimal index, as a spread of an array or string
      lists them. */
  function Indexed<T>(xs: seq<T>): (r: seq<(string, T)>)
    ensures |r| == |xs|
    ensures forall i | 0 <= i < |xs| :: r[i] == (NatToString(i), xs[i])
    ensures UniqueKeys(r)
  {
    var r := seq(|xs|, i requires 0 <= i < |xs| => (NatToString(i), xs[i]));
    forall i, j | 0 <= i < j < |r| ensures r[i].0 != r[j].0 {
      NatToStringInjective(i, j);
    }
    r
  }

  function Chars(s: string): (r: seq<Value>)
    ensures |r| == |s|
    ensures forall i | 0 <= i < |s| :: r[i] == Str([s[i]])
  {
    seq(|s|, i requires 0 <= i < |s| => Str([s[i]]))
  }

  /** The own enumerable properties that an object spread `{...v}` copies:
      array elements and string characters under their index, nothing for
      other primitives and dates. */
  function SpreadFields(v: Value): seq<(string, Value)> {
    match v
    case Obj(fields, _, _) => fields
    case Arr(items) => Indexed(items)
    case Str(s) => Indexed(Chars(s))
    case _ => []
  }

  /** `typeof v === 'object'` (which includes `null`). */
  predicate IsObjectType(v: Value) {
    v.Null? || v.Arr? || v.Obj? || v.DateObj?
  }
}
