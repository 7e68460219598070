/** The tasks listing route: `toIsoStringMaybe`, the recursive
    `serializeToJson` normaliser, the `includeCompleted` / `limit` query
    parameters, and the shaping and ordering of the returned tasks. ISO-8601
    formatting of a valid time value is the parameter `iso`; `Date.parse` is
    the parameter `parse`; `Number(text)` is the parameter `toNumber`. */
module TasksApi {
  import opened Common
  import opened JsValues
  import opened AppErrors
  import opened Sorting

  /** The largest magnitude of a valid Date time value, in milliseconds. */
  const MaxTime: real := 8640000000000000.0
  const InvalidTime := "Invalid time value"

  /** Truncation toward zero. */
  function Trunc(r: real): (n: int)
    ensures r >= 0.0 ==> n as real <= r < n as real + 1.0
    ensures r < 0.0 ==> n as real - 1.0 < r <= n as real
  {
    if r >= 0.0 then r.Floor else -((-r).Floor)
  }

  /** `new Date(ms)`: the TimeClip of the value, `None` for an invalid date. */
  function TimeClip(n: Number): (t: Option<int>)
    ensures t.Some? <==> n.Finite? && -MaxTime <= n.r <= MaxTime
    ensures t.Some? ==> t.value == Trunc(n.r)
  {
    if n.Finite? && -MaxTime <= n.r <= MaxTime then Some(Trunc(n.r)) else None
  }

  function TimesThousand(n: Number): Number {
    if n.Finite? then Finite(n.r * 1000.0) else NonFinite
  }

  /** What `toDate()` yields when it is a valid Date; a throw, a non-Date or an
      invalid Date (whose `toISOString` throws inside the `try`) yields nothing. */
  function FromToDate(c: Call): Option<int> {
    if c.Returns? && c.v.DateObj? then c.v.time else None
  }

  /** What `toMillis()` yields when it is a finite number naming a valid time. */
  function FromToMillis(c: Call): Option<int> {
    if c.Returns? && c.v.Num? then TimeClip(c.v.n) else None
  }

  /** `toIsoStringMaybe`: an `Err` is the RangeError of an invalid Date that is
      not caught (a Date value, or a numeric `seconds` field). */
  function ToIsoStringMaybe(v: Value, iso: int -> string): (r: Result<Value, string>)
    ensures v.Undefined? || v.Null? ==> r == Ok(Null)
    ensures v.Str? || v.Num? || v.Bool? || v.Arr? || v.OtherValue? ==> r == Ok(v)
    ensures v.DateObj? ==> r == (if v.time.Some? then Ok(Str(iso(v.time.value))) else Err(InvalidTime))
    ensures r.Err? ==> r.error == InvalidTime
    ensures r.Ok? ==> r.value == v || r.value.Null? || r.value.Str?
  {
    match v
    case Undefined => Ok(Null)
    case Null => Ok(Null)
    case DateObj(t) => if t.Some? then Ok(Str(iso(t.value))) else Err(InvalidTime)
    case Obj(fields, toDate, toMillis) =>
      if FromToDate(toDate).Some? then Ok(Str(iso(FromToDate(toDate).value)))
      else if FromToMillis(toMillis).Some? then Ok(Str(iso(FromToMillis(toMillis).value)))
      else
        var seconds: Option<Value> := Lookup(fields, "seconds");
        (match seconds
         case Some(Num(n)) =>
           var t := TimeClip(TimesThousand(n));
           if t.Some? then Ok(Str(iso(t.value))) else Err(InvalidTime)
         case _ => Ok(v))
    case _ => Ok(v)
  }

  /** `serializeToJson`, as a specification. Object entries are assigned one
      by one into a fresh object, so a repeated key keeps its first position
      and its last value. */
  function Serialized(v: Value, iso: int -> string): (r: Result<Json, string>)
    ensures r.Err? ==> r.error == InvalidTime
    decreases v, 1
  {
    var n := ToIsoStringMaybe(v, iso);
    if n.Err? then Err(n.error)
    else
      match n.value
      case Undefined => Ok(JNull)
      case Null => Ok(JNull)
      case Str(s) => Ok(JStr(s))
      case Num(x) => Ok(JNum(x))
      case Bool(b) => Ok(JBool(b))
      case Arr(_) =>
        var items := SerializedItems(v.items, iso);
        if items.Err? then Err(items.error) else Ok(JArr(items.value))
      case Obj(_, _, _) =>
        var out := SerializedFields(v.fields, [], iso);
        if out.Err? then Err(out.error) else Ok(JObj(out.value))
      case DateObj(_) => Ok(JObj([]))
      case OtherValue(text) => Ok(JStr(text))
  }

  /** `normalized.map(serializeToJson)`: the first failure aborts the map. */
  function SerializedItems(items: seq<Value>, iso: int -> string): (r: Result<seq<Json>, string>)
    ensures r.Ok? ==> |r.value| == |items|
    ensures r.Ok? ==> forall i | 0 <= i < |items| :: Serialized(items[i], iso) == Ok(r.value[i])
    ensures r.Err? <==> exists i | 0 <= i < |items| :: Serialized(items[i], iso).Err?
    ensures r.Err? ==> r.error == InvalidTime
    decreases items, 0
  {
    if items == [] then Ok([])
    else
      var head := Serialized(items[0], iso);
      var tail := SerializedItems(items[1..], iso);
      if head.Err? then Err(head.error)
      else if tail.Err? then
        var i :| 0 <= i < |items[1..]| && Serialized(items[1..][i], iso).Err?;
        assert Serialized(items[i + 1], iso).Err?;
        Err(tail.error)
      else
        var r := [head.value] + tail.value;
        assert forall i | 0 < i < |items| :: items[i] == items[1..][i - 1];
        Ok(r)
  }

  /** The `for … of Object.entries(obj)` loop, from the partial object `out`. */
  function SerializedFields(fields: seq<(string, Value)>, out: seq<(string, Json)>, iso: int -> string)
    : (r: Result<seq<(string, Json)>, string>)
    ensures r.Err? ==> r.error == InvalidTime
    decreases fields, 0
  {
    if fields == [] then Ok(out)
    else
      var entry := fields[0];
      assert entry.1 < entry;
      var head := Serialized(entry.1, iso);
      if head.Err? then Err(head.error)
      else SerializedFields(fields[1..], SetField(out, entry.0, head.value), iso)
  }

  /** `serializeToJson` as the route runs it: recursion into arrays, and a loop
      over the entries of an object. */
  method SerializeToJson(v: Value, iso: int -> string) returns (r: Result<Json, string>)
    ensures r == Serialized(v, iso)
    decreases v
  {
    var n := ToIsoStringMaybe(v, iso);
    if n.Err? {
      return Err(n.error);
    }
    match n.value {
      case Arr(_) =>
        var items := v.items;
        var acc: seq<Json> := [];
        var i := 0;
        while i < |items|
          invariant 0 <= i <= |items| && |acc| == i
          invariant forall k | 0 <= k < i :: Serialized(items[k], iso) == Ok(acc[k])
          decreases |items| - i
        {
          var x := SerializeToJson(items[i], iso);
          if x.Err? {
            assert SerializedItems(items, iso).Err?;
            return x;
          }
          acc := acc + [x.value];
          i := i + 1;
        }
        var all := SerializedItems(items, iso);
        assert all.Ok? && all.value == acc;
        r := Ok(JArr(acc));
      case Obj(_, _, _) =>
        var fields := v.fields;
        var out: seq<(string, Json)> := [];
        var i := 0;
        while i < |fields|
          invariant 0 <= i <= |fields|
          invariant SerializedFields(fields, [], iso) == SerializedFields(fields[i..], out, iso)
          decreases |fields| - i
        {
          assert fields[i..][1..] == fields[i + 1..];
          var x := SerializeToJson(fields[i].1, iso);
          if x.Err? {
            return x;
          }
          out := SetField(out, fields[i].0, x.value);
          i := i + 1;
        }
        r := Ok(JObj(out));
      case _ =>
        r := Serialized(v, iso);
    }
  }

  // ---------------------------------------------------------------------------
  // What the normaliser guarantees

  /** The keys of the serialised object are those of the source and of the
      partial object, each once. */
  lemma {:induction false} SerializedFieldsKeys(fields: seq<(string, Value)>, out: seq<(string, Json)>, iso: int -> string)
    requires SerializedFields(fields, out, iso).Ok?
    requires UniqueKeys(out)
    ensures var r := SerializedFields(fields, out, iso).value;
      UniqueKeys(r) && forall k :: k in Keys(r) <==> k in Keys(out) || k in Keys(fields)
    decreases fields
  {
    if fields != [] {
      var entry := fields[0];
      var head := Serialized(entry.1, iso);
      var next := SetField(out, entry.0, head.value);
      SetFieldUnique(out, entry.0, head.value);
      SerializedFieldsKeys(fields[1..], next, iso);
      assert Keys(fields) == [entry.0] + Keys(fields[1..]);
    }
  }

  /** An object that is not a date-like value keeps exactly its key set. */
  lemma ObjectKeysPreserved(v: Value, iso: int -> string)
    requires v.Obj? && ToIsoStringMaybe(v, iso) == Ok(v) && Serialized(v, iso).Ok?
    ensures Serialized(v, iso).value.JObj?
    ensures UniqueKeys(Serialized(v, iso).value.fields)
    ensures forall k :: k in Keys(Serialized(v, iso).value.fields) <==> k in Keys(v.fields)
  {
    SerializedFieldsKeys(v.fields, [], iso);
  }

  /** An array keeps its length and order, element by element. */
  lemma ArrayShapePreserved(v: Value, iso: int -> string)
    requires v.Arr? && Serialized(v, iso).Ok?
    ensures Serialized(v, iso).value.JArr?
    ensures |Serialized(v, iso).value.items| == |v.items|
    ensures forall i | 0 <= i < |v.items| :: Serialized(v.items[i], iso) == Ok(Serialized(v, iso).value.items[i])
  {
    assert ToIsoStringMaybe(v, iso) == Ok(v);
  }

  /** A numeric `seconds` field turns a plain object into the ISO string of
      `seconds * 1000` milliseconds, or fails when that time is out of range. */
  lemma SecondsBecomeDate(fields: seq<(string, Value)>, secs: real, iso: int -> string)
    requires Lookup(fields, "seconds") == Some(Num(Finite(secs)))
    ensures -MaxTime <= secs * 1000.0 <= MaxTime ==>
      Serialized(Obj(fields, NoMethod, NoMethod), iso) == Ok(JStr(iso(Trunc(secs * 1000.0))))
    ensures !(-MaxTime <= secs * 1000.0 <= MaxTime) ==>
      Serialized(Obj(fields, NoMethod, NoMethod), iso) == Err(InvalidTime)
  {
  }

  // Plain JSON is left as it is.

  function FromJson(j: Json): (v: Value)
    ensures v.Num? <==> j.JNum?
    ensures v.Obj? ==> v.toDate.NoMethod? && v.toMillis.NoMethod?
    decreases j, 1
  {
    match j
    case JNull => Null
    case JBool(b) => Bool(b)
    case JNum(n) => Num(n)
    case JStr(s) => Str(s)
    case JArr(items) => Arr(FromJsonItems(items))
    case JObj(fields) => Obj(FromJsonFields(fields), NoMethod, NoMethod)
  }

  function FromJsonItems(items: seq<Json>): (r: seq<Value>)
    ensures |r| == |items|
    ensures forall i | 0 <= i < |items| :: r[i] == FromJson(items[i])
    decreases items, 0
  {
    if items == [] then [] else [FromJson(items[0])] + FromJsonItems(items[1..])
  }

  function FromJsonFields(fields: seq<(string, Json)>): (r: seq<(string, Value)>)
    ensures Keys(r) == Keys(fields)
    decreases fields, 0
  {
    if fields == [] then []
    else
      var entry := fields[0];
      assert entry.1 < entry;
      [(entry.0, FromJson(entry.1))] + FromJsonFields(fields[1..])
  }

  lemma {:induction false} FromJsonFieldsAt(fields: seq<(string, Json)>, i: nat)
    requires i < |fields|
    ensures FromJsonFields(fields)[i] == (fields[i].0, FromJson(fields[i].1))
  {
    if i > 0 {
      FromJsonFieldsAt(fields[1..], i - 1);
    }
  }

  /** JSON whose objects have distinct keys and no numeric `seconds` field. */
  predicate PlainJson(j: Json)
    decreases j
  {
    match j
    case JArr(items) => forall x | x in items :: PlainJson(x)
    case JObj(fields) =>
      UniqueKeys(fields)
      && (forall i | 0 <= i < |fields| :: fields[i].0 == "seconds" ==> !fields[i].1.JNum?)
      && forall e | e in fields :: PlainJson(e.1)
    case _ => true
  }

  /** The normaliser is the identity on plain JSON. */
  lemma {:induction false} PlainJsonUnchanged(j: Json, iso: int -> string)
    requires PlainJson(j)
    ensures Serialized(FromJson(j), iso) == Ok(j)
    decreases j, 2
  {
    match j
    case JArr(items) =>
      PlainItemsUnchanged(items, iso);
    case JObj(fields) =>
      PlainObjectUnchanged(fields, iso);
    case _ =>
  }

  lemma {:induction false} PlainObjectUnchanged(fields: seq<(string, Json)>, iso: int -> string)
    requires PlainJson(JObj(fields))
    ensures Serialized(FromJson(JObj(fields)), iso) == Ok(JObj(fields))
    decreases fields, 1
  {
    var v := Obj(FromJsonFields(fields), NoMethod, NoMethod);
    PlainObjectNotDateLike(fields, iso);
    assert [] + fields == fields;
    PlainFieldsUnchanged(fields, [], iso);
    assert Serialized(v, iso) == Ok(JObj(fields));
  }

  lemma NoSecondsNotDateLike(fs: seq<(string, Value)>, iso: int -> string)
    requires var seconds: Option<Value> := Lookup(fs, "seconds"); seconds.None? || !seconds.value.Num?
    ensures ToIsoStringMaybe(Obj(fs, NoMethod, NoMethod), iso) == Ok(Obj(fs, NoMethod, NoMethod))
  {
  }

  /** A plain object has no date-like reading. */
  lemma PlainObjectNotDateLike(fields: seq<(string, Json)>, iso: int -> string)
    requires forall i | 0 <= i < |fields| :: fields[i].0 == "seconds" ==> !fields[i].1.JNum?
    ensures var v := Obj(FromJsonFields(fields), NoMethod, NoMethod); ToIsoStringMaybe(v, iso) == Ok(v)
  {
    var fs := FromJsonFields(fields);
    var seconds: Option<Value> := Lookup(fs, "seconds");
    if seconds.Some? {
      LookupFound(fs, "seconds");
      var i :| 0 <= i < |fs| && fs[i] == ("seconds", seconds.value);
      FromJsonFieldsAt(fields, i);
      assert !seconds.value.Num?;
    }
    NoSecondsNotDateLike(fs, iso);
  }

  lemma {:induction false} PlainItemsUnchanged(items: seq<Json>, iso: int -> string)
    requires forall x | x in items :: PlainJson(x)
    ensures SerializedItems(FromJsonItems(items), iso) == Ok(items)
    decreases items, 1
  {
    var vs := FromJsonItems(items);
    forall i | 0 <= i < |items| ensures Serialized(vs[i], iso) == Ok(items[i]) {
      assert items[i] in items;
      PlainJsonUnchanged(items[i], iso);
    }
    var r := SerializedItems(vs, iso);
    assert r.Ok?;
    assert r.value == items;
  }

  lemma {:induction false} PlainFieldsUnchanged(fields: seq<(string, Json)>, out: seq<(string, Json)>, iso: int -> string)
    requires UniqueKeys(out + fields) && forall e | e in fields :: PlainJson(e.1)
    ensures SerializedFields(FromJsonFields(fields), out, iso) == Ok(out + fields)
    decreases fields, 0
  {
    if fields != [] {
      var entry := fields[0];
      assert entry in fields;
      assert entry.1 < entry;
      PlainJsonUnchanged(entry.1, iso);
      var next := PlainFieldStep(fields, out, iso);
      assert forall e | e in fields[1..] :: e in fields;
      PlainFieldsUnchanged(fields[1..], next, iso);
    } else {
      assert out + fields == out;
    }
  }

  /** One turn of the entry loop on a plain field appends it unchanged. */
  lemma PlainFieldStep(fields: seq<(string, Json)>, out: seq<(string, Json)>, iso: int -> string)
    returns (next: seq<(string, Json)>)
    requires fields != [] && UniqueKeys(out + fields)
    requires Serialized(FromJson(fields[0].1), iso) == Ok(fields[0].1)
    ensures next + fields[1..] == out + fields
    ensures SerializedFields(FromJsonFields(fields), out, iso)
         == SerializedFields(FromJsonFields(fields[1..]), next, iso)
  {
    var entry := fields[0];
    next := out + [entry];
    assert next + fields[1..] == out + fields;
    NextKeyIsNew(out, fields);
    SetFieldAppends(out, entry.0, entry.1);
    var vs := FromJsonFields(fields);
    assert vs[0] == (entry.0, FromJson(entry.1)) && vs[1..] == FromJsonFields(fields[1..]);
    SerializedFieldsStep(vs, out, iso);
  }

  lemma SerializedFieldsStep(fields: seq<(string, Value)>, out: seq<(string, Json)>, iso: int -> string)
    requires fields != [] && Serialized(fields[0].1, iso).Ok?
    ensures SerializedFields(fields, out, iso)
         == SerializedFields(fields[1..], SetField(out, fields[0].0, Serialized(fields[0].1, iso).value), iso)
  {
  }

  /** With distinct keys, the next entry's key is not yet in the object. */
  lemma NextKeyIsNew(out: seq<(string, Json)>, fields: seq<(string, Json)>)
    requires fields != [] && UniqueKeys(out + fields)
    ensures fields[0].0 !in Keys(out)
  {
    forall i | 0 <= i < |out| ensures Keys(out)[i] != fields[0].0 {
      assert (out + fields)[i].0 != (out + fields)[|out|].0;
    }
  }

  // ---------------------------------------------------------------------------
  // GET /api/tasks

  /** The URL's search parameters in order; `get` returns the first value. */
  type SearchParams = seq<(string, string)>

  function Param(q: SearchParams, name: string): Option<string> {
    Lookup(q, name)
  }

  /** `includeCompleted`: '1' or 'true' under either name, or completed=all. */
  predicate IncludeCompleted(q: SearchParams) {
    Param(q, "includeCompleted") in {Some("1"), Some("true")}
    || Param(q, "showCompleted") in {Some("1"), Some("true")}
    || Param(q, "completed") == Some("all")
  }

  /** What the route asks Firestore for: only open tasks, and how many. */
  datatype TaskQuery = TaskQuery(openOnly: bool, limit: real)

  const DefaultLimit: real := 100.0
  const MaxLimit: real := 500.0
  const LimitError := "Invalid limit. Must be between 1 and 500."

  /** `Number(limitParam)` when the parameter is a non-empty string, else 100;
      anything not finite, not positive or above 500 is refused. */
  function PlanQuery(q: SearchParams, toNumber: string -> Number): (r: Result<TaskQuery, AppError>)
    ensures !Truthy(Param(q, "limit")) ==> r == Ok(TaskQuery(!IncludeCompleted(q), DefaultLimit))
    ensures Truthy(Param(q, "limit")) ==>
      var n := toNumber(Param(q, "limit").value);
      (r.Ok? <==> n.Finite? && 0.0 < n.r <= MaxLimit) && (r.Ok? ==> r.value.limit == n.r)
    ensures r.Ok? ==> 0.0 < r.value.limit <= MaxLimit && r.value.openOnly == !IncludeCompleted(q)
    ensures r.Err? ==> r.error == NewValidationError(LimitError)
  {
    var limitParam := Param(q, "limit");
    var limit := if Truthy(limitParam) then toNumber(limitParam.value) else Finite(DefaultLimit);
    if !limit.Finite? || limit.r <= 0.0 || limit.r > MaxLimit then Err(NewValidationError(LimitError))
    else Ok(TaskQuery(!IncludeCompleted(q), limit.r))
  }

  /** The properties `{ ...x }` copies from a serialised value. */
  function JsonSpread(j: Json): seq<(string, Json)> {
    match j
    case JObj(fields) => fields
    case JArr(items) => Indexed(items)
    case JStr(s) => Indexed(seq(|s|, i requires 0 <= i < |s| => JStr([s[i]])))
    case _ => []
  }

  /** Whatever the normaliser returns, its spread has each key once. */
  lemma SerializedSpreadUnique(v: Value, iso: int -> string)
    requires Serialized(v, iso).Ok?
    ensures UniqueKeys(JsonSpread(Serialized(v, iso).value))
  {
    var n := ToIsoStringMaybe(v, iso).value;
    if n.Obj? {
      SerializedFieldsKeys(v.fields, [], iso);
    }
  }

  type Task = seq<(string, Json)>

  /** `{ id: d.id, ...serializeToJson(raw) }` */
  function TaskOf(docId: string, raw: Value, iso: int -> string): (r: Result<Task, string>)
    ensures r.Err? <==> Serialized(raw, iso).Err?
    ensures r.Ok? ==>
      var spread := JsonSpread(Serialized(raw, iso).value);
      && Lookup(r.value, "id") == (if "id" in Keys(spread) then Lookup(spread, "id") else Some(JStr(docId)))
      && forall k | k != "id" :: Lookup(r.value, k) == Lookup(spread, k)
  {
    var j := Serialized(raw, iso);
    if j.Err? then Err(j.error)
    else
      var spread := JsonSpread(j.value);
      var task := SpreadInto([("id", JStr(docId))], spread);
      SerializedSpreadUnique(raw, iso);
      assert forall k :: Lookup(task, k) == if k in Keys(spread) then Lookup(spread, k) else Lookup([("id", JStr(docId))], k)
        by {
        forall k {
          SpreadIntoLookup([("id", JStr(docId))], spread, k);
        }
      }
      Ok(task)
  }

  /** A stored `id` field overrides the document id. */
  lemma StoredIdWins(docId: string, fields: seq<(string, Value)>, storedId: string, iso: int -> string)
    requires UniqueKeys(fields)
    requires ToIsoStringMaybe(Obj(fields, NoMethod, NoMethod), iso) == Ok(Obj(fields, NoMethod, NoMethod))
    requires Lookup(fields, "id") == Some(Str(storedId))
    requires Serialized(Obj(fields, NoMethod, NoMethod), iso).Ok?
    ensures TaskOf(docId, Obj(fields, NoMethod, NoMethod), iso).Ok?
    ensures Lookup(TaskOf(docId, Obj(fields, NoMethod, NoMethod), iso).value, "id") == Some(JStr(storedId))
  {
    var v := Obj(fields, NoMethod, NoMethod);
    var out := SerializedFields(fields, [], iso);
    assert Serialized(v, iso) == Ok(JObj(out.value));
    SerializedFieldsLookup(fields, [], iso, "id");
    assert Lookup(out.value, "id") == Some(JStr(storedId));
    var spread := JsonSpread(Serialized(v, iso).value);
    assert spread == out.value;
    assert "id" in Keys(spread);
  }

  /** With distinct keys, each key of the source object maps to its own
      serialised value, and any other key keeps what the partial object had. */
  lemma {:induction false} SerializedFieldsLookup(fields: seq<(string, Value)>, out: seq<(string, Json)>, iso: int -> string, key: string)
    requires SerializedFields(fields, out, iso).Ok? && UniqueKeys(fields)
    ensures var sv: Option<Value> := Lookup(fields, key);
      var r := SerializedFields(fields, out, iso).value;
      && (sv.Some? ==> Serialized(sv.value, iso).Ok? && Lookup(r, key) == Some(Serialized(sv.value, iso).value))
      && (sv.None? ==> Lookup(r, key) == Lookup(out, key))
    decreases fields
  {
    if fields != [] {
      var entry := fields[0];
      var rest := fields[1..];
      var head := Serialized(entry.1, iso);
      var next := SetField(out, entry.0, head.value);
      assert SerializedFields(fields, out, iso) == SerializedFields(rest, next, iso);
      assert UniqueKeys(rest);
      SerializedFieldsLookup(rest, next, iso, key);
      if key == entry.0 {
        assert key !in Keys(rest) by {
          forall k | 0 <= k < |rest| ensures Keys(rest)[k] != key {
            assert fields[k + 1].0 != fields[0].0;
          }
        }
      }
    }
  }

  /** Date.parse of a string `createdAt`, else 0. */
  function CreatedAt(t: Task, parse: string -> int): int {
    var c: Option<Json> := Lookup(t, "createdAt");
    if c.Some? && c.value.JStr? then parse(c.value.s) else 0
  }

  /** The comparator `bCreated - aCreated`: newest first. */
  function NewestFirst(parse: string -> int): (Task, Task) -> bool {
    ByKey((t: Task) => -CreatedAt(t, parse))
  }

  /** `docs.map(...)`: the first document that cannot be serialised fails it. */
  function MapTasks(docs: seq<(string, Value)>, iso: int -> string): (r: Result<seq<Task>, string>)
    ensures r.Ok? ==> |r.value| == |docs|
  {
    if docs == [] then Ok([])
    else
      var head := TaskOf(docs[0].0, docs[0].1, iso);
      if head.Err? then Err(head.error)
      else
        var tail := MapTasks(docs[1..], iso);
        if tail.Err? then Err(tail.error) else Ok([head.value] + tail.value)
  }

  /** A successful mapping holds each document's task at its position. */
  lemma {:induction false} MapTasksAt(docs: seq<(string, Value)>, iso: int -> string)
    requires MapTasks(docs, iso).Ok?
    ensures forall i | 0 <= i < |docs| :: TaskOf(docs[i].0, docs[i].1, iso) == Ok(MapTasks(docs, iso).value[i])
  {
    if docs != [] {
      MapTasksAt(docs[1..], iso);
      var r := MapTasks(docs, iso);
      var tail := MapTasks(docs[1..], iso);
      forall i | 0 <= i < |docs| ensures TaskOf(docs[i].0, docs[i].1, iso) == Ok(r.value[i]) {
        if i > 0 {
          assert docs[i] == docs[1..][i - 1];
          assert r.value[i] == tail.value[i - 1];
        }
      }
    }
  }

  /** The mapping fails exactly when some document cannot be serialised. */
  lemma {:induction false} MapTasksFails(docs: seq<(string, Value)>, iso: int -> string)
    ensures MapTasks(docs, iso).Err? <==> exists i | 0 <= i < |docs| :: Serialized(docs[i].1, iso).Err?
  {
    if docs != [] {
      MapTasksFails(docs[1..], iso);
      var r := MapTasks(docs, iso);
      var tail := MapTasks(docs[1..], iso);
      if TaskOf(docs[0].0, docs[0].1, iso).Ok? && tail.Err? {
        var i :| 0 <= i < |docs[1..]| && Serialized(docs[1..][i].1, iso).Err?;
        assert Serialized(docs[i + 1].1, iso).Err?;
      }
      if r.Ok? {
        MapTasksAt(docs, iso);
        forall i | 0 <= i < |docs| ensures Serialized(docs[i].1, iso).Ok? {
          assert TaskOf(docs[i].0, docs[i].1, iso).Ok?;
        }
      }
    }
  }

  /** What GET returns: every fetched document once, newest first. */
  function ListTasks(docs: seq<(string, Value)>, iso: int -> string, parse: string -> int): (r: Result<seq<Task>, string>)
    ensures r.Err? <==> exists i | 0 <= i < |docs| :: Serialized(docs[i].1, iso).Err?
    ensures r.Ok? == MapTasks(docs, iso).Ok?
    ensures r.Ok? ==> multiset(r.value) == multiset(MapTasks(docs, iso).value) && |r.value| == |docs|
    ensures r.Ok? ==> forall i, j | 0 <= i < j < |r.value| :: CreatedAt(r.value[i], parse) >= CreatedAt(r.value[j], parse)
  {
    var mapped := MapTasks(docs, iso);
    MapTasksFails(docs, iso);
    if mapped.Err? then Err(mapped.error)
    else
      ByKeyIsPreorder((t: Task) => -CreatedAt(t, parse));
      var sorted := Sort(mapped.value, NewestFirst(parse));
      assert forall i, j | 0 <= i < j < |sorted| :: NewestFirst(parse)(sorted[i], sorted[j]);
      Ok(sorted)
  }

  /** Tasks created at the same time keep the order Firestore returned them in. */
  lemma SameTimeKeepsFetchOrder(docs: seq<(string, Value)>, iso: int -> string, parse: string -> int, y: Task)
    requires MapTasks(docs, iso).Ok?
    ensures EqualTo(ListTasks(docs, iso, parse).value, NewestFirst(parse), y)
         == EqualTo(MapTasks(docs, iso).value, NewestFirst(parse), y)
  {
    ByKeyIsPreorder((t: Task) => -CreatedAt(t, parse));
    SortIsStable(MapTasks(docs, iso).value, NewestFirst(parse), y);
  }
}
