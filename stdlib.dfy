/** The parts of Python's standard library the core calls but whose
    internals are not modelled: `json.loads` and `datetime.strptime` are
    abstract partial functions carried in a `Lib` value, and a decoded JSON
    document is a `Value` on which the core's subscripts (`data[key]`,
    `data[0]`, `data.get(key)`) are defined as Python defines them. */
module Stdlib {

  import opened Py

  /** A decoded JSON document. Object members are kept as text, which is
      what the engine's `--format {{json .}}` listings contain; `Scalar`
      stands for a number, `true`, `false` or `null`. */
  datatype Value =
    | Object(members: map<string, string>)
    | Array(items: seq<Value>)
    | String(text: string)
    | Scalar

  /** `data[key]` with a string key: a dict lookup, `KeyError` when the key
      is absent; lists, strings, numbers and `None` refuse string subscripts
      with `TypeError`. */
  function Get(data: Value, key: string): (r: Outcome<string>)
    ensures r.Returned? <==> data.Object? && key in data.members
    ensures r.Returned? ==> r.value == data.members[key]
    ensures data.Object? && key !in data.members ==> r == Raised(KeyError(key))
    ensures !data.Object? ==> r == Raised(TypeError)
  {
    match data
    case Object(m) => if key in m then Returned(m[key]) else Raised(KeyError(key))
    case _ => Raised(TypeError)
  }

  /** `data[0]`: the first element of a list or the first character of a
      string (`IndexError` when empty), `KeyError(0)` on a dict, and
      `TypeError` on a number, boolean or `None`. */
  function First(data: Value): (r: Outcome<Value>)
    ensures data.Array? && |data.items| > 0 ==> r == Returned(data.items[0])
    ensures (data.Array? && data.items == []) || data == String([]) ==> r == Raised(IndexError)
    ensures data.Object? ==> r == Raised(KeyError("0"))
    ensures data.Scalar? ==> r == Raised(TypeError)
  {
    match data
    case Object(_) => Raised(KeyError("0"))
    case Array(items) => if items == [] then Raised(IndexError) else Returned(items[0])
    case String(text) => if text == [] then Raised(IndexError) else Returned(String([text[0]]))
    case Scalar => Raised(TypeError)
  }

  /** `data.get(key)`: `None` for an absent key; only dicts have `get`, so
      any other value raises `AttributeError`. */
  function DictGet(data: Value, key: string): (r: Outcome<Option<string>>)
    ensures r.Returned? <==> data.Object?
    ensures r.Returned? ==> (r.value.Some? <==> key in data.members)
    ensures r.Returned? && r.value.Some? ==> r.value.value == data.members[key]
    ensures !data.Object? ==> r == Raised(AttributeError)
  {
    match data
    case Object(m) => Returned(if key in m then Some(m[key]) else None)
    case _ => Raised(AttributeError)
  }

  /** The position of the first of `keys`, in order, that `m` lacks, or
      `|keys|` when it has them all: a sequence of lookups `data[k]` over
      `keys` raises its first `KeyError` for `keys[MissingAt(keys, m)]`. */
  function MissingAt(keys: seq<string>, m: map<string, string>): (i: nat)
    ensures i <= |keys|
    ensures forall j :: 0 <= j < i ==> keys[j] in m
    ensures i < |keys| ==> keys[i] !in m
  {
    if keys == [] || keys[0] !in m then 0
    else 1 + MissingAt(keys[1..], m)
  }

  /** `[data[k] for k in keys]`, looked up one after the other: the values
      in key order, or the exception of the first lookup that fails. */
  function GetAll(data: Value, keys: seq<string>): (r: Outcome<seq<string>>)
    ensures !data.Object? && keys != [] ==> r == Raised(TypeError)
    ensures data.Object? ==> (r.Returned? <==> MissingAt(keys, data.members) == |keys|)
    ensures data.Object? ==> (r.Returned? <==> forall k :: k in keys ==> k in data.members)
    ensures data.Object? && r.Raised? ==> r.error == KeyError(keys[MissingAt(keys, data.members)])
    ensures r.Returned? ==> |r.value| == |keys| && forall i :: 0 <= i < |keys| ==> r.value[i] == data.members[keys[i]]
  {
    if keys == [] then Returned([])
    else
      var v :- Get(data, keys[0]);
      var rest :- GetAll(data, keys[1..]);
      Returned([v] + rest)
  }

  /** When every key is present, the lookups return exactly the values stored under them. */
  lemma GetAllOf(m: map<string, string>, keys: seq<string>, vals: seq<string>)
    requires |vals| == |keys|
    requires forall i :: 0 <= i < |keys| ==> keys[i] in m && m[keys[i]] == vals[i]
    ensures GetAll(Object(m), keys) == Returned(vals)
  {
    forall k | k in keys
      ensures k in m
    {
      var i :| 0 <= i < |keys| && keys[i] == k;
    }
    var r := GetAll(Object(m), keys);
    assert r.Returned? && |r.value| == |vals|;
    assert forall i :: 0 <= i < |vals| ==> r.value[i] == vals[i];
    assert r.value == vals;
  }

  /** Where the first missing key is depends only on which keys are present. */
  lemma {:induction false} MissingAtSeesOnlyKeys(keys: seq<string>, m1: map<string, string>, m2: map<string, string>)
    requires m1.Keys == m2.Keys
    ensures MissingAt(keys, m1) == MissingAt(keys, m2)
    decreases |keys|
  {
    if keys != [] && keys[0] in m1 {
      MissingAtSeesOnlyKeys(keys[1..], m1, m2);
    }
  }

  /** The lookups see only `keys`: two dicts that agree on them give the same result. */
  lemma {:induction false} GetAllSeesOnlyKeys(m1: map<string, string>, m2: map<string, string>, keys: seq<string>)
    requires forall k :: k in keys ==> (k in m1 <==> k in m2) && (k in m1 ==> m1[k] == m2[k])
    ensures GetAll(Object(m1), keys) == GetAll(Object(m2), keys)
    decreases |keys|
  {
    if keys != [] {
      assert keys[0] in keys;
      assert forall k :: k in keys[1..] ==> k in keys;
      GetAllSeesOnlyKeys(m1, m2, keys[1..]);
    }
  }

  /** A `datetime` as `strptime` builds it; its fields are never inspected here. */
  datatype DateTime = DateTime(
    year: int, month: int, day: int,
    hour: int, minute: int, second: int, microsecond: int,
    utcOffsetSeconds: int, zoneName: string)

  /** The library functions the core calls, as abstract partial functions:
      `loads(text)` is `None` where `json.loads` raises `JSONDecodeError`;
      `strptime(text, format)` is `None` where `datetime.strptime` raises
      `ValueError`. */
  datatype Lib = Lib(
    loads: string -> Option<Value>,
    strptime: (string, string) -> Option<DateTime>)

  /** `datetime.strptime(text, format)`, with its `ValueError`. */
  function ParseTime(lib: Lib, text: string, format: string): (r: Outcome<DateTime>)
    ensures r.Returned? <==> lib.strptime(text, format).Some?
    ensures r.Returned? ==> r.value == lib.strptime(text, format).value
    ensures r.Raised? ==> r.error == ValueError
  {
    match lib.strptime(text, format)
    case Some(t) => Returned(t)
    case None => Raised(ValueError)
  }
}
