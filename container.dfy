/** `Container` (src/core/models/container.py). `from_dict` reads its keys
    in the order of the constructor's keyword arguments; the creation time
    is parsed from `CreatedAt` (a format without fractional seconds) right
    after `State`, and the raw `CreatedAt` text is kept as well. */
module ContainerModel {

  import opened Py
  import opened PyStr
  import opened Stdlib
  import opened Decoder

  datatype Container = Container(
    id: string, name: string, image: string, status: string, state: string,
    created: DateTime,
    ports: string, command: string, labels: string, networks: string, mounts: string,
    size: string, createdAt: string, runningFor: string)

  const ContainerTimeFormat := "%Y-%m-%d %H:%M:%S %z %Z"

  /** The keys read before the timestamp is parsed (the last one is `CreatedAt`). */
  const LeadKeys: seq<string> := ["ID", "Names", "Image", "Status", "State", "CreatedAt"]

  /** The keys read after the timestamp is parsed (`CreatedAt` again, for the raw copy). */
  const TailKeys: seq<string> :=
    ["Ports", "Command", "Labels", "Networks", "Mounts", "Size", "CreatedAt", "RunningFor"]

  /** Every key `from_dict` needs, each once. */
  const ContainerKeys: seq<string> :=
    ["ID", "Names", "Image", "Status", "State", "CreatedAt",
     "Ports", "Command", "Labels", "Networks", "Mounts", "Size", "RunningFor"]

  /** `Container.from_dict(data)`, with its exceptions in the order the
      lookups and the parse happen. */
  function ContainerFromDict(lib: Lib, data: Value): (r: Outcome<Container>)
    ensures !data.Object? ==> r == Raised(TypeError)
    ensures data.Object? && MissingAt(LeadKeys, data.members) < |LeadKeys| ==>
              r == Raised(KeyError(LeadKeys[MissingAt(LeadKeys, data.members)]))
    ensures (data.Object? && MissingAt(LeadKeys, data.members) == |LeadKeys| && "CreatedAt" in data.members
             && lib.strptime(data.members["CreatedAt"], ContainerTimeFormat).None?) ==> r == Raised(ValueError)
    ensures (data.Object? && MissingAt(LeadKeys, data.members) == |LeadKeys| && "CreatedAt" in data.members
             && lib.strptime(data.members["CreatedAt"], ContainerTimeFormat).Some?
             && MissingAt(TailKeys, data.members) < |TailKeys|) ==>
              r == Raised(KeyError(TailKeys[MissingAt(TailKeys, data.members)]))
    ensures r.Returned? ==>
              data.Object? && "CreatedAt" in data.members && r.value.createdAt == data.members["CreatedAt"]
              && lib.strptime(r.value.createdAt, ContainerTimeFormat) == Some(r.value.created)
  {
    var a :- GetAll(data, LeadKeys);
    var created :- ParseTime(lib, a[5], ContainerTimeFormat);
    var b :- GetAll(data, TailKeys);
    Returned(Container(a[0], a[1], a[2], a[3], a[4], created, b[0], b[1], b[2], b[3], b[4], b[5], b[6], b[7]))
  }

  /** `Container.from_dict` as the function a listing or an inspect applies. */
  function ContainerDecoder(lib: Lib): Value -> Outcome<Container> {
    d => ContainerFromDict(lib, d)
  }

  /** The text fields of `c` in the order of `ContainerKeys`. */
  function ContainerFields(c: Container): seq<string> {
    [c.id, c.name, c.image, c.status, c.state, c.createdAt,
     c.ports, c.command, c.labels, c.networks, c.mounts, c.size, c.runningFor]
  }

  /** The values of `LeadKeys` that build `c`. */
  function LeadFields(c: Container): seq<string> {
    [c.id, c.name, c.image, c.status, c.state, c.createdAt]
  }

  /** The values of `TailKeys` that build `c`. */
  function TailFields(c: Container): seq<string> {
    [c.ports, c.command, c.labels, c.networks, c.mounts, c.size, c.createdAt, c.runningFor]
  }

  /** `m` holds every text field of `c` under its key (`name` under
      `Names`), and `c`'s creation time is the parse of its raw `CreatedAt`. */
  ghost predicate Describes(lib: Lib, m: map<string, string>, c: Container) {
    (forall i :: 0 <= i < |ContainerKeys| ==> ContainerKeys[i] in m && m[ContainerKeys[i]] == ContainerFields(c)[i])
    && lib.strptime(c.createdAt, ContainerTimeFormat) == Some(c.created)
  }

  /** `from_dict` copies every text field verbatim from its key and parses
      the time from the same `CreatedAt` text it keeps: it builds `c`
      exactly when the record describes `c`. */
  lemma ContainerFromDictDescribes(lib: Lib, m: map<string, string>, c: Container)
    ensures ContainerFromDict(lib, Object(m)) == Returned(c) <==> Describes(lib, m, c)
  {
    if Describes(lib, m, c) {
      DescribedIsBuilt(lib, m, c);
    }
    if ContainerFromDict(lib, Object(m)) == Returned(c) {
      BuiltIsDescribed(lib, m, c);
    }
  }

  lemma DescribedIsBuilt(lib: Lib, m: map<string, string>, c: Container)
    requires Describes(lib, m, c)
    ensures ContainerFromDict(lib, Object(m)) == Returned(c)
  {
    DescribedLead(lib, m, c);
    DescribedTail(lib, m, c);
  }

  /** The lookups before the parse find the first six fields of a described container. */
  lemma DescribedLead(lib: Lib, m: map<string, string>, c: Container)
    requires Describes(lib, m, c)
    ensures GetAll(Object(m), LeadKeys) == Returned(LeadFields(c))
  {
    var fields := ContainerFields(c);
    var lead := LeadFields(c);
    forall i | 0 <= i < |LeadKeys|
      ensures LeadKeys[i] in m && m[LeadKeys[i]] == lead[i]
    {
      assert LeadKeys[i] == ContainerKeys[i] && lead[i] == fields[i];
    }
    GetAllOf(m, LeadKeys, lead);
  }

  /** The lookups after the parse find the remaining fields of a described container. */
  lemma DescribedTail(lib: Lib, m: map<string, string>, c: Container)
    requires Describes(lib, m, c)
    ensures GetAll(Object(m), TailKeys) == Returned(TailFields(c))
  {
    var fields := ContainerFields(c);
    var tail := TailFields(c);
    forall i | 0 <= i < |TailKeys|
      ensures TailKeys[i] in m && m[TailKeys[i]] == tail[i]
    {
      if i < 6 {
        assert TailKeys[i] == ContainerKeys[i + 6] && tail[i] == fields[i + 6];
      } else if i == 6 {
        assert TailKeys[i] == ContainerKeys[5] && tail[i] == fields[5];
      } else {
        assert TailKeys[i] == ContainerKeys[12] && tail[i] == fields[12];
      }
    }
    GetAllOf(m, TailKeys, tail);
  }

  lemma BuiltIsDescribed(lib: Lib, m: map<string, string>, c: Container)
    requires ContainerFromDict(lib, Object(m)) == Returned(c)
    ensures Describes(lib, m, c)
  {
    BuiltFromFields(lib, m, c);
    FieldsDescribe(lib, m, c);
  }

  /** Lookups that return `c`'s fields, and a raw `CreatedAt` that parses to
      its time, make a record that describes `c`. */
  lemma FieldsDescribe(lib: Lib, m: map<string, string>, c: Container)
    requires GetAll(Object(m), LeadKeys) == Returned(LeadFields(c))
    requires GetAll(Object(m), TailKeys) == Returned(TailFields(c))
    requires lib.strptime(c.createdAt, ContainerTimeFormat) == Some(c.created)
    ensures Describes(lib, m, c)
  {
    var fields := ContainerFields(c);
    forall i | 0 <= i < |ContainerKeys|
      ensures ContainerKeys[i] in m && m[ContainerKeys[i]] == fields[i]
    {
      if i < 6 {
        assert ContainerKeys[i] == LeadKeys[i] && fields[i] == LeadFields(c)[i];
      } else if i < 12 {
        assert ContainerKeys[i] == TailKeys[i - 6] && fields[i] == TailFields(c)[i - 6];
      } else {
        assert ContainerKeys[i] == TailKeys[7] && fields[i] == TailFields(c)[7];
      }
    }
  }

  /** A container that `from_dict` builds holds exactly what both rounds of lookups returned. */
  lemma BuiltFromFields(lib: Lib, m: map<string, string>, c: Container)
    requires ContainerFromDict(lib, Object(m)) == Returned(c)
    ensures GetAll(Object(m), LeadKeys) == Returned(LeadFields(c))
    ensures GetAll(Object(m), TailKeys) == Returned(TailFields(c))
    ensures lib.strptime(c.createdAt, ContainerTimeFormat) == Some(c.created)
  {
    var a := GetAll(Object(m), LeadKeys).value;
    var b := GetAll(Object(m), TailKeys).value;
    assert a == [a[0], a[1], a[2], a[3], a[4], a[5]];
    assert b == [b[0], b[1], b[2], b[3], b[4], b[5], b[6], b[7]];
  }

  /** A record whose `CreatedAt` does not parse is not a skippable line:
      the `ValueError` escapes `get_containers`, whatever the lines after it
      hold and however many records came before. */
  lemma BadTimestampEscapesListing(lib: Lib, loads: string -> Option<Value>,
                                   before: seq<string>, line: string, after: seq<string>, m: map<string, string>)
    requires DecodeListing(before, loads, ContainerDecoder(lib)).Returned?
    requires line != "" && loads(line) == Some(Object(m))
    requires forall k :: k in LeadKeys ==> k in m
    requires lib.strptime(m["CreatedAt"], ContainerTimeFormat).None?
    ensures DecodeListing(before + [line] + after, loads, ContainerDecoder(lib)) == Raised(ValueError)
  {
    var fromDict := ContainerDecoder(lib);
    assert GetAll(Object(m), LeadKeys).Returned?;
    assert DecodeLine(line, loads, fromDict) == Raised(ValueError);
    assert DecodeListing([line] + after, loads, fromDict) == Raised(ValueError) by {
      assert ([line] + after)[0] == line;
    }
    assert before + [line] + after == before + ([line] + after);
    ListingConcat(before, [line] + after, loads, fromDict);
  }

  /** `str(container)`. */
  function ContainerString(c: Container): (s: string)
    ensures "Container(id=" <= s
  {
    "Container(id=" + Prefix(c.id, 12) + ", name=" + c.name + ", status=" + c.status + ")"
  }

  /** Only the first twelve characters of the id reach the rendering. */
  lemma ContainerStringShortId(a: Container, b: Container)
    requires Prefix(a.id, 12) == Prefix(b.id, 12) && a.name == b.name && a.status == b.status
    ensures ContainerString(a) == ContainerString(b)
  {
  }

  /** The short id can be read back: everything between `id=` and the first comma. */
  lemma ContainerStringShowsShortId(c: Container)
    requires ',' !in Prefix(c.id, 12)
    ensures var t := ContainerString(c)[|"Container(id="|..]; t[..Find(t, ',')] == Prefix(c.id, 12)
  {
    var rest := " name=" + c.name + ", status=" + c.status + ")";
    assert ContainerString(c) == "Container(id=" + Prefix(c.id, 12) + [','] + rest;
    ReadBetween("Container(id=", Prefix(c.id, 12), ',', rest);
  }
}
