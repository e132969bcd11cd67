/** `Image` (src/core/models/image.py). `from_dict` reads `ID`,
    `Repository` and `Tag`, parses `CreatedAt` (no fractional seconds),
    then reads the remaining seven keys; unlike a container, an image keeps
    only the parsed time. Sizes and the container count stay opaque text. */
module ImageModel {

  import opened Py
  import opened PyStr
  import opened Stdlib

  datatype Image = Image(
    id: string, repository: string, tag: string, createdAt: DateTime,
    createdSince: string, size: string, virtualSize: string, sharedSize: string,
    uniqueSize: string, containers: string, digest: string)

  const ImageTimeFormat := "%Y-%m-%d %H:%M:%S %z %Z"

  /** The keys read before the timestamp is parsed (the last one is `CreatedAt`). */
  const LeadKeys: seq<string> := ["ID", "Repository", "Tag", "CreatedAt"]

  /** The keys read after the timestamp is parsed. */
  const TailKeys: seq<string> :=
    ["CreatedSince", "Size", "VirtualSize", "SharedSize", "UniqueSize", "Containers", "Digest"]

  /** The keys whose text is kept, in field order. */
  const TextKeys: seq<string> :=
    ["ID", "Repository", "Tag", "CreatedSince", "Size", "VirtualSize", "SharedSize", "UniqueSize", "Containers", "Digest"]

  /** `Image.from_dict(data)`, with its exceptions in the order the lookups
      and the parse happen. */
  function ImageFromDict(lib: Lib, data: Value): (r: Outcome<Image>)
    ensures !data.Object? ==> r == Raised(TypeError)
    ensures data.Object? && MissingAt(LeadKeys, data.members) < |LeadKeys| ==>
              r == Raised(KeyError(LeadKeys[MissingAt(LeadKeys, data.members)]))
    ensures (data.Object? && MissingAt(LeadKeys, data.members) == |LeadKeys| && "CreatedAt" in data.members
             && lib.strptime(data.members["CreatedAt"], ImageTimeFormat).None?) ==> r == Raised(ValueError)
    ensures (data.Object? && MissingAt(LeadKeys, data.members) == |LeadKeys| && "CreatedAt" in data.members
             && lib.strptime(data.members["CreatedAt"], ImageTimeFormat).Some?
             && MissingAt(TailKeys, data.members) < |TailKeys|) ==>
              r == Raised(KeyError(TailKeys[MissingAt(TailKeys, data.members)]))
    ensures r.Returned? ==>
              data.Object? && "CreatedAt" in data.members
              && lib.strptime(data.members["CreatedAt"], ImageTimeFormat) == Some(r.value.createdAt)
  {
    var a :- GetAll(data, LeadKeys);
    var createdAt :- ParseTime(lib, a[3], ImageTimeFormat);
    var b :- GetAll(data, TailKeys);
    Returned(Image(a[0], a[1], a[2], createdAt, b[0], b[1], b[2], b[3], b[4], b[5], b[6]))
  }

  /** `Image.from_dict` as the function a listing or an inspect applies. */
  function ImageDecoder(lib: Lib): Value -> Outcome<Image> {
    d => ImageFromDict(lib, d)
  }

  /** The text fields of `img` in the order of `TextKeys`. */
  function ImageFields(img: Image): seq<string> {
    [img.id, img.repository, img.tag, img.createdSince, img.size, img.virtualSize,
     img.sharedSize, img.uniqueSize, img.containers, img.digest]
  }

  /** `m` holds every text field of `img` under its key, and a `CreatedAt`
      that parses to `img`'s creation time. */
  ghost predicate Describes(lib: Lib, m: map<string, string>, img: Image) {
    (forall i :: 0 <= i < |TextKeys| ==> TextKeys[i] in m && m[TextKeys[i]] == ImageFields(img)[i])
    && "CreatedAt" in m && lib.strptime(m["CreatedAt"], ImageTimeFormat) == Some(img.createdAt)
  }

  /** `from_dict` copies the text fields verbatim and keeps only the parsed
      time: it builds `img` exactly when the record describes `img`. */
  lemma ImageFromDictDescribes(lib: Lib, m: map<string, string>, img: Image)
    ensures ImageFromDict(lib, Object(m)) == Returned(img) <==> Describes(lib, m, img)
  {
    if Describes(lib, m, img) {
      DescribedIsBuilt(lib, m, img);
    }
    if ImageFromDict(lib, Object(m)) == Returned(img) {
      BuiltIsDescribed(lib, m, img);
    }
  }

  lemma DescribedIsBuilt(lib: Lib, m: map<string, string>, img: Image)
    requires Describes(lib, m, img)
    ensures ImageFromDict(lib, Object(m)) == Returned(img)
  {
    DescribedLead(lib, m, img);
    DescribedTail(lib, m, img);
  }

  /** The values of `LeadKeys` that build `img`, with `raw` as the `CreatedAt` text. */
  function LeadFields(img: Image, raw: string): seq<string> {
    [img.id, img.repository, img.tag, raw]
  }

  /** The values of `TailKeys` that build `img`. */
  function TailFields(img: Image): seq<string> {
    [img.createdSince, img.size, img.virtualSize, img.sharedSize, img.uniqueSize, img.containers, img.digest]
  }

  /** The lookups before the parse find the id, repository, tag and timestamp text. */
  lemma DescribedLead(lib: Lib, m: map<string, string>, img: Image)
    requires Describes(lib, m, img)
    ensures GetAll(Object(m), LeadKeys) == Returned(LeadFields(img, m["CreatedAt"]))
  {
    var fields := ImageFields(img);
    var lead := LeadFields(img, m["CreatedAt"]);
    forall i | 0 <= i < |LeadKeys|
      ensures LeadKeys[i] in m && m[LeadKeys[i]] == lead[i]
    {
      if i < 3 {
        assert LeadKeys[i] == TextKeys[i] && lead[i] == fields[i];
      }
    }
    GetAllOf(m, LeadKeys, lead);
  }

  /** The lookups after the parse find the remaining text fields. */
  lemma DescribedTail(lib: Lib, m: map<string, string>, img: Image)
    requires Describes(lib, m, img)
    ensures GetAll(Object(m), TailKeys) == Returned(TailFields(img))
  {
    var fields := ImageFields(img);
    var tail := TailFields(img);
    forall i | 0 <= i < |TailKeys|
      ensures TailKeys[i] in m && m[TailKeys[i]] == tail[i]
    {
      assert TailKeys[i] == TextKeys[i + 3] && tail[i] == fields[i + 3];
    }
    GetAllOf(m, TailKeys, tail);
  }

  lemma BuiltIsDescribed(lib: Lib, m: map<string, string>, img: Image)
    requires ImageFromDict(lib, Object(m)) == Returned(img)
    ensures Describes(lib, m, img)
  {
    BuiltFromFields(lib, m, img);
    FieldsDescribe(lib, m, img);
  }

  /** An image that `from_dict` builds holds exactly what both rounds of lookups returned. */
  lemma BuiltFromFields(lib: Lib, m: map<string, string>, img: Image)
    requires ImageFromDict(lib, Object(m)) == Returned(img)
    ensures "CreatedAt" in m && GetAll(Object(m), LeadKeys) == Returned(LeadFields(img, m["CreatedAt"]))
    ensures GetAll(Object(m), TailKeys) == Returned(TailFields(img))
    ensures lib.strptime(m["CreatedAt"], ImageTimeFormat) == Some(img.createdAt)
  {
    var a := GetAll(Object(m), LeadKeys).value;
    var b := GetAll(Object(m), TailKeys).value;
    assert a == [a[0], a[1], a[2], a[3]];
    assert b == [b[0], b[1], b[2], b[3], b[4], b[5], b[6]];
  }

  /** Lookups that return `img`'s text fields, and a `CreatedAt` that
      parses to its time, make a record that describes `img`. */
  lemma FieldsDescribe(lib: Lib, m: map<string, string>, img: Image)
    requires "CreatedAt" in m && GetAll(Object(m), LeadKeys) == Returned(LeadFields(img, m["CreatedAt"]))
    requires GetAll(Object(m), TailKeys) == Returned(TailFields(img))
    requires lib.strptime(m["CreatedAt"], ImageTimeFormat) == Some(img.createdAt)
    ensures Describes(lib, m, img)
  {
    var fields := ImageFields(img);
    forall i | 0 <= i < |TextKeys|
      ensures TextKeys[i] in m && m[TextKeys[i]] == fields[i]
    {
      if i < 3 {
        assert TextKeys[i] == LeadKeys[i] && fields[i] == LeadFields(img, m["CreatedAt"])[i];
      } else {
        assert TextKeys[i] == TailKeys[i - 3] && fields[i] == TailFields(img)[i - 3];
      }
    }
  }

  /** No raw copy of the timestamp is kept: two records that differ only
      in how they write the same instant give the same image. */
  lemma ImageForgetsTimestampText(lib: Lib, m: map<string, string>, t1: string, t2: string)
    requires lib.strptime(t1, ImageTimeFormat) == lib.strptime(t2, ImageTimeFormat)
    ensures ImageFromDict(lib, Object(m["CreatedAt" := t1])) == ImageFromDict(lib, Object(m["CreatedAt" := t2]))
  {
    var m1, m2 := m["CreatedAt" := t1], m["CreatedAt" := t2];
    CreatedAtOnlyInLead();
    assert m1.Keys == m2.Keys;
    MissingAtSeesOnlyKeys(LeadKeys, m1, m2);
    GetAllSeesOnlyKeys(m1, m2, TailKeys);
    var a1, a2 := GetAll(Object(m1), LeadKeys), GetAll(Object(m2), LeadKeys);
    if a1.Returned? {
      assert a1.value[3] == t1 && a2.value[3] == t2;
      assert ParseTime(lib, t1, ImageTimeFormat) == ParseTime(lib, t2, ImageTimeFormat);
      assert a1.value[..3] == a2.value[..3];
    } else {
      assert a1 == a2;
    }
  }

  /** `CreatedAt` is the last of the lead keys and none of the others. */
  lemma CreatedAtOnlyInLead()
    ensures LeadKeys[3] == "CreatedAt"
    ensures forall i :: 0 <= i < 3 ==> LeadKeys[i] != "CreatedAt"
    ensures forall i :: 0 <= i < |TailKeys| ==> TailKeys[i] != "CreatedAt"
  {
  }

  /** `str(image)`. */
  function ImageString(img: Image): (s: string)
    ensures "Image(id=" <= s
  {
    "Image(id=" + Prefix(img.id, 12) + ", repository=" + img.repository + ", tag=" + img.tag + ")"
  }

  /** Only the first twelve characters of the id reach the rendering. */
  lemma ImageStringShortId(a: Image, b: Image)
    requires Prefix(a.id, 12) == Prefix(b.id, 12) && a.repository == b.repository && a.tag == b.tag
    ensures ImageString(a) == ImageString(b)
  {
  }

  /** The short id can be read back: everything between `id=` and the first comma. */
  lemma ImageStringShowsShortId(img: Image)
    requires ',' !in Prefix(img.id, 12)
    ensures var t := ImageString(img)[|"Image(id="|..]; t[..Find(t, ',')] == Prefix(img.id, 12)
  {
    var rest := " repository=" + img.repository + ", tag=" + img.tag + ")";
    assert ImageString(img) == "Image(id=" + Prefix(img.id, 12) + [','] + rest;
    ReadBetween("Image(id=", Prefix(img.id, 12), ',', rest);
  }
}
