/** `Volume` (src/core/models/volume.py): a volume is identified by its
    name; every field is copied from the engine's record as text. */
module VolumeModel {

  import opened Py
  import opened PyStr
  import opened Stdlib

  datatype Volume = Volume(
    name: string, driver: string, mountpoint: string, labels: string, scope: string,
    availability: string, group: string, links: string, size: string, status: string)

  /** The keys `from_dict` reads, in the order it reads them. */
  const VolumeKeys: seq<string> :=
    ["Name", "Driver", "Mountpoint", "Labels", "Scope", "Availability", "Group", "Links", "Size", "Status"]

  /** `Volume.from_dict(data)`. */
  function VolumeFromDict(data: Value): (r: Outcome<Volume>)
    ensures !data.Object? ==> r == Raised(TypeError)
    ensures data.Object? ==> (r.Returned? <==> MissingAt(VolumeKeys, data.members) == |VolumeKeys|)
    ensures data.Object? && r.Raised? ==> r.error == KeyError(VolumeKeys[MissingAt(VolumeKeys, data.members)])
  {
    var f :- GetAll(data, VolumeKeys);
    Returned(Volume(f[0], f[1], f[2], f[3], f[4], f[5], f[6], f[7], f[8], f[9]))
  }

  /** The fields of `v` in the order of `VolumeKeys`. */
  function VolumeFields(v: Volume): seq<string> {
    [v.name, v.driver, v.mountpoint, v.labels, v.scope, v.availability, v.group, v.links, v.size, v.status]
  }

  /** `m` holds every field of `v` under its key. */
  ghost predicate Describes(m: map<string, string>, v: Volume) {
    forall i :: 0 <= i < |VolumeKeys| ==> VolumeKeys[i] in m && m[VolumeKeys[i]] == VolumeFields(v)[i]
  }

  /** `from_dict` copies every field verbatim from its own key: it builds
      `v` from a record exactly when the record holds each field of `v`
      under that field's key (other keys are ignored). */
  lemma VolumeFromDictDescribes(m: map<string, string>, v: Volume)
    ensures VolumeFromDict(Object(m)) == Returned(v) <==> Describes(m, v)
  {
    var f := GetAll(Object(m), VolumeKeys);
    if Describes(m, v) {
      assert MissingAt(VolumeKeys, m) == |VolumeKeys|;
      assert f.value == VolumeFields(v);
    }
    if VolumeFromDict(Object(m)) == Returned(v) {
      assert f.value == VolumeFields(v);
    }
  }

  /** `str(volume)`: name, driver and scope; a volume has no id. */
  function VolumeString(v: Volume): (s: string)
    ensures "Volume(name=" <= s
  {
    "Volume(name=" + v.name + ", driver=" + v.driver + ", scope=" + v.scope + ")"
  }

  /** Only name, driver and scope reach the rendering. */
  lemma VolumeStringShows(a: Volume, b: Volume)
    requires a.name == b.name && a.driver == b.driver && a.scope == b.scope
    ensures VolumeString(a) == VolumeString(b)
  {
  }

  /** The name can be read back: everything between `name=` and the first comma. */
  lemma VolumeStringShowsName(v: Volume)
    requires ',' !in v.name
    ensures var t := VolumeString(v)[|"Volume(name="|..]; t[..Find(t, ',')] == v.name
  {
    var rest := " driver=" + v.driver + ", scope=" + v.scope + ")";
    assert VolumeString(v)[|"Volume(name="|..] == v.name + [','] + rest;
    FindAfter(v.name, ',', rest);
  }
}
