/** The `--opt key=value` flags that `create_volume` and `create_network`
    append, one pair per entry of `options.items()`, in iteration order. */
module Argv {

  import opened Py
  import opened PyStr

  /** `f"{key}={value}"`. */
  function KeyValue(opt: (string, string)): string {
    opt.0 + "=" + opt.1
  }

  /** The flags for the given entries: `--opt` before each `key=value`. */
  function OptionFlags(items: seq<(string, string)>): (r: seq<string>)
    ensures |r| == 2 * |items|
    ensures forall k :: 0 <= k < |items| ==> r[2 * k] == "--opt" && r[2 * k + 1] == KeyValue(items[k])
  {
    if items == [] then []
    else ["--opt", KeyValue(items[0])] + OptionFlags(items[1..])
  }

  /** `if options:` — `None` and an empty dict both add nothing. */
  function OptionArgs(options: Option<seq<(string, string)>>): (r: seq<string>)
    ensures options.None? ==> r == []
    ensures options.Some? ==> r == OptionFlags(options.value)
  {
    if options.Some? && options.value != [] then OptionFlags(options.value) else []
  }

  /** The entries of an optional dict; `None` has none. */
  function Items(options: Option<seq<(string, string)>>): (r: seq<(string, string)>)
    ensures OptionArgs(options) == OptionFlags(r)
  {
    if options.Some? then options.value else []
  }

  /** The loop `for key, value in options.items(): command.extend(["--opt", f"{key}={value}"])`. */
  method ExtendWithOptions(command: seq<string>, options: Option<seq<(string, string)>>) returns (r: seq<string>)
    ensures r == command + OptionArgs(options)
  {
    r := command;
    if options.Some? && options.value != [] {
      var items := options.value;
      var i := 0;
      assert items[..0] == [];
      while i < |items|
        invariant 0 <= i <= |items|
        invariant r == command + OptionFlags(items[..i])
      {
        assert items[..i + 1] == items[..i] + [items[i]];
        OptionFlagsSnoc(items[..i], items[i]);
        r := r + ["--opt", KeyValue(items[i])];
        i := i + 1;
      }
      assert items[..i] == items;
    } else {
      assert command + [] == command;
    }
  }

  /** Read `key=value` back, splitting at the first `=`. */
  function SplitKeyValue(s: string): Option<(string, string)> {
    var i := Find(s, '=');
    if i == |s| then None else Some((s[..i], s[i + 1..]))
  }

  /** Read a run of `--opt key=value` flags back into entries. */
  function ParseOptionFlags(flags: seq<string>): Option<seq<(string, string)>>
    decreases |flags|
  {
    if flags == [] then Some([])
    else if |flags| < 2 || flags[0] != "--opt" then None
    else match (SplitKeyValue(flags[1]), ParseOptionFlags(flags[2..]))
      case (Some(kv), Some(rest)) => Some([kv] + rest)
      case _ => None
  }

  lemma KeyValueSplits(opt: (string, string))
    requires '=' !in opt.0
    ensures SplitKeyValue(KeyValue(opt)) == Some(opt)
  {
    var s := KeyValue(opt);
    FindAfter(opt.0, '=', opt.1);
    assert s[..|opt.0|] == opt.0 && s[|opt.0| + 1..] == opt.1;
  }

  /** One more entry at the end of the dict adds its pair at the end of
      the flags: what each turn of the `extend` loop relies on. */
  lemma {:induction false} OptionFlagsSnoc(items: seq<(string, string)>, opt: (string, string))
    ensures OptionFlags(items + [opt]) == OptionFlags(items) + ["--opt", KeyValue(opt)]
    decreases |items|
  {
    if items == [] {
      assert [] + [opt] == [opt] && [opt][1..] == [];
    } else {
      assert (items + [opt])[0] == items[0] && (items + [opt])[1..] == items[1..] + [opt];
      OptionFlagsSnoc(items[1..], opt);
    }
  }

  /** The flags lose nothing: when no key contains `=`, every entry, in
      order, can be read back from them. */
  lemma {:induction false} OptionFlagsRecoverable(items: seq<(string, string)>)
    requires forall k :: 0 <= k < |items| ==> '=' !in items[k].0
    ensures ParseOptionFlags(OptionFlags(items)) == Some(items)
    decreases |items|
  {
    if items != [] {
      var flags := OptionFlags(items);
      var tail := items[1..];
      assert forall k :: 0 <= k < |tail| ==> tail[k] == items[k + 1];
      OptionFlagsRecoverable(tail);
      assert flags[2..] == OptionFlags(tail);
      KeyValueSplits(items[0]);
      assert [items[0]] + tail == items;
    }
  }

  /** Keys that contain `=` make the flags ambiguous: two different
      option dicts produce the same arguments. */
  lemma EqualsInKeyIsAmbiguous()
    ensures OptionFlags([("a=b", "c")]) == OptionFlags([("a", "b=c")])
  {
    assert KeyValue(("a=b", "c")) == KeyValue(("a", "b=c"));
  }
}
