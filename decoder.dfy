/** How the services turn the engine's text output into records.

    Listing commands print one JSON object per line. `get_<kind>s` splits
    the output on newlines, skips empty lines, and parses and builds each
    remaining line inside a `try` that swallows `JSONDecodeError` and
    `KeyError`: such a line is dropped and the loop goes on; any other
    exception escapes the whole call.

    Inspect commands print one JSON document. Volume and network inspect
    take element `[0]` of it; container and image inspect build from the
    whole document; a swallowed exception gives `None`.

    `get_volume_usage` scans the lines of `docker system df` for the first
    one naming the volume, but one line that is not JSON ends the search. */
module Decoder {

  import opened Py
  import opened PyStr
  import opened Stdlib
  import opened Process
  import opened Runner

  /** The exceptions that a `try` with handlers for `JSONDecodeError` and
      `KeyError` (and `IndexError` when `index`) swallows. */
  predicate Handled(e: Exception, index: bool) {
    e.JSONDecodeError? || e.KeyError? || (index && e.IndexError?)
  }

  /** A `try` block around `o` whose handlers log and fall through to `None`. */
  function Catch<T>(o: Outcome<T>, index: bool): (r: Outcome<Option<T>>)
    ensures o.Returned? ==> r == Returned(Some(o.value))
    ensures o.Raised? && Handled(o.error, index) ==> r == Returned(None)
    ensures o.Raised? && !Handled(o.error, index) ==> r == Raised(o.error)
  {
    match o
    case Returned(v) => Returned(Some(v))
    case Raised(e) => if Handled(e, index) then Returned(None) else Raised(e)
  }

  /** `json.loads(text)`, raising `JSONDecodeError` where the parser refuses. */
  function Loads(loads: string -> Option<Value>, text: string): (r: Outcome<Value>)
    ensures r.Returned? <==> loads(text).Some?
    ensures r.Returned? ==> r.value == loads(text).value
    ensures r.Raised? ==> r.error == JSONDecodeError
  {
    match loads(text)
    case Some(v) => Returned(v)
    case None => Raised(JSONDecodeError)
  }

  // ---------------------------------------------------------------------
  // Listing shape

  /** What one line contributes to a listing: nothing (an empty line, or a
      line whose parse or construction was swallowed), one record, or an
      exception that ends the listing. */
  function DecodeLine<T>(line: string, loads: string -> Option<Value>, fromDict: Value -> Outcome<T>): (r: Outcome<Option<T>>)
    ensures line == "" || loads(line).None? ==> r == Returned(None)
    ensures r.Returned? && r.value.Some? ==>
              line != "" && loads(line).Some? && fromDict(loads(line).value) == Returned(r.value.value)
    ensures r.Raised? ==>
              line != "" && loads(line).Some? && fromDict(loads(line).value) == Raised(r.error) && !Handled(r.error, false)
  {
    if line == "" then Returned(None)
    else match loads(line)
      case None => Returned(None)
      case Some(data) => Catch(fromDict(data), false)
  }

  /** `acc` followed by the records of `o`, unless `o` raised. */
  function Prepend<T>(acc: seq<T>, o: Outcome<seq<T>>): Outcome<seq<T>> {
    match o
    case Returned(rest) => Returned(acc + rest)
    case Raised(e) => Raised(e)
  }

  function Contribution<T>(x: Option<T>): seq<T> {
    if x.Some? then [x.value] else []
  }

  /** The loop of `get_<kind>s` over the lines of the output, as a function. */
  function DecodeListing<T>(lines: seq<string>, loads: string -> Option<Value>, fromDict: Value -> Outcome<T>): (r: Outcome<seq<T>>)
    ensures r.Raised? ==> exists i :: 0 <= i < |lines| && DecodeLine(lines[i], loads, fromDict) == Raised(r.error)
    ensures r.Returned? ==> forall i :: 0 <= i < |lines| ==> DecodeLine(lines[i], loads, fromDict).Returned?
    decreases |lines|
  {
    if lines == [] then Returned([])
    else match DecodeLine(lines[0], loads, fromDict)
      case Raised(e) => Raised(e)
      case Returned(x) => Prepend(Contribution(x), DecodeListing(lines[1..], loads, fromDict))
  }

  /** The loop of `get_<kind>s`: parse each non-empty line and append what
      `from_dict` builds, skipping the lines the handlers swallow. */
  method DecodeLines<T>(lines: seq<string>, loads: string -> Option<Value>, fromDict: Value -> Outcome<T>)
    returns (r: Outcome<seq<T>>)
    ensures r == DecodeListing(lines, loads, fromDict)
  {
    var records: seq<T> := [];
    var i := 0;
    assert lines[i..] == lines;
    PrependNil(DecodeListing(lines, loads, fromDict));
    while i < |lines|
      invariant 0 <= i <= |lines|
      invariant DecodeListing(lines, loads, fromDict) == Prepend(records, DecodeListing(lines[i..], loads, fromDict))
    {
      ghost var rest := DecodeListing(lines[i + 1..], loads, fromDict);
      var line := lines[i];
      if line == "" {
        assert DecodeLine(line, loads, fromDict) == Returned(None);
        ListingStep(lines, i, loads, fromDict);
        PrependAppend(records, [], rest);
        assert records + [] == records;
      } else {
        match loads(line)
        case None =>
          assert DecodeLine(line, loads, fromDict) == Returned(None);
          ListingStep(lines, i, loads, fromDict);
          PrependAppend(records, [], rest);
          assert records + [] == records;
        case Some(data) =>
          match fromDict(data)
          case Returned(record) =>
            assert DecodeLine(line, loads, fromDict) == Returned(Some(record));
            ListingStep(lines, i, loads, fromDict);
            PrependAppend(records, [record], rest);
            records := records + [record];
          case Raised(e) =>
            if Handled(e, false) {
              assert DecodeLine(line, loads, fromDict) == Returned(None);
              ListingStep(lines, i, loads, fromDict);
              PrependAppend(records, [], rest);
              assert records + [] == records;
            } else {
              assert lines[i..][0] == line;
              return Raised(e);
            }
      }
      i := i + 1;
    }
    assert lines[i..] == [] && records + [] == records;
    return Returned(records);
  }

  /** One turn of the loop: a line that does not raise adds its contribution. */
  lemma ListingStep<T>(lines: seq<string>, i: nat, loads: string -> Option<Value>, fromDict: Value -> Outcome<T>)
    requires i < |lines| && DecodeLine(lines[i], loads, fromDict).Returned?
    ensures DecodeListing(lines[i..], loads, fromDict)
            == Prepend(Contribution(DecodeLine(lines[i], loads, fromDict).value), DecodeListing(lines[i + 1..], loads, fromDict))
  {
    assert lines[i..][0] == lines[i] && lines[i..][1..] == lines[i + 1..];
  }

  lemma PrependNil<T>(o: Outcome<seq<T>>)
    ensures Prepend([], o) == o
  {
    if o.Returned? { assert [] + o.value == o.value; }
  }

  lemma PrependAppend<T>(acc: seq<T>, more: seq<T>, o: Outcome<seq<T>>)
    ensures Prepend(acc, Prepend(more, o)) == Prepend(acc + more, o)
  {
    if o.Returned? { assert acc + (more + o.value) == (acc + more) + o.value; }
  }

  /** The number of non-empty lines. */
  function NonEmpty(lines: seq<string>): nat {
    if lines == [] then 0 else (if lines[0] == "" then 0 else 1) + NonEmpty(lines[1..])
  }

  /** A listing holds at most one record per non-empty line. */
  lemma {:induction false} ListingBound<T>(lines: seq<string>, loads: string -> Option<Value>, fromDict: Value -> Outcome<T>)
    ensures var r := DecodeListing(lines, loads, fromDict);
      r.Returned? ==> |r.value| <= NonEmpty(lines)
    decreases |lines|
  {
    if lines != [] {
      ListingBound(lines[1..], loads, fromDict);
    }
  }

  /** When every non-empty line builds a record, the listing has exactly
      one record per non-empty line. */
  lemma {:induction false} ListingAllValid<T>(lines: seq<string>, loads: string -> Option<Value>, fromDict: Value -> Outcome<T>)
    requires forall k :: 0 <= k < |lines| && lines[k] != "" ==>
               (DecodeLine(lines[k], loads, fromDict).Returned? && DecodeLine(lines[k], loads, fromDict).value.Some?)
    ensures var r := DecodeListing(lines, loads, fromDict);
      r.Returned? && |r.value| == NonEmpty(lines)
    decreases |lines|
  {
    if lines != [] {
      assert forall k :: 0 <= k < |lines| - 1 ==> lines[1..][k] == lines[k + 1];
      ListingAllValid(lines[1..], loads, fromDict);
    }
  }

  /** The records of two outputs, one after the other, or the first exception. */
  function Concat<T>(a: Outcome<seq<T>>, b: Outcome<seq<T>>): Outcome<seq<T>> {
    if a.Raised? then a else Prepend(a.value, b)
  }

  /** Lines are decoded independently and in order: the listing of `a + b`
      is the listing of `a` followed by the listing of `b`. */
  lemma {:induction false} ListingConcat<T>(a: seq<string>, b: seq<string>, loads: string -> Option<Value>, fromDict: Value -> Outcome<T>)
    ensures DecodeListing(a + b, loads, fromDict)
            == Concat(DecodeListing(a, loads, fromDict), DecodeListing(b, loads, fromDict))
    decreases |a|
  {
    if a == [] {
      assert a + b == b;
      match DecodeListing(b, loads, fromDict)
      case Returned(vs) => assert [] + vs == vs;
      case Raised(_) =>
    } else {
      assert (a + b)[0] == a[0] && (a + b)[1..] == a[1..] + b;
      ListingConcat(a[1..], b, loads, fromDict);
      match DecodeLine(a[0], loads, fromDict)
      case Raised(_) =>
      case Returned(x) =>
        match DecodeListing(a[1..], loads, fromDict)
        case Raised(_) =>
        case Returned(vs) =>
          match DecodeListing(b, loads, fromDict)
          case Raised(_) =>
          case Returned(ws) => assert Contribution(x) + (vs + ws) == (Contribution(x) + vs) + ws;
    }
  }

  /** A line that fails to parse or lacks a key is dropped without
      affecting what the other lines give. */
  lemma SkippedLineIsInvisible<T>(a: seq<string>, line: string, b: seq<string>,
                                  loads: string -> Option<Value>, fromDict: Value -> Outcome<T>)
    requires DecodeLine(line, loads, fromDict) == Returned(None)
    ensures DecodeListing(a + [line] + b, loads, fromDict) == DecodeListing(a + b, loads, fromDict)
  {
    ListingConcat(a + [line], b, loads, fromDict);
    ListingConcat(a, [line], loads, fromDict);
    ListingConcat(a, b, loads, fromDict);
    assert DecodeListing([line], loads, fromDict) == Returned([]) by {
      assert [line][0] == line && [line][1..] == [];
      assert DecodeListing([line][1..], loads, fromDict) == Returned([]);
      assert Contribution(DecodeLine(line, loads, fromDict).value) == [];
      PrependNil(DecodeListing([line][1..], loads, fromDict));
    }
    match DecodeListing(a, loads, fromDict)
    case Raised(_) =>
    case Returned(vs) => assert vs + [] == vs;
  }

  /** Three lines of which the second is not JSON: the first and the third
      record come back, in order. */
  lemma MiddleLineMalformed<T>(l1: string, l2: string, l3: string, c1: T, c3: T,
                               loads: string -> Option<Value>, fromDict: Value -> Outcome<T>)
    requires l2 != "" && loads(l2).None?
    requires DecodeLine(l1, loads, fromDict) == Returned(Some(c1))
    requires DecodeLine(l3, loads, fromDict) == Returned(Some(c3))
    ensures DecodeListing([l1, l2, l3], loads, fromDict) == Returned([c1, c3])
  {
    assert DecodeLine(l2, loads, fromDict) == Returned(None);
    assert [l1, l2, l3][1..] == [l2, l3] && [l2, l3][1..] == [l3] && [l3][1..] == [];
    assert DecodeListing([l3], loads, fromDict) == Prepend([c3], DecodeListing([], loads, fromDict));
    assert [c3] + [] == [c3] && [] + [c3] == [c3] && [c1] + [c3] == [c1, c3];
    assert DecodeListing([l2, l3], loads, fromDict) == Prepend([], DecodeListing([l3], loads, fromDict));
    assert DecodeListing([l1, l2, l3], loads, fromDict) == Prepend([c1], DecodeListing([l2, l3], loads, fromDict));
  }

  /** `get_<kind>s` after the runner answered: nothing when the command
      failed, otherwise the listing of the stripped output's lines. */
  function ListReply<T>(reply: ProcessResult, loads: string -> Option<Value>, fromDict: Value -> Outcome<T>): (r: Outcome<seq<T>>)
    ensures !Succeeded(reply) ==> r == Returned([])
    ensures Succeeded(reply) && r.Returned? ==> |r.value| <= NonEmpty(Split(Strip(reply.stdout), '\n'))
  {
    var (ok, output) := CommandOutcome(reply);
    if !ok then Returned([])
    else
      ListingBound(Split(output, '\n'), loads, fromDict);
      DecodeListing(Split(output, '\n'), loads, fromDict)
  }

  // ---------------------------------------------------------------------
  // Inspect shape

  /** Volume and network inspect: `from_dict(json.loads(output)[0])` inside
      handlers for `JSONDecodeError`, `KeyError` and `IndexError`. */
  function InspectFirst<T>(output: string, loads: string -> Option<Value>, fromDict: Value -> Outcome<T>): (r: Outcome<Option<T>>)
    ensures loads(output).None? ==> r == Returned(None)
    ensures r.Returned? && r.value.Some? ==>
              loads(output).Some? && First(loads(output).value).Returned?
              && fromDict(First(loads(output).value).value) == Returned(r.value.value)
    ensures r.Raised? ==>
              loads(output).Some? && !Handled(r.error, true)
              && (First(loads(output).value) == Raised(r.error)
                  || (First(loads(output).value).Returned? && fromDict(First(loads(output).value).value) == Raised(r.error)))
  {
    Catch(var data :- Loads(loads, output); var item :- First(data); fromDict(item), true)
  }

  /** Container and image inspect: `from_dict(json.loads(output))` inside
      handlers for `JSONDecodeError` and `KeyError`; no element is taken. */
  function InspectWhole<T>(output: string, loads: string -> Option<Value>, fromDict: Value -> Outcome<T>): (r: Outcome<Option<T>>)
    ensures loads(output).None? ==> r == Returned(None)
    ensures r.Returned? && r.value.Some? ==> loads(output).Some? && fromDict(loads(output).value) == Returned(r.value.value)
    ensures r.Raised? ==> loads(output).Some? && fromDict(loads(output).value) == Raised(r.error) && !Handled(r.error, false)
  {
    Catch(var data :- Loads(loads, output); fromDict(data), false)
  }

  /** An inspect that found nothing (an empty array) gives `None` on the
      indexing path, never a record. */
  lemma InspectFirstEmpty<T>(output: string, loads: string -> Option<Value>, fromDict: Value -> Outcome<T>)
    requires loads(output) == Some(Array([]))
    ensures InspectFirst(output, loads, fromDict) == Returned(None)
  {
  }

  /** On the indexing path, a single object (not wrapped in an array) is
      never built: `data[0]` on a dict raises `KeyError`, which is swallowed. */
  lemma InspectFirstObject<T>(output: string, loads: string -> Option<Value>, fromDict: Value -> Outcome<T>, m: map<string, string>)
    requires loads(output) == Some(Object(m))
    ensures InspectFirst(output, loads, fromDict) == Returned(None)
  {
  }

  /** The indexing path builds from element 0 and ignores any further elements. */
  lemma InspectFirstTakesHead<T>(output: string, loads: string -> Option<Value>, fromDict: Value -> Outcome<T>,
                                 head: Value, rest: seq<Value>)
    requires loads(output) == Some(Array([head] + rest))
    ensures InspectFirst(output, loads, fromDict) == Catch(fromDict(head), true)
  {
  }

  /** On the whole-document path the parsed value goes to `from_dict` as it
      is; an array there is not unwrapped. */
  lemma InspectWholeKeepsArray<T>(output: string, loads: string -> Option<Value>, fromDict: Value -> Outcome<T>, items: seq<Value>)
    requires loads(output) == Some(Array(items))
    ensures InspectWhole(output, loads, fromDict) == Catch(fromDict(Array(items)), false)
  {
  }

  /** `get_<kind>_by_<key>` after the runner answered, on either path. */
  function InspectReply<T>(reply: ProcessResult, index: bool, loads: string -> Option<Value>, fromDict: Value -> Outcome<T>): (r: Outcome<Option<T>>)
    ensures !Succeeded(reply) ==> r == Returned(None)
    ensures r.Returned? && r.value.Some? ==> Succeeded(reply) && loads(Strip(reply.stdout)).Some?
  {
    var (ok, output) := CommandOutcome(reply);
    if !ok then Returned(None)
    else if index then InspectFirst(output, loads, fromDict)
    else InspectWhole(output, loads, fromDict)
  }

  // ---------------------------------------------------------------------
  // Volume usage lookup

  /** The scan of `get_volume_usage`, as a function: the `Size` of the first
      line whose `Name` is `name`; a line that is not JSON ends the search
      with `None`; a line that is JSON but not an object has no `get` and
      raises `AttributeError`, which nothing catches. */
  function UsageScan(lines: seq<string>, name: string, loads: string -> Option<Value>): (r: Outcome<Option<string>>)
    ensures r.Raised? ==>
              r.error == AttributeError
              && exists i :: 0 <= i < |lines| && loads(lines[i]).Some? && !loads(lines[i]).value.Object?
    ensures r.Returned? && r.value.Some? ==>
              exists i :: 0 <= i < |lines| && NamesWithSize(loads(lines[i]), name, r.value.value)
    decreases |lines|
  {
    if lines == [] then Returned(None)
    else match Loads(loads, lines[0])
      case Raised(_) => Returned(None)
      case Returned(data) =>
        match DictGet(data, "Name")
        case Raised(e) => Raised(e)
        case Returned(n) =>
          if n == Some(name) then DictGet(data, "Size")
          else UsageScan(lines[1..], name, loads)
  }

  /** The parsed line is an object whose `Name` is `name` and whose `Size` is `size`. */
  predicate NamesWithSize(parsed: Option<Value>, name: string, size: string) {
    parsed.Some? && parsed.value.Object?
    && "Name" in parsed.value.members && parsed.value.members["Name"] == name
    && "Size" in parsed.value.members && parsed.value.members["Size"] == size
  }

  /** The loop of `get_volume_usage`, with its early returns. */
  method ScanUsage(lines: seq<string>, name: string, loads: string -> Option<Value>) returns (r: Outcome<Option<string>>)
    ensures r == UsageScan(lines, name, loads)
  {
    var i := 0;
    while i < |lines|
      invariant 0 <= i <= |lines|
      invariant UsageScan(lines, name, loads) == UsageScan(lines[i..], name, loads)
    {
      assert lines[i..][1..] == lines[i + 1..];
      match loads(lines[i])
      case None =>
        return Returned(None);
      case Some(data) =>
        if !data.Object? {
          return Raised(AttributeError);
        }
        var members := data.members;
        if "Name" in members && members["Name"] == name {
          return Returned(if "Size" in members then Some(members["Size"]) else None);
        }
      i := i + 1;
    }
    return Returned(None);
  }

  /** The line is a JSON object that does not name `name`: the scan moves on. */
  predicate PassesOver(line: string, name: string, loads: string -> Option<Value>) {
    loads(line).Some? && loads(line).value.Object?
    && !("Name" in loads(line).value.members && loads(line).value.members["Name"] == name)
  }

  /** The scan returns the `Size` (if any) of the first line naming the volume. */
  lemma {:induction false} UsageFirstMatch(lines: seq<string>, name: string, loads: string -> Option<Value>, k: nat, m: map<string, string>)
    requires k < |lines|
    requires forall j :: 0 <= j < k ==> PassesOver(lines[j], name, loads)
    requires loads(lines[k]) == Some(Object(m)) && "Name" in m && m["Name"] == name
    ensures UsageScan(lines, name, loads) == Returned(if "Size" in m then Some(m["Size"]) else None)
    decreases k
  {
    if k > 0 {
      assert PassesOver(lines[0], name, loads);
      assert forall j :: 0 <= j < k - 1 ==> lines[1..][j] == lines[j + 1];
      UsageFirstMatch(lines[1..], name, loads, k - 1, m);
    }
  }

  /** Unlike the listing decoder, a line that is not JSON, met before any
      match, ends the search with `None` even when a later line matches. */
  lemma {:induction false} UsageStopsAtBadLine(lines: seq<string>, name: string, loads: string -> Option<Value>, k: nat)
    requires k < |lines|
    requires forall j :: 0 <= j < k ==> PassesOver(lines[j], name, loads)
    requires loads(lines[k]).None?
    ensures UsageScan(lines, name, loads) == Returned(None)
    decreases k
  {
    if k > 0 {
      assert PassesOver(lines[0], name, loads);
      assert forall j :: 0 <= j < k - 1 ==> lines[1..][j] == lines[j + 1];
      UsageStopsAtBadLine(lines[1..], name, loads, k - 1);
    }
  }

  /** No line names the volume: `None`. */
  lemma {:induction false} UsageNoMatch(lines: seq<string>, name: string, loads: string -> Option<Value>)
    requires forall j :: 0 <= j < |lines| ==> PassesOver(lines[j], name, loads)
    ensures UsageScan(lines, name, loads) == Returned(None)
    decreases |lines|
  {
    if lines != [] {
      assert PassesOver(lines[0], name, loads);
      assert forall j :: 0 <= j < |lines| - 1 ==> lines[1..][j] == lines[j + 1];
      UsageNoMatch(lines[1..], name, loads);
    }
  }

  /** `get_volume_usage` after the runner answered. */
  function UsageReply(reply: ProcessResult, name: string, loads: string -> Option<Value>): (r: Outcome<Option<string>>)
    ensures !Succeeded(reply) ==> r == Returned(None)
  {
    var (ok, output) := CommandOutcome(reply);
    if !ok then Returned(None) else UsageScan(Split(output, '\n'), name, loads)
  }
}
