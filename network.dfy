/** `Network` (src/core/models/network.py). Its `CreatedAt` carries
    nanoseconds, which `strptime`'s `%f` cannot read, so `from_dict` first
    cuts every fractional part to six digits with
    `re.sub(r'(\.\d{6})\d+', r'\1', …)` and then parses the result. */
module NetworkModel {

  import opened Py
  import opened PyStr
  import opened Stdlib

  datatype Network = Network(
    id: string, name: string, driver: string, scope: string,
    ipv6: string, internal: string, labels: string, createdAt: DateTime)

  const NetworkTimeFormat := "%Y-%m-%d %H:%M:%S.%f %z %Z"

  /** The keys read after `CreatedAt`, in the order `from_dict` reads them. */
  const NetworkKeys: seq<string> := ["ID", "Name", "Driver", "Scope", "IPv6", "Internal", "Labels"]

  // ---------------------------------------------------------------------
  // The fractional-second truncation

  /** How many decimal digits `s` starts with. */
  function DigitRun(s: string): (n: nat)
    ensures n <= |s|
    ensures forall k :: 0 <= k < n ==> IsDigit(s[k])
    ensures n < |s| ==> !IsDigit(s[n])
  {
    if s != [] && IsDigit(s[0]) then 1 + DigitRun(s[1..]) else 0
  }

  /** The pattern `\.\d{6}\d+` matches at the start of `s`: a dot and at
      least seven digits. */
  predicate LongFraction(s: string) {
    s != [] && s[0] == '.' && DigitRun(s[1..]) > 6
  }

  /** `re.sub(r'(\.\d{6})\d+', r'\1', s)`: scanning from the left, each
      match keeps the dot and six digits and drops the rest of its digits
      (`\d+` is greedy), and the scan resumes after the match. */
  function Truncate(s: string): (r: string)
    ensures |r| <= |s|
    decreases |s|
  {
    if s == [] then []
    else if LongFraction(s) then s[..7] + Truncate(s[1 + DigitRun(s[1..])..])
    else [s[0]] + Truncate(s[1..])
  }

  /** No dot in `s` is followed by more than six digits. */
  predicate Clean(s: string)
    decreases |s|
  {
    s == [] || (!LongFraction(s) && Clean(s[1..]))
  }

  /** The substitution keeps the first character. */
  lemma TruncateHead(s: string)
    requires s != []
    ensures Truncate(s) != [] && Truncate(s)[0] == s[0]
  {
  }

  /** The substitution keeps a leading run of digits as it is. */
  lemma {:induction false} TruncateDigitRun(s: string)
    ensures DigitRun(Truncate(s)) == DigitRun(s)
    decreases |s|
  {
    if s != [] && IsDigit(s[0]) {
      assert !LongFraction(s);
      TruncateDigitRun(s[1..]);
      assert Truncate(s)[1..] == Truncate(s[1..]);
    } else if s != [] {
      TruncateHead(s);
    }
  }

  /** Digits in front of a string that does not start with one add
      exactly their own number to its digit run. */
  lemma {:induction false} DigitRunOfDigits(d: string, rest: string)
    requires AllDigits(d)
    requires rest == [] || !IsDigit(rest[0])
    ensures DigitRun(d + rest) == |d|
    decreases |d|
  {
    if d != [] {
      assert (d + rest)[1..] == d[1..] + rest;
      DigitRunOfDigits(d[1..], rest);
    } else {
      assert d + rest == rest;
    }
  }

  /** A dot followed by a run of seven or more digits keeps the dot and
      exactly the first six digits; the rest of the run is dropped and the
      scan goes on with what follows the run. */
  lemma TruncateKeepsSix(d: string, rest: string)
    requires AllDigits(d) && |d| >= 7
    requires rest == [] || !IsDigit(rest[0])
    ensures Truncate(['.'] + d + rest) == ['.'] + d[..6] + Truncate(rest)
  {
    var s := ['.'] + d + rest;
    assert s[1..] == d + rest;
    DigitRunOfDigits(d, rest);
    assert s[1 + |d|..] == rest;
    assert s[..7] == ['.'] + d[..6];
  }

  /** Digits never start a match: they pass through unchanged. */
  lemma {:induction false} TruncatePassesDigits(d: string, rest: string)
    requires AllDigits(d)
    ensures Truncate(d + rest) == d + Truncate(rest)
    decreases |d|
  {
    if d != [] {
      var s := d + rest;
      assert s[0] == d[0] && s[1..] == d[1..] + rest;
      TruncatePassesDigits(d[1..], rest);
      assert d == [d[0]] + d[1..];
    } else {
      assert d + rest == rest;
    }
  }

  /** A dot followed by a run of at most six digits is kept whole. */
  lemma TruncateKeepsShort(d: string, rest: string)
    requires AllDigits(d) && |d| <= 6
    requires rest == [] || !IsDigit(rest[0])
    ensures Truncate(['.'] + d + rest) == ['.'] + d + Truncate(rest)
  {
    ShortFractionKeepsDot(d, rest);
    TruncatePassesDigits(d, rest);
  }

  /** A dot followed by at most six digits does not start a match, so the
      dot is kept and the scan moves on to the digits. */
  lemma ShortFractionKeepsDot(d: string, rest: string)
    requires AllDigits(d) && |d| <= 6
    requires rest == [] || !IsDigit(rest[0])
    ensures Truncate(['.'] + d + rest) == ['.'] + Truncate(d + rest)
  {
    var s := ['.'] + d + rest;
    assert s[1..] == d + rest;
    DigitRunOfDigits(d, rest);
    assert !LongFraction(s);
  }

  /** Digits never start a match, so they keep a clean string clean. */
  lemma {:induction false} CleanAfterDigits(d: string, rest: string)
    requires AllDigits(d) && Clean(rest)
    ensures Clean(d + rest)
    decreases |d|
  {
    if d != [] {
      assert (d + rest)[1..] == d[1..] + rest;
      CleanAfterDigits(d[1..], rest);
    } else {
      assert d + rest == rest;
    }
  }

  /** A dot, exactly six digits, then a clean `rest` that does not start
      with a digit: clean. */
  lemma CleanSixDigits(s: string, rest: string)
    requires |s| == 7 && s[0] == '.' && AllDigits(s[1..])
    requires rest == [] || !IsDigit(rest[0])
    requires Clean(rest)
    ensures Clean(s + rest)
  {
    var t := s + rest;
    assert t[1..] == s[1..] + rest;
    DigitRunOfDigits(s[1..], rest);
    CleanAfterDigits(s[1..], rest);
  }

  /** What the substitution leaves behind has no over-long fraction. */
  lemma {:induction false} TruncateClean(s: string)
    ensures Clean(Truncate(s))
    decreases |s|
  {
    if s == [] {
    } else if LongFraction(s) {
      var n := DigitRun(s[1..]);
      var rest := s[1 + n..];
      TruncateClean(rest);
      if rest != [] {
        assert !IsDigit(s[1..][n]);
        TruncateHead(rest);
      }
      CleanSixDigits(s[..7], Truncate(rest));
    } else {
      TruncateClean(s[1..]);
      var r := Truncate(s);
      assert r[1..] == Truncate(s[1..]);
      if s[0] == '.' {
        TruncateDigitRun(s[1..]);
      }
      assert !LongFraction(r);
    }
  }

  /** A clean string passes through unchanged, and only a clean one does. */
  lemma {:induction false} TruncateFixedIffClean(s: string)
    ensures Truncate(s) == s <==> Clean(s)
    decreases |s|
  {
    if s != [] {
      if LongFraction(s) {
        assert |Truncate(s)| < |s| by {
          var n := DigitRun(s[1..]);
          assert |Truncate(s[1 + n..])| <= |s| - 1 - n;
        }
      } else {
        TruncateFixedIffClean(s[1..]);
        assert Truncate(s) == [s[0]] + Truncate(s[1..]);
        assert [s[0]] + s[1..] == s;
      }
    }
    if Truncate(s) == s {
      TruncateClean(s);
    }
  }

  /** Cutting twice cuts no more than cutting once. */
  lemma TruncateIdempotent(s: string)
    ensures Truncate(Truncate(s)) == Truncate(s)
  {
    TruncateClean(s);
    TruncateFixedIffClean(Truncate(s));
  }

  // ---------------------------------------------------------------------
  // The record

  /** `Network.from_dict(data)`: `CreatedAt` is read and parsed before any
      other key, so a bad timestamp (`ValueError`) is reported even when
      later keys are missing. */
  function NetworkFromDict(lib: Lib, data: Value): (r: Outcome<Network>)
    ensures !data.Object? ==> r == Raised(TypeError)
    ensures data.Object? && "CreatedAt" !in data.members ==> r == Raised(KeyError("CreatedAt"))
    ensures (data.Object? && "CreatedAt" in data.members
             && lib.strptime(Truncate(data.members["CreatedAt"]), NetworkTimeFormat).None?) ==> r == Raised(ValueError)
    ensures (data.Object? && "CreatedAt" in data.members
             && lib.strptime(Truncate(data.members["CreatedAt"]), NetworkTimeFormat).Some?
             && MissingAt(NetworkKeys, data.members) < |NetworkKeys|) ==>
              r == Raised(KeyError(NetworkKeys[MissingAt(NetworkKeys, data.members)]))
    ensures r.Returned? <==>
              data.Object? && "CreatedAt" in data.members
              && lib.strptime(Truncate(data.members["CreatedAt"]), NetworkTimeFormat).Some?
              && MissingAt(NetworkKeys, data.members) == |NetworkKeys|
  {
    var raw :- Get(data, "CreatedAt");
    var createdAt :- ParseTime(lib, Truncate(raw), NetworkTimeFormat);
    var f :- GetAll(data, NetworkKeys);
    Returned(Network(f[0], f[1], f[2], f[3], f[4], f[5], f[6], createdAt))
  }

  /** `Network.from_dict` as the function a listing or an inspect applies. */
  function NetworkDecoder(lib: Lib): Value -> Outcome<Network> {
    d => NetworkFromDict(lib, d)
  }

  /** The text fields of `n` in the order of `NetworkKeys`. */
  function NetworkFields(n: Network): seq<string> {
    [n.id, n.name, n.driver, n.scope, n.ipv6, n.internal, n.labels]
  }

  /** `m` holds every text field of `n` under its key, and a `CreatedAt`
      that parses, once truncated, to `n`'s creation time. */
  ghost predicate Describes(lib: Lib, m: map<string, string>, n: Network) {
    (forall i :: 0 <= i < |NetworkKeys| ==> NetworkKeys[i] in m && m[NetworkKeys[i]] == NetworkFields(n)[i])
    && "CreatedAt" in m && lib.strptime(Truncate(m["CreatedAt"]), NetworkTimeFormat) == Some(n.createdAt)
  }

  /** `from_dict` copies the text fields verbatim (including `IPv6`,
      `Internal` and `Labels`) and takes the time from the truncated
      `CreatedAt`: it builds `n` exactly when the record describes `n`. */
  lemma NetworkFromDictDescribes(lib: Lib, m: map<string, string>, n: Network)
    ensures NetworkFromDict(lib, Object(m)) == Returned(n) <==> Describes(lib, m, n)
  {
    var f := GetAll(Object(m), NetworkKeys);
    if Describes(lib, m, n) {
      assert MissingAt(NetworkKeys, m) == |NetworkKeys|;
      assert f.value == NetworkFields(n);
    }
    if NetworkFromDict(lib, Object(m)) == Returned(n) {
      assert f.value == NetworkFields(n);
    }
  }

  /** A timestamp whose fraction is already at most six digits reaches
      `strptime` exactly as the engine printed it. */
  lemma CleanTimestampParsedVerbatim(lib: Lib, m: map<string, string>)
    requires "CreatedAt" in m && Clean(m["CreatedAt"])
    ensures lib.strptime(m["CreatedAt"], NetworkTimeFormat).None? ==> NetworkFromDict(lib, Object(m)) == Raised(ValueError)
    ensures NetworkFromDict(lib, Object(m)).Returned? ==>
              lib.strptime(m["CreatedAt"], NetworkTimeFormat) == Some(NetworkFromDict(lib, Object(m)).value.createdAt)
  {
    TruncateFixedIffClean(m["CreatedAt"]);
  }

  /** `str(network)`. */
  function NetworkString(n: Network): (s: string)
    ensures "Network(id=" <= s
  {
    "Network(id=" + Prefix(n.id, 12) + ", name=" + n.name + ", driver=" + n.driver + ")"
  }

  /** The rendering shows the id only through its first twelve characters:
      networks that agree there and on name and driver print alike. */
  lemma NetworkStringShortId(a: Network, b: Network)
    requires Prefix(a.id, 12) == Prefix(b.id, 12) && a.name == b.name && a.driver == b.driver
    ensures NetworkString(a) == NetworkString(b)
  {
  }

  /** The short id can be read back: it is everything between `id=` and
      the first comma. */
  lemma NetworkStringShowsShortId(n: Network)
    requires ',' !in Prefix(n.id, 12)
    ensures var t := NetworkString(n)[|"Network(id="|..];
      t[..Find(t, ',')] == Prefix(n.id, 12) && |t[..Find(t, ',')]| <= 12
  {
    var rest := " name=" + n.name + ", driver=" + n.driver + ")";
    assert NetworkString(n) == "Network(id=" + Prefix(n.id, 12) + [','] + rest;
    ReadBetween("Network(id=", Prefix(n.id, 12), ',', rest);
  }
}
