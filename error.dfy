/** `ErrorType` and `DockyError` (src/core/models/error.py): a typed error
    with a message and a details dict, its dict form, the way back from a
    dict, and its rendering. */
module ErrorModel {

  import opened Py
  import opened PyStr

  datatype ErrorType =
    | DockerConnection
    | DockerApi
    | InvalidInput
    | ResourceNotFound
    | PermissionDenied
    | Unexpected

  /** The members' names, as declared. */
  function MemberName(t: ErrorType): string {
    match t
    case DockerConnection => "DOCKER_CONNECTION"
    case DockerApi => "DOCKER_API"
    case InvalidInput => "INVALID_INPUT"
    case ResourceNotFound => "RESOURCE_NOT_FOUND"
    case PermissionDenied => "PERMISSION_DENIED"
    case Unexpected => "UNEXPECTED"
  }

  /** `t.value`. */
  function TypeValue(t: ErrorType): string {
    match t
    case DockerConnection => "docker_connection"
    case DockerApi => "docker_api"
    case InvalidInput => "invalid_input"
    case ResourceNotFound => "resource_not_found"
    case PermissionDenied => "permission_denied"
    case Unexpected => "unexpected"
  }

  /** The Python values a details dict or a `from_dict` argument may hold. */
  datatype PyValue =
    | Str(s: string)
    | Int(i: int)
    | Bool(b: bool)
    | NoneValue
    | List(items: seq<PyValue>)
    | Dict(entries: map<string, PyValue>)

  /** Python truth: empty text, zero, `False`, `None` and empty containers are false. */
  predicate Truthy(v: PyValue) {
    match v
    case Str(s) => s != []
    case Int(i) => i != 0
    case Bool(b) => b
    case NoneValue => false
    case List(items) => items != []
    case Dict(entries) => entries != map[]
  }

  const EmptyDict := Dict(map[])

  /** `ErrorType(v)`: the member whose value is `v`, or `ValueError`. */
  function TypeFromValue(v: PyValue): (r: Outcome<ErrorType>)
    ensures r.Returned? ==> v == Str(TypeValue(r.value))
    ensures r.Raised? ==> r.error == ValueError && forall t :: v != Str(TypeValue(t))
  {
    if v == Str("docker_connection") then Returned(DockerConnection)
    else if v == Str("docker_api") then Returned(DockerApi)
    else if v == Str("invalid_input") then Returned(InvalidInput)
    else if v == Str("resource_not_found") then Returned(ResourceNotFound)
    else if v == Str("permission_denied") then Returned(PermissionDenied)
    else if v == Str("unexpected") then Returned(Unexpected)
    else Raised(ValueError)
  }

  /** Every member is found again from its value. */
  lemma TypeValueRoundTrip(t: ErrorType)
    ensures TypeFromValue(Str(TypeValue(t))) == Returned(t)
  {
  }

  /** The six values are distinct. */
  lemma TypeValuesDistinct(t1: ErrorType, t2: ErrorType)
    ensures TypeValue(t1) == TypeValue(t2) ==> t1 == t2
  {
    TypeValueRoundTrip(t1);
    TypeValueRoundTrip(t2);
  }

  /** Upper-casing a value gives the member's name. */
  lemma UpperValueIsMemberName(t: ErrorType)
    ensures Upper(TypeValue(t)) == MemberName(t)
  {
    match t
    case DockerConnection => UpperLiteralDockerConnection();
    case DockerApi => UpperLiteralDockerApi();
    case InvalidInput => UpperLiteralInvalidInput();
    case ResourceNotFound => UpperLiteralResourceNotFound();
    case PermissionDenied => UpperLiteralPermissionDenied();
    case Unexpected => UpperLiteralUnexpected();
  }

  lemma UpperLiteralDockerConnection()
    ensures Upper("docker_connection") == "DOCKER_CONNECTION"
  {
    UpperLiteral("docker_connection", "DOCKER_CONNECTION");
  }

  lemma UpperLiteralDockerApi()
    ensures Upper("docker_api") == "DOCKER_API"
  {
    UpperLiteral("docker_api", "DOCKER_API");
  }

  lemma UpperLiteralInvalidInput()
    ensures Upper("invalid_input") == "INVALID_INPUT"
  {
    UpperLiteral("invalid_input", "INVALID_INPUT");
  }

  lemma UpperLiteralResourceNotFound()
    ensures Upper("resource_not_found") == "RESOURCE_NOT_FOUND"
  {
    UpperLiteral("resource_not_found", "RESOURCE_NOT_FOUND");
  }

  lemma UpperLiteralPermissionDenied()
    ensures Upper("permission_denied") == "PERMISSION_DENIED"
  {
    UpperLiteral("permission_denied", "PERMISSION_DENIED");
  }

  lemma UpperLiteralUnexpected()
    ensures Upper("unexpected") == "UNEXPECTED"
  {
    UpperLiteral("unexpected", "UNEXPECTED");
  }

  /** `Upper` character by character, for lower-case letters and underscores. */
  lemma UpperLiteral(s: string, u: string)
    requires |s| == |u|
    requires forall k :: 0 <= k < |s| ==> ('a' <= s[k] <= 'z' && u[k] as int == s[k] as int - 32) || (s[k] == '_' && u[k] == '_')
    ensures Upper(s) == u
  {
    var r := Upper(s);
    forall k | 0 <= k < |s|
      ensures r[k] == u[k]
    {
      UpperPointwise(s);
      if 'a' <= s[k] <= 'z' {
        assert r[k] == (s[k] as int - 32) as char;
      } else {
        assert r[k] == s[k];
      }
    }
    assert |r| == |u|;
  }

  lemma {:induction false} UpperPointwise(s: string)
    ensures forall k :: 0 <= k < |s| ==>
      Upper(s)[k] == if 'a' <= s[k] <= 'z' then (s[k] as int - 32) as char else s[k]
    decreases |s|
  {
    if s != [] {
      UpperPointwise(s[1..]);
      var u, rest := Upper(s), Upper(s[1..]);
      assert u[1..] == rest;
      forall k | 1 <= k < |s|
        ensures u[k] == if 'a' <= s[k] <= 'z' then (s[k] as int - 32) as char else s[k]
      {
        assert u[k] == rest[k - 1] && s[k] == s[1..][k - 1];
      }
    }
  }

  datatype DockyError = DockyError(errorType: ErrorType, message: string, details: PyValue)

  /** The details an error can carry once built: a truthy value, or `{}`. */
  predicate Normalized(d: PyValue) {
    Truthy(d) || d == EmptyDict
  }

  /** `DockyError(error_type, message, details)`: `details or {}`. */
  function NewDockyError(errorType: ErrorType, message: string, details: PyValue): (e: DockyError)
    ensures e.errorType == errorType && e.message == message
    ensures Normalized(e.details)
    ensures Truthy(details) ==> e.details == details
    ensures !Truthy(details) ==> e.details == EmptyDict
  {
    DockyError(errorType, message, if Truthy(details) then details else EmptyDict)
  }

  /** Building twice is building once: normalized details are kept as they are. */
  lemma NewDockyErrorKeepsNormalized(e: DockyError)
    requires Normalized(e.details)
    ensures NewDockyError(e.errorType, e.message, e.details) == e
  {
  }

  /** `e.to_dict()`. */
  function ToDict(e: DockyError): (d: map<string, PyValue>)
    ensures d.Keys == {"error_type", "message", "details"}
    ensures TypeFromValue(d["error_type"]) == Returned(e.errorType)
    ensures d["message"] == Str(e.message) && d["details"] == e.details
  {
    TypeValueRoundTrip(e.errorType);
    map["error_type" := Str(TypeValue(e.errorType)), "message" := Str(e.message), "details" := e.details]
  }

  /** `DockyError.from_dict(data)`: `error_type` is looked up and converted
      first, then `message`; an absent `details` is `None`, which becomes
      `{}`. The message is text, as the constructor's signature demands. */
  function ErrorFromDict(data: map<string, PyValue>): (r: Outcome<DockyError>)
    requires "message" in data ==> data["message"].Str?
    ensures "error_type" !in data ==> r == Raised(KeyError("error_type"))
    ensures "error_type" in data && TypeFromValue(data["error_type"]).Raised? ==> r == Raised(ValueError)
    ensures ("error_type" in data && TypeFromValue(data["error_type"]).Returned?
             && "message" !in data) ==> r == Raised(KeyError("message"))
    ensures r.Returned? <==>
              "error_type" in data && TypeFromValue(data["error_type"]).Returned? && "message" in data
    ensures r.Returned? ==>
              data["error_type"] == Str(TypeValue(r.value.errorType))
              && data["message"] == Str(r.value.message)
              && Normalized(r.value.details)
              && ("details" !in data ==> r.value.details == EmptyDict)
  {
    if "error_type" !in data then Raised(KeyError("error_type"))
    else
      var errorType :- TypeFromValue(data["error_type"]);
      if "message" !in data then Raised(KeyError("message"))
      else Returned(NewDockyError(errorType, data["message"].s, if "details" in data then data["details"] else NoneValue))
  }

  /** `from_dict(e.to_dict())` gives back `e` for every error the
      constructor can build. */
  lemma ErrorDictRoundTrip(e: DockyError)
    requires Normalized(e.details)
    ensures ErrorFromDict(ToDict(e)) == Returned(e)
  {
    NewDockyErrorKeepsNormalized(e);
  }

  /** Going the other way, a dict that `from_dict` accepts comes back with
      the same type value and message, and with its details normalized. */
  lemma DictErrorRoundTrip(data: map<string, PyValue>)
    requires "message" in data ==> data["message"].Str?
    requires ErrorFromDict(data).Returned?
    ensures var d := ToDict(ErrorFromDict(data).value);
      d["error_type"] == data["error_type"] && d["message"] == data["message"]
      && ("details" in data && Truthy(data["details"]) ==> d["details"] == data["details"])
  {
  }

  /** `str(e)`: the upper-cased type value, a colon and a space, then the message. */
  function ErrorString(e: DockyError): (s: string)
    ensures s == MemberName(e.errorType) + ": " + e.message
  {
    UpperValueIsMemberName(e.errorType);
    Upper(TypeValue(e.errorType)) + ": " + e.message
  }

  /** The type can be read back from the rendering: it is named by what
      precedes the first colon. */
  lemma ErrorStringShowsType(e: DockyError)
    ensures var s := ErrorString(e); NameToType(s[..Find(s, ':')]) == Some(e.errorType)
  {
    var name := MemberName(e.errorType);
    NoColonInMemberName(e.errorType);
    assert ErrorString(e) == name + [':'] + (" " + e.message);
    FindAfter(name, ':', " " + e.message);
    assert ErrorString(e)[..|name|] == name;
    NameToTypeInverts(e.errorType);
  }

  /** Each member is found again from its name. */
  lemma NameToTypeInverts(t: ErrorType)
    ensures NameToType(MemberName(t)) == Some(t)
  {
  }

  /** No member name contains a colon. */
  lemma NoColonInMemberName(t: ErrorType)
    ensures ':' !in MemberName(t)
  {
    var name := MemberName(t);
    assert forall k :: 0 <= k < |name| ==> name[k] != ':';
  }

  /** The member with the given name, if any. */
  function NameToType(name: string): Option<ErrorType> {
    if name == "DOCKER_CONNECTION" then Some(DockerConnection)
    else if name == "DOCKER_API" then Some(DockerApi)
    else if name == "INVALID_INPUT" then Some(InvalidInput)
    else if name == "RESOURCE_NOT_FOUND" then Some(ResourceNotFound)
    else if name == "PERMISSION_DENIED" then Some(PermissionDenied)
    else if name == "UNEXPECTED" then Some(Unexpected)
    else None
  }
}
