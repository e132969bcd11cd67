/** The container service (src/core/services/container_service.py): each
    function builds a `docker` argument vector, runs it once and interprets
    the answer. `ParseContainerArgv` reads a vector back. */
module ContainerService {

  import opened Py
  import opened PyStr
  import opened Stdlib
  import opened Process
  import opened Runner
  import opened Decoder
  import opened ContainerModel

  datatype ContainerRequest =
    | Ps
    | Inspect(containerId: string)
    | Start(containerId: string)
    | Stop(containerId: string)
    | Rm(containerId: string, force: bool)
    | Logs(containerId: string, tail: Option<int>)

  /** The arguments after `docker` for each request. */
  function ContainerArgv(req: ContainerRequest): seq<string> {
    match req
    case Ps => ["ps", "-a"] + FormatJson
    case Inspect(containerId) => ["inspect"] + FormatJson + [containerId]
    case Start(containerId) => ["start", containerId]
    case Stop(containerId) => ["stop", containerId]
    case Rm(containerId, force) => if force then ["rm", "-f", containerId] else ["rm", containerId]
    case Logs(containerId, tail) =>
      ["logs", containerId] + (if tail.Some? then ["--tail", IntToString(tail.value)] else [])
  }

  /** Which request an argument vector makes, if it is one of them. */
  function ParseContainerArgv(argv: seq<string>): Option<ContainerRequest> {
    if argv == ["ps", "-a"] + FormatJson then Some(Ps)
    else if |argv| == 4 && argv[..3] == ["inspect"] + FormatJson then Some(Inspect(argv[3]))
    else if |argv| == 2 && argv[0] == "start" then Some(Start(argv[1]))
    else if |argv| == 2 && argv[0] == "stop" then Some(Stop(argv[1]))
    else if |argv| == 3 && argv[..2] == ["rm", "-f"] then Some(Rm(argv[2], true))
    else if |argv| == 2 && argv[0] == "rm" then Some(Rm(argv[1], false))
    else if |argv| == 2 && argv[0] == "logs" then Some(Logs(argv[1], None))
    else if |argv| == 4 && argv[0] == "logs" && argv[2] == "--tail" then
      match ParseInt(argv[3])
      case Some(n) => Some(Logs(argv[1], Some(n)))
      case None => None
    else None
  }

  /** Every request can be read back from its argument vector: `-f`
      exactly when forced, and `--tail` exactly when a tail is given, with
      its number intact (so a tail of 0 is still sent). */
  lemma ContainerArgvRoundTrip(req: ContainerRequest)
    ensures ParseContainerArgv(ContainerArgv(req)) == Some(req)
  {
    var argv := ContainerArgv(req);
    match req
    case Ps =>
    case Inspect(containerId) =>
      assert argv[0] != "ps" && argv[..3] == ["inspect"] + FormatJson;
    case Start(containerId) =>
    case Stop(containerId) =>
    case Rm(containerId, force) =>
      if force {
        assert argv[..2] == ["rm", "-f"];
      }
    case Logs(containerId, tail) =>
      assert argv[0] != "ps" && argv[0] != "inspect" && argv[0] != "start" && argv[0] != "stop" && argv[0] != "rm";
      if tail.Some? {
        IntToStringRoundTrip(tail.value);
      }
  }

  /** `run_docker_command` was called once more, with the vector of `req`. */
  ghost predicate RanOnce(before: seq<Exchange>, after: seq<Exchange>, req: ContainerRequest) {
    Issued(before, after, [DockerCall(ContainerArgv(req))])
  }

  /** `get_containers()`: all containers, running or not. */
  method GetContainers(host: Host, lib: Lib) returns (r: Outcome<seq<Container>>)
    modifies host
    ensures RanOnce(old(host.history), host.history, Ps) && host.lookups == old(host.lookups)
    ensures r == ListReply(Last(host.history).reply, lib.loads, ContainerDecoder(lib))
  {
    var command := ["ps", "-a", "--format", "{{json .}}"];
    assert command == ContainerArgv(Ps);
    var success, output := RunDockerCommand(host, command);
    if !success {
      return Returned([]);
    }
    r := DecodeLines(Split(output, '\n'), lib.loads, ContainerDecoder(lib));
  }

  /** `get_container_by_id(container_id)`: the whole inspect output goes to
      `from_dict`, without taking element 0. */
  method GetContainerById(host: Host, lib: Lib, containerId: string) returns (r: Outcome<Option<Container>>)
    modifies host
    ensures RanOnce(old(host.history), host.history, Inspect(containerId)) && host.lookups == old(host.lookups)
    ensures r == InspectReply(Last(host.history).reply, false, lib.loads, ContainerDecoder(lib))
  {
    var command := ["inspect", "--format", "{{json .}}", containerId];
    assert command == ContainerArgv(Inspect(containerId));
    var success, output := RunDockerCommand(host, command);
    if !success {
      return Returned(None);
    }
    r := InspectWhole(output, lib.loads, ContainerDecoder(lib));
  }

  /** `start_container(container_id)`. */
  method StartContainer(host: Host, containerId: string) returns (success: bool)
    modifies host
    ensures RanOnce(old(host.history), host.history, Start(containerId)) && host.lookups == old(host.lookups)
    ensures success == Succeeded(Last(host.history).reply)
  {
    var output;
    success, output := RunDockerCommand(host, ["start", containerId]);
  }

  /** `stop_container(container_id)`. */
  method StopContainer(host: Host, containerId: string) returns (success: bool)
    modifies host
    ensures RanOnce(old(host.history), host.history, Stop(containerId)) && host.lookups == old(host.lookups)
    ensures success == Succeeded(Last(host.history).reply)
  {
    var output;
    success, output := RunDockerCommand(host, ["stop", containerId]);
  }

  /** `remove_container(container_id, force)`: `-f` is inserted at index 1,
      between `rm` and the id. */
  method RemoveContainer(host: Host, containerId: string, force: bool) returns (success: bool)
    modifies host
    ensures RanOnce(old(host.history), host.history, Rm(containerId, force)) && host.lookups == old(host.lookups)
    ensures success == Succeeded(Last(host.history).reply)
  {
    var command := ["rm", containerId];
    if force {
      command := Insert(command, 1, "-f");
    }
    assert command == ContainerArgv(Rm(containerId, force));
    var output;
    success, output := RunDockerCommand(host, command);
  }

  /** `get_container_logs(container_id, tail)`: the stripped output, or
      `None` when the command fails. */
  method GetContainerLogs(host: Host, containerId: string, tail: Option<int>) returns (r: Option<string>)
    modifies host
    ensures RanOnce(old(host.history), host.history, Logs(containerId, tail)) && host.lookups == old(host.lookups)
    ensures r.Some? <==> Succeeded(Last(host.history).reply)
    ensures r.Some? ==> r.value == Strip(Last(host.history).reply.stdout)
  {
    var command := ["logs", containerId];
    if tail.Some? {
      command := command + ["--tail", IntToString(tail.value)];
    }
    assert command == ContainerArgv(Logs(containerId, tail));
    var success, output := RunDockerCommand(host, command);
    if success {
      return Some(output);
    } else {
      return None;
    }
  }
}
