/** The network service (src/core/services/network_service.py): each
    function builds a `docker network` argument vector, runs it once and
    interprets the answer. `ParseNetworkArgv` reads a vector back. */
module NetworkService {

  import opened Py
  import opened PyStr
  import opened Stdlib
  import opened Process
  import opened Runner
  import opened Decoder
  import opened Argv
  import opened NetworkModel

  /** The default of `create_network`'s `driver` parameter. */
  const DefaultNetworkDriver := "bridge"

  /** The requests the service makes. `Connect` and `Disconnect` keep the
      Python parameter order: container first, then network. */
  datatype NetworkRequest =
    | Ls
    | Inspect(networkId: string)
    | Create(name: string, driver: string, options: seq<(string, string)>)
    | Rm(networkId: string)
    | Connect(containerId: string, networkId: string)
    | Disconnect(containerId: string, networkId: string)
    | Prune

  /** The arguments after `docker` for each request; the engine wants the
      network before the container. */
  function NetworkArgv(req: NetworkRequest): seq<string> {
    match req
    case Ls => ["network", "ls"] + FormatJson
    case Inspect(networkId) => ["network", "inspect"] + FormatJson + [networkId]
    case Create(name, driver, options) => ["network", "create", "--driver", driver] + OptionFlags(options) + [name]
    case Rm(networkId) => ["network", "rm", networkId]
    case Connect(containerId, networkId) => ["network", "connect", networkId, containerId]
    case Disconnect(containerId, networkId) => ["network", "disconnect", networkId, containerId]
    case Prune => ["network", "prune", "-f"]
  }

  /** Which request an argument vector makes, if it is one of them. */
  function ParseNetworkArgv(argv: seq<string>): Option<NetworkRequest> {
    if argv == ["network", "ls"] + FormatJson then Some(Ls)
    else if |argv| == 5 && argv[..4] == ["network", "inspect"] + FormatJson then Some(Inspect(argv[4]))
    else if |argv| >= 5 && argv[..3] == ["network", "create", "--driver"] then
      match ParseOptionFlags(argv[4..|argv| - 1])
      case Some(options) => Some(Create(Last(argv), argv[3], options))
      case None => None
    else if |argv| == 3 && argv[..2] == ["network", "rm"] then Some(Rm(argv[2]))
    else if |argv| == 4 && argv[..2] == ["network", "connect"] then Some(Connect(argv[3], argv[2]))
    else if |argv| == 4 && argv[..2] == ["network", "disconnect"] then Some(Disconnect(argv[3], argv[2]))
    else if argv == ["network", "prune", "-f"] then Some(Prune)
    else None
  }

  /** Option keys without `=`, so that `key=value` can be split again. */
  predicate Unambiguous(req: NetworkRequest) {
    req.Create? ==> forall k :: 0 <= k < |req.options| ==> '=' !in req.options[k].0
  }

  /** Every request can be read back from its argument vector; in
      particular connecting `c` to `n` and connecting `n` to `c` are told
      apart, because the network always comes first. */
  lemma NetworkArgvRoundTrip(req: NetworkRequest)
    requires Unambiguous(req)
    ensures ParseNetworkArgv(NetworkArgv(req)) == Some(req)
  {
    var argv := NetworkArgv(req);
    match req
    case Ls =>
    case Inspect(networkId) =>
      assert argv[..4] == ["network", "inspect"] + FormatJson;
    case Create(name, driver, options) =>
      CreateRoundTrip(name, driver, options);
    case Rm(networkId) =>
      assert argv[..2] == ["network", "rm"];
    case Connect(containerId, networkId) =>
      ConnectRoundTrip(containerId, networkId);
    case Disconnect(containerId, networkId) =>
      DisconnectRoundTrip(containerId, networkId);
    case Prune =>
      assert argv[..2] == ["network", "prune"];
  }

  /** The driver, the options in order and the name are read back from `network create`. */
  lemma CreateRoundTrip(name: string, driver: string, options: seq<(string, string)>)
    requires forall k :: 0 <= k < |options| ==> '=' !in options[k].0
    ensures ParseNetworkArgv(NetworkArgv(Create(name, driver, options))) == Some(Create(name, driver, options))
  {
    var argv := NetworkArgv(Create(name, driver, options));
    assert argv[..3] == ["network", "create", "--driver"];
    assert argv[1] != "inspect" && argv[1] != "ls";
    assert argv[4..|argv| - 1] == OptionFlags(options);
    assert Last(argv) == name && argv[3] == driver;
    OptionFlagsRecoverable(options);
  }

  /** The network and the container of `network connect` are read back in their places. */
  lemma ConnectRoundTrip(containerId: string, networkId: string)
    ensures ParseNetworkArgv(NetworkArgv(Connect(containerId, networkId))) == Some(Connect(containerId, networkId))
  {
    var argv := NetworkArgv(Connect(containerId, networkId));
    assert argv[..2] == ["network", "connect"];
    assert argv[1] != "inspect" && argv[1] != "ls" && argv[1] != "create" && argv[1] != "rm";
  }

  /** The network and the container of `network disconnect` are read back in their places. */
  lemma DisconnectRoundTrip(containerId: string, networkId: string)
    ensures ParseNetworkArgv(NetworkArgv(Disconnect(containerId, networkId))) == Some(Disconnect(containerId, networkId))
  {
    var argv := NetworkArgv(Disconnect(containerId, networkId));
    assert argv[..2] == ["network", "disconnect"];
    assert argv[1] != "inspect" && argv[1] != "ls" && argv[1] != "create" && argv[1] != "rm" && argv[1] != "connect";
  }

  /** `run_docker_command` was called once more, with the vector of `req`. */
  ghost predicate RanOnce(before: seq<Exchange>, after: seq<Exchange>, req: NetworkRequest) {
    Issued(before, after, [DockerCall(NetworkArgv(req))])
  }

  /** `get_networks()`. */
  method GetNetworks(host: Host, lib: Lib) returns (r: Outcome<seq<Network>>)
    modifies host
    ensures RanOnce(old(host.history), host.history, Ls) && host.lookups == old(host.lookups)
    ensures r == ListReply(Last(host.history).reply, lib.loads, NetworkDecoder(lib))
  {
    var command := ["network", "ls", "--format", "{{json .}}"];
    assert command == NetworkArgv(Ls);
    var success, output := RunDockerCommand(host, command);
    if !success {
      return Returned([]);
    }
    r := DecodeLines(Split(output, '\n'), lib.loads, NetworkDecoder(lib));
  }

  /** `get_network_by_id(network_id)`: element 0 of the inspect output. */
  method GetNetworkById(host: Host, lib: Lib, networkId: string) returns (r: Outcome<Option<Network>>)
    modifies host
    ensures RanOnce(old(host.history), host.history, Inspect(networkId)) && host.lookups == old(host.lookups)
    ensures r == InspectReply(Last(host.history).reply, true, lib.loads, NetworkDecoder(lib))
  {
    var command := ["network", "inspect", "--format", "{{json .}}", networkId];
    assert command == NetworkArgv(Inspect(networkId));
    var success, output := RunDockerCommand(host, command);
    if !success {
      return Returned(None);
    }
    r := InspectFirst(output, lib.loads, NetworkDecoder(lib));
  }

  /** `create_network(name, driver, options)`; the caller passes
      `DefaultNetworkDriver` where Python would use the default. */
  method CreateNetwork(host: Host, name: string, driver: string, options: Option<seq<(string, string)>>)
    returns (success: bool)
    modifies host
    ensures RanOnce(old(host.history), host.history, Create(name, driver, Items(options)))
    ensures host.lookups == old(host.lookups)
    ensures success == Succeeded(Last(host.history).reply)
  {
    var command := ["network", "create", "--driver", driver];
    command := ExtendWithOptions(command, options);
    command := command + [name];
    assert command == NetworkArgv(Create(name, driver, Items(options)));
    var output;
    success, output := RunDockerCommand(host, command);
  }

  /** `remove_network(network_id)`: there is no force flag. */
  method RemoveNetwork(host: Host, networkId: string) returns (success: bool)
    modifies host
    ensures RanOnce(old(host.history), host.history, Rm(networkId)) && host.lookups == old(host.lookups)
    ensures success == Succeeded(Last(host.history).reply)
  {
    var command := ["network", "rm", networkId];
    assert command == NetworkArgv(Rm(networkId));
    var output;
    success, output := RunDockerCommand(host, command);
  }

  /** `connect_container_to_network(container_id, network_id)`. */
  method ConnectContainerToNetwork(host: Host, containerId: string, networkId: string) returns (success: bool)
    modifies host
    ensures RanOnce(old(host.history), host.history, Connect(containerId, networkId))
    ensures host.lookups == old(host.lookups)
    ensures success == Succeeded(Last(host.history).reply)
  {
    var command := ["network", "connect", networkId, containerId];
    assert command == NetworkArgv(Connect(containerId, networkId));
    var output;
    success, output := RunDockerCommand(host, command);
  }

  /** `disconnect_container_from_network(container_id, network_id)`. */
  method DisconnectContainerFromNetwork(host: Host, containerId: string, networkId: string) returns (success: bool)
    modifies host
    ensures RanOnce(old(host.history), host.history, Disconnect(containerId, networkId))
    ensures host.lookups == old(host.lookups)
    ensures success == Succeeded(Last(host.history).reply)
  {
    var command := ["network", "disconnect", networkId, containerId];
    assert command == NetworkArgv(Disconnect(containerId, networkId));
    var output;
    success, output := RunDockerCommand(host, command);
  }

  /** `prune_networks()`. */
  method PruneNetworks(host: Host) returns (success: bool)
    modifies host
    ensures RanOnce(old(host.history), host.history, Prune) && host.lookups == old(host.lookups)
    ensures success == Succeeded(Last(host.history).reply)
  {
    var command := ["network", "prune", "-f"];
    assert command == NetworkArgv(Prune);
    var output;
    success, output := RunDockerCommand(host, command);
  }
}
