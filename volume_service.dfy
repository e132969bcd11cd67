/** The volume service (src/core/services/volume_service.py): each
    function builds a `docker` argument vector, runs it through
    `run_docker_command` once, and interprets the answer. The requests it
    can make are a datatype, their argument vectors a function of it, and
    `ParseVolumeArgv` reads a vector back, which shows that no argument is
    lost or misplaced. */
module VolumeService {

  import opened Py
  import opened PyStr
  import opened Stdlib
  import opened Process
  import opened Runner
  import opened Decoder
  import opened Argv
  import opened VolumeModel

  /** The default of `create_volume`'s `driver` parameter. */
  const DefaultVolumeDriver := "local"

  datatype VolumeRequest =
    | Ls
    | Inspect(name: string)
    | Create(name: string, driver: string, options: seq<(string, string)>)
    | Rm(name: string, force: bool)
    | Prune
    | SystemDf
    | Copy(source: string, destination: string)

  const CopyScript: seq<string> := ["alpine", "ash", "-c", "cp -av /from/. /to"]

  /** The arguments after `docker` for each request. */
  function VolumeArgv(req: VolumeRequest): seq<string> {
    match req
    case Ls => ["volume", "ls"] + FormatJson
    case Inspect(name) => ["volume", "inspect"] + FormatJson + [name]
    case Create(name, driver, options) => ["volume", "create", "--driver", driver] + OptionFlags(options) + [name]
    case Rm(name, force) => ["volume", "rm"] + (if force then ["-f"] else []) + [name]
    case Prune => ["volume", "prune", "-f"]
    case SystemDf => ["system", "df", "-v"] + FormatJson + ["--filter", "type=volume"]
    case Copy(source, destination) => ["run", "--rm", "-v", source + ":/from", "-v", destination + ":/to"] + CopyScript
  }

  /** `s` ends with `suffix`. */
  predicate EndsWith(s: string, suffix: string) {
    |suffix| <= |s| && s[|s| - |suffix|..] == suffix
  }

  /** Which request an argument vector makes, if it is one of them. */
  function ParseVolumeArgv(argv: seq<string>): Option<VolumeRequest> {
    if argv == ["volume", "ls"] + FormatJson then Some(Ls)
    else if |argv| == 5 && argv[..4] == ["volume", "inspect"] + FormatJson then Some(Inspect(argv[4]))
    else if |argv| >= 5 && argv[..3] == ["volume", "create", "--driver"] then
      match ParseOptionFlags(argv[4..|argv| - 1])
      case Some(options) => Some(Create(Last(argv), argv[3], options))
      case None => None
    else if |argv| == 3 && argv[..2] == ["volume", "rm"] then Some(Rm(argv[2], false))
    else if |argv| == 4 && argv[..3] == ["volume", "rm", "-f"] then Some(Rm(argv[3], true))
    else if argv == ["volume", "prune", "-f"] then Some(Prune)
    else if argv == ["system", "df", "-v"] + FormatJson + ["--filter", "type=volume"] then Some(SystemDf)
    else if |argv| == 10 && argv[..3] == ["run", "--rm", "-v"] && argv[4] == "-v" && argv[6..] == CopyScript
            && EndsWith(argv[3], ":/from") && EndsWith(argv[5], ":/to") then
      Some(Copy(argv[3][..|argv[3]| - 6], argv[5][..|argv[5]| - 4]))
    else None
  }

  /** Option keys without `=`, so that `key=value` can be split again. */
  predicate Unambiguous(req: VolumeRequest) {
    req.Create? ==> forall k :: 0 <= k < |req.options| ==> '=' !in req.options[k].0
  }

  /** Every request can be read back from its argument vector: the driver
      right after `--driver`, the options in order, the name last, `-f`
      exactly when forced, and each volume of a copy on its own side. */
  lemma VolumeArgvRoundTrip(req: VolumeRequest)
    requires Unambiguous(req)
    ensures ParseVolumeArgv(VolumeArgv(req)) == Some(req)
  {
    var argv := VolumeArgv(req);
    match req
    case Ls =>
    case Inspect(name) =>
      assert argv[..4] == ["volume", "inspect"] + FormatJson;
    case Create(name, driver, options) =>
      CreateRoundTrip(name, driver, options);
    case Rm(name, force) =>
      RmRoundTrip(name, force);
    case Prune =>
      assert argv[..2] == ["volume", "prune"];
    case SystemDf =>
      assert argv[0] == "system" && argv[0] != "volume";
    case Copy(source, destination) =>
      CopyRoundTrip(source, destination);
  }

  /** The driver, the options in order and the name are read back from `volume create`. */
  lemma CreateRoundTrip(name: string, driver: string, options: seq<(string, string)>)
    requires forall k :: 0 <= k < |options| ==> '=' !in options[k].0
    ensures ParseVolumeArgv(VolumeArgv(Create(name, driver, options))) == Some(Create(name, driver, options))
  {
    var argv := VolumeArgv(Create(name, driver, options));
    assert argv[..3] == ["volume", "create", "--driver"];
    assert argv[1] != "inspect" && argv[1] != "ls";
    assert argv[4..|argv| - 1] == OptionFlags(options);
    assert Last(argv) == name && argv[3] == driver;
    OptionFlagsRecoverable(options);
  }

  /** `-f` is read back exactly when the removal was forced. */
  lemma RmRoundTrip(name: string, force: bool)
    ensures ParseVolumeArgv(VolumeArgv(Rm(name, force))) == Some(Rm(name, force))
  {
    var argv := VolumeArgv(Rm(name, force));
    assert argv[1] == "rm" && argv[1] != "ls" && argv[1] != "inspect" && argv[1] != "create";
    if force {
      assert |argv| == 4 && argv[..3] == ["volume", "rm", "-f"];
    } else {
      assert |argv| == 3 && argv[..2] == ["volume", "rm"];
    }
  }

  /** Each volume of a copy is read back from its own mount, source before destination. */
  lemma CopyRoundTrip(source: string, destination: string)
    ensures ParseVolumeArgv(VolumeArgv(Copy(source, destination))) == Some(Copy(source, destination))
  {
    var argv := VolumeArgv(Copy(source, destination));
    assert argv[..3] == ["run", "--rm", "-v"] && argv[6..] == CopyScript;
    assert argv[3][..|source|] == source && argv[5][..|destination|] == destination;
  }

  /** `run_docker_command` was called once more, with the vector of `req`. */
  ghost predicate RanOnce(before: seq<Exchange>, after: seq<Exchange>, req: VolumeRequest) {
    Issued(before, after, [DockerCall(VolumeArgv(req))])
  }

  /** `get_volumes()`. */
  method GetVolumes(host: Host, lib: Lib) returns (r: Outcome<seq<Volume>>)
    modifies host
    ensures RanOnce(old(host.history), host.history, Ls) && host.lookups == old(host.lookups)
    ensures r == ListReply(Last(host.history).reply, lib.loads, VolumeFromDict)
  {
    var command := ["volume", "ls", "--format", "{{json .}}"];
    assert command == VolumeArgv(Ls);
    var success, output := RunDockerCommand(host, command);
    if !success {
      return Returned([]);
    }
    r := DecodeLines(Split(output, '\n'), lib.loads, VolumeFromDict);
  }

  /** `get_volume_by_name(volume_name)`: element 0 of the inspect output. */
  method GetVolumeByName(host: Host, lib: Lib, volumeName: string) returns (r: Outcome<Option<Volume>>)
    modifies host
    ensures RanOnce(old(host.history), host.history, Inspect(volumeName)) && host.lookups == old(host.lookups)
    ensures r == InspectReply(Last(host.history).reply, true, lib.loads, VolumeFromDict)
  {
    var command := ["volume", "inspect", "--format", "{{json .}}", volumeName];
    assert command == VolumeArgv(Inspect(volumeName));
    var success, output := RunDockerCommand(host, command);
    if !success {
      return Returned(None);
    }
    r := InspectFirst(output, lib.loads, VolumeFromDict);
  }

  /** `create_volume(name, driver, options)`; the caller passes
      `DefaultVolumeDriver` where Python would use the default. */
  method CreateVolume(host: Host, name: string, driver: string, options: Option<seq<(string, string)>>)
    returns (success: bool)
    modifies host
    ensures RanOnce(old(host.history), host.history, Create(name, driver, Items(options)))
    ensures host.lookups == old(host.lookups)
    ensures success == Succeeded(Last(host.history).reply)
  {
    var command := ["volume", "create", "--driver", driver];
    command := ExtendWithOptions(command, options);
    command := command + [name];
    assert command == VolumeArgv(Create(name, driver, Items(options)));
    var output;
    success, output := RunDockerCommand(host, command);
  }

  /** `remove_volume(volume_name, force)`: `-f` is appended before the name. */
  method RemoveVolume(host: Host, volumeName: string, force: bool) returns (success: bool)
    modifies host
    ensures RanOnce(old(host.history), host.history, Rm(volumeName, force)) && host.lookups == old(host.lookups)
    ensures success == Succeeded(Last(host.history).reply)
  {
    var command := ["volume", "rm"];
    if force {
      command := command + ["-f"];
    }
    command := command + [volumeName];
    assert command == VolumeArgv(Rm(volumeName, force));
    var output;
    success, output := RunDockerCommand(host, command);
  }

  /** `prune_volumes()`. */
  method PruneVolumes(host: Host) returns (success: bool)
    modifies host
    ensures RanOnce(old(host.history), host.history, Prune) && host.lookups == old(host.lookups)
    ensures success == Succeeded(Last(host.history).reply)
  {
    var output;
    var command := ["volume", "prune", "-f"];
    assert command == VolumeArgv(Prune);
    success, output := RunDockerCommand(host, command);
  }

  /** `get_volume_usage(volume_name)`: the `Size` of the first usage line
      naming the volume. */
  method GetVolumeUsage(host: Host, lib: Lib, volumeName: string) returns (r: Outcome<Option<string>>)
    modifies host
    ensures RanOnce(old(host.history), host.history, SystemDf) && host.lookups == old(host.lookups)
    ensures r == UsageReply(Last(host.history).reply, volumeName, lib.loads)
  {
    var command := ["system", "df", "-v", "--format", "{{json .}}", "--filter", "type=volume"];
    assert command == VolumeArgv(SystemDf);
    var success, output := RunDockerCommand(host, command);
    if !success {
      return Returned(None);
    }
    r := ScanUsage(Split(output, '\n'), volumeName, lib.loads);
  }

  /** `copy_volume(source_volume, destination_volume)`: a throw-away
      `alpine` container mounts the source at `/from` and the destination
      at `/to` and copies one into the other. */
  method CopyVolume(host: Host, sourceVolume: string, destinationVolume: string) returns (success: bool)
    modifies host
    ensures RanOnce(old(host.history), host.history, Copy(sourceVolume, destinationVolume))
    ensures host.lookups == old(host.lookups)
    ensures success == Succeeded(Last(host.history).reply)
  {
    var command := [
      "run", "--rm",
      "-v", sourceVolume + ":/from",
      "-v", destinationVolume + ":/to",
      "alpine", "ash", "-c", "cp -av /from/. /to"
    ];
    assert command == VolumeArgv(Copy(sourceVolume, destinationVolume));
    var output;
    success, output := RunDockerCommand(host, command);
  }
}
