/** `DockerEngineManager` (src/core/docker_engine.py): whether `docker` is
    installed, whether the engine answers, and how to start it on each
    platform. Every probe and start is a call on the `Host` oracle, so the
    contracts say exactly which processes were started, in which order,
    and how their exit statuses decide the answer. */
module DockerEngine {

  import opened Py
  import opened Process

  /** The probe `is_docker_running` issues. */
  const DockerInfo := Invocation(["docker", "info"], false)

  /** The start command for a value of `platform.system()`, or `None` for
      a system the manager does not support. Only the Windows command goes
      through the shell. */
  function StartCommand(system: string): (c: Option<Invocation>)
    ensures c.Some? <==> system == "Linux" || system == "Darwin" || system == "Windows"
    ensures c.Some? ==> (c.value.shell <==> system == "Windows")
    ensures c.Some? ==> c.value != DockerInfo && |c.value.argv| >= 2
  {
    if system == "Linux" then Some(Invocation(["sudo", "systemctl", "start", "docker"], false))
    else if system == "Darwin" then Some(Invocation(["open", "-a", "Docker"], false))
    else if system == "Windows" then Some(Invocation(["start", "docker"], true))
    else None
  }

  /** Different supported systems start the engine differently, so the
      command issued names the system it was chosen for. */
  lemma StartCommandNamesSystem(system1: string, system2: string)
    requires StartCommand(system1).Some?
    ensures StartCommand(system1) == StartCommand(system2) <==> system1 == system2
  {
    var c := StartCommand(system1).value;
    if StartCommand(system2) == Some(c) {
      if system1 == "Linux" {
        assert c.argv[0] == "sudo";
      } else if system1 == "Darwin" {
        assert c.argv[0] == "open";
      } else {
        assert c.shell;
      }
    }
  }

  /** What `start_docker_engine` does from history `before` to `after`
      with result `started`: it probes with `docker info`; if that exits
      zero it answers true and does nothing else; otherwise it issues the
      system's start command, if there is one, and answers whether that
      exited zero, and answers false when there is none. */
  ghost predicate StartedAs(system: string, before: seq<Exchange>, after: seq<Exchange>, started: bool) {
    |after| > |before| && Issued(before, after[..|before| + 1], [DockerInfo])
    && if Succeeded(after[|before|].reply) then
         |after| == |before| + 1 && started
       else
         match StartCommand(system)
         case None => |after| == |before| + 1 && !started
         case Some(c) => Issued(before, after, [DockerInfo, c]) && started == Succeeded(Last(after).reply)
  }

  /** `is_docker_installed()`: true exactly when `shutil.which('docker')`
      finds a path. */
  method IsDockerInstalled(host: Host) returns (installed: bool)
    modifies host
    ensures |host.lookups| == |old(host.lookups)| + 1 && host.lookups[..|old(host.lookups)|] == old(host.lookups)
    ensures Last(host.lookups).name == "docker"
    ensures installed <==> Last(host.lookups).path.Some?
    ensures host.history == old(host.history)
  {
    var path := host.Which("docker");
    installed := path.Some?;
  }

  /** `is_docker_running()`: true exactly when `docker info` exits zero. */
  method IsDockerRunning(host: Host) returns (running: bool)
    modifies host
    ensures Issued(old(host.history), host.history, [DockerInfo]) && host.lookups == old(host.lookups)
    ensures running == Succeeded(Last(host.history).reply)
  {
    var p := host.Run(["docker", "info"], false);
    running := p.returnCode == 0;
  }

  /** `_start_docker_linux()`: `sudo systemctl start docker`. */
  method StartDockerLinux(host: Host) returns (started: bool)
    modifies host
    ensures Issued(old(host.history), host.history, [StartCommand("Linux").value]) && host.lookups == old(host.lookups)
    ensures started == Succeeded(Last(host.history).reply)
  {
    var p := host.Run(["sudo", "systemctl", "start", "docker"], false);
    started := p.returnCode == 0;
  }

  /** `_start_docker_macos()`: `open -a Docker`. */
  method StartDockerMacos(host: Host) returns (started: bool)
    modifies host
    ensures Issued(old(host.history), host.history, [StartCommand("Darwin").value]) && host.lookups == old(host.lookups)
    ensures started == Succeeded(Last(host.history).reply)
  {
    var p := host.Run(["open", "-a", "Docker"], false);
    started := p.returnCode == 0;
  }

  /** `_start_docker_windows()`: `start docker`, through the shell. */
  method StartDockerWindows(host: Host) returns (started: bool)
    modifies host
    ensures Issued(old(host.history), host.history, [StartCommand("Windows").value]) && host.lookups == old(host.lookups)
    ensures started == Succeeded(Last(host.history).reply)
  {
    var p := host.Run(["start", "docker"], true);
    started := p.returnCode == 0;
  }

  /** `start_docker_engine()`. */
  method StartDockerEngine(host: Host) returns (started: bool)
    modifies host
    ensures StartedAs(host.platform, old(host.history), host.history, started)
    ensures host.lookups == old(host.lookups)
  {
    ghost var before := host.history;
    var running := IsDockerRunning(host);
    if running {
      return true;
    }
    ghost var probed := host.history;
    var system := host.platform;
    if system == "Linux" {
      started := StartDockerLinux(host);
      assert host.history[|probed| + 0].call == [StartCommand(system).value][0];
    } else if system == "Darwin" {
      started := StartDockerMacos(host);
      assert host.history[|probed| + 0].call == [StartCommand(system).value][0];
    } else if system == "Windows" {
      started := StartDockerWindows(host);
      assert host.history[|probed| + 0].call == [StartCommand(system).value][0];
    } else {
      started := false;
    }
    assert host.history[..|before| + 1] == probed;
    if StartCommand(system).Some? {
      assert host.history[..|before|] == probed[..|before|];
    }
  }

  /** `ensure_docker_running()`: look `docker` up; when it is missing,
      answer false without starting any process; otherwise probe, answer
      true if the engine answers, and else hand over to
      `start_docker_engine`, which probes once more before starting. */
  method EnsureDockerRunning(host: Host) returns (running: bool)
    modifies host
    ensures |host.lookups| == |old(host.lookups)| + 1 && host.lookups[..|old(host.lookups)|] == old(host.lookups)
    ensures Last(host.lookups).name == "docker"
    ensures Last(host.lookups).path.None? ==> host.history == old(host.history) && !running
    ensures Last(host.lookups).path.Some? ==>
              var before := old(host.history);
              |host.history| > |before| && Issued(before, host.history[..|before| + 1], [DockerInfo])
              && if Succeeded(host.history[|before|].reply) then
                   |host.history| == |before| + 1 && running
                 else
                   StartedAs(host.platform, host.history[..|before| + 1], host.history, running)
  {
    var installed := IsDockerInstalled(host);
    if !installed {
      return false;
    }
    ghost var before := host.history;
    var up := IsDockerRunning(host);
    if up {
      return true;
    }
    ghost var probed := host.history;
    running := StartDockerEngine(host);
    assert host.history[..|before| + 1] == probed;
  }

  /** Under `ensure_docker_running`, the engine is reported running only
      when some `docker info` probe or the start command exited zero. */
  lemma EnsureReportsOnlyAnswers(system: string, before: seq<Exchange>, probed: seq<Exchange>, after: seq<Exchange>)
    requires |probed| == |before| + 1 && probed[..|before|] == before && probed[|before|].call == DockerInfo
    requires !Succeeded(probed[|before|].reply)
    requires StartedAs(system, probed, after, true)
    ensures |after| >= |before| + 2
    ensures Succeeded(after[|before| + 1].reply) || Succeeded(Last(after).reply)
    ensures after[|before|].call == DockerInfo && after[|before| + 1].call == DockerInfo
  {
    assert after[..|probed| + 1][..|probed|] == probed;
    assert after[|before|] == probed[|before|];
    assert after[..|probed| + 1][|probed| + 0].call == [DockerInfo][0];
  }
}
