/** `run_docker_command`, which each of the four service modules defines
    identically: run `docker` with the given arguments, and turn the
    process's exit status and output into a `(success, text)` pair. Only a
    non-zero exit (`CalledProcessError`) is caught. */
module Runner {

  import opened Py
  import opened PyStr
  import opened Process

  const ErrorPrefix := "Error executing Docker command: "

  /** The flags that make listing and inspect commands print JSON. */
  const FormatJson: seq<string> := ["--format", "{{json .}}"]

  /** `subprocess.run(["docker"] + command, capture_output=True, text=True, check=True)`. */
  function DockerCall(command: seq<string>): (c: Invocation)
    ensures |c.argv| == |command| + 1 && c.argv[0] == "docker" && c.argv[1..] == command && !c.shell
  {
    Invocation(["docker"] + command, false)
  }

  /** The pair `run_docker_command` returns once the process has finished:
      the stripped standard output on success, otherwise the prefixed,
      stripped standard error. */
  function CommandOutcome(p: ProcessResult): (r: (bool, string))
    ensures r.0 <==> Succeeded(p)
    ensures r.0 ==> r.1 == Strip(p.stdout)
    ensures !r.0 ==> r.1 == ErrorPrefix + Strip(p.stderr)
  {
    if p.returnCode == 0 then (true, Strip(p.stdout))
    else (false, ErrorPrefix + Strip(p.stderr))
  }

  /** On success the text is the standard output with its surrounding
      whitespace, and nothing else, removed; on failure it is the fixed
      prefix followed by the standard error trimmed the same way, so the
      diagnostic can be read back from the message. */
  lemma CommandOutcomeText(p: ProcessResult)
    ensures var (ok, text) := CommandOutcome(p);
      (ok ==> Trimmed(text) && Strip(text) == text)
      && (!ok ==> text[..|ErrorPrefix|] == ErrorPrefix && text[|ErrorPrefix|..] == Strip(p.stderr)
                  && Trimmed(text[|ErrorPrefix|..]))
  {
    var (ok, text) := CommandOutcome(p);
    if ok {
      StripIdempotent(p.stdout);
    }
  }

  method RunDockerCommand(host: Host, command: seq<string>) returns (success: bool, output: string)
    modifies host
    ensures Issued(old(host.history), host.history, [DockerCall(command)])
    ensures (success, output) == CommandOutcome(Last(host.history).reply)
    ensures host.lookups == old(host.lookups)
  {
    var p := host.Run(["docker"] + command, false);
    if p.returnCode == 0 {
      success, output := true, Strip(p.stdout);
    } else {
      success, output := false, ErrorPrefix + Strip(p.stderr);
    }
  }
}
