/** The host the core runs on, as an oracle: `subprocess.run` answers each
    invocation with an arbitrary exit status and output, `shutil.which`
    answers each lookup arbitrarily, and `platform.system()` is fixed for
    the life of the process. A ghost history records every exchange, so that
    callers can promise exactly which processes they started and what they
    did with the answers. */
module Process {

  import opened Py

  /** One `subprocess.run(argv, shell=shell)`. */
  datatype Invocation = Invocation(argv: seq<string>, shell: bool)

  /** What a finished process left behind. `check=True` turns a non-zero
      `returnCode` into `CalledProcessError`. */
  datatype ProcessResult = ProcessResult(returnCode: int, stdout: string, stderr: string)

  datatype Exchange = Exchange(call: Invocation, reply: ProcessResult)

  /** One `shutil.which(name)` and the path it found, if any. */
  datatype Lookup = Lookup(name: string, path: Option<string>)

  predicate Succeeded(p: ProcessResult) {
    p.returnCode == 0
  }

  /** `after` is `before` followed by exactly the invocations `calls`, in order. */
  ghost predicate Issued(before: seq<Exchange>, after: seq<Exchange>, calls: seq<Invocation>) {
    |after| == |before| + |calls| && after[..|before|] == before
    && forall k :: 0 <= k < |calls| ==> after[|before| + k].call == calls[k]
  }

  class Host {
    /** The value of `platform.system()`: "Linux", "Darwin", "Windows", ... */
    const platform: string
    ghost var history: seq<Exchange>
    ghost var lookups: seq<Lookup>

    constructor (platform: string)
      ensures this.platform == platform && history == [] && lookups == []
    {
      this.platform := platform;
      history := [];
      lookups := [];
    }

    /** `subprocess.run(argv, shell=shell)`: the host picks the outcome. */
    method Run(argv: seq<string>, shell: bool) returns (p: ProcessResult)
      modifies this
      ensures history == old(history) + [Exchange(Invocation(argv, shell), p)]
      ensures lookups == old(lookups)
    {
      p :| true;
      history := history + [Exchange(Invocation(argv, shell), p)];
    }

    /** `shutil.which(name)`: the host decides whether `name` is on the search path. */
    method Which(name: string) returns (path: Option<string>)
      modifies this
      ensures lookups == old(lookups) + [Lookup(name, path)]
      ensures history == old(history)
    {
      path :| true;
      lookups := lookups + [Lookup(name, path)];
    }
  }
}
