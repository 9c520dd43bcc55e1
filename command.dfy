/**
 * The command executor behind `run_command`: an invocation, what the
 * operating system reports for it, the error text built on failure, and the
 * run-in-order-and-stop-at-the-first-failure discipline of every `?` chain.
 */
module Command {
  import opened Wrappers
  import opened Net

  /** `std::io::Error`; only its message is observable here. */
  datatype IoError = IoError(message: string)

  /** One external program run with its argument vector. */
  datatype Invocation = Invocation(program: string, args: seq<string>)

  /** What `Command::output` yields: a finished process, or an error from spawning it. */
  datatype ProcessOutput =
    | Exited(success: bool, stdout: seq<byte>, stderr: seq<byte>)
    | SpawnFailed(error: IoError)

  /**
   * The host's behaviour: the output of the last invocation of a history,
   * given every invocation made so far. Any deterministic machine, including
   * one whose answers change over time, is such a function.
   */
  type Host = seq<Invocation> -> ProcessOutput

  /** The fallible result of a sequence of commands, with the trace it leaves. */
  datatype Step<T> = Step(trace: seq<Invocation>, result: Result<T, IoError>)

  /** The bytes a failure is reported with: stderr, or stdout when stderr is empty. */
  function Diagnostic(stdout: seq<byte>, stderr: seq<byte>): (d: seq<byte>)
    ensures |stderr| > 0 ==> d == stderr
    ensures |stderr| == 0 ==> d == stdout
    ensures |d| == 0 <==> |stdout| == 0 && |stderr| == 0
  {
    if |stderr| == 0 then stdout else stderr
  }

  /** `<command> failed with: "<text>"`; both the command and the text can be read back. */
  function FailureMessage(program: string, text: string): (m: string)
    ensures |m| == |program| + 15 + |text| + 1
    ensures m[..|program|] == program
    ensures m[|program|..|program| + 15] == " failed with: \""
    ensures m[|program| + 15..|m| - 1] == text
    ensures m[|m| - 1] == '"'
  {
    program + " failed with: \"" + text + "\""
  }

  /** `run_command` after the process has run: stdout on success, a diagnostic error otherwise. */
  function CommandResult(lib: Lib, program: string, out: ProcessOutput): (r: Result<seq<byte>, IoError>)
    ensures r.Ok? <==> out.Exited? && out.success
    ensures r.Ok? ==> r.value == out.stdout
    ensures out.SpawnFailed? ==> r == Err(out.error)
    ensures out.Exited? && !out.success ==>
      r == Err(IoError(FailureMessage(program, lib.decodeLossy(Diagnostic(out.stdout, out.stderr)))))
  {
    match out
    case SpawnFailed(e) => Err(e)
    case Exited(success, stdout, stderr) =>
      if success then Ok(stdout)
      else Err(IoError(FailureMessage(program, lib.decodeLossy(Diagnostic(stdout, stderr)))))
  }

  /** The result of the last invocation of a history. */
  function LastResult(host: Host, lib: Lib, h: seq<Invocation>): Result<seq<byte>, IoError>
    requires |h| > 0
  {
    CommandResult(lib, h[|h| - 1].program, host(h))
  }

  predicate Succeeds(host: Host, lib: Lib, h: seq<Invocation>)
    requires |h| > 0
  {
    LastResult(host, lib, h).Ok?
  }

  /** Runs `cs` in order after history `h`, stopping at the first command that fails. */
  function Exec(host: Host, lib: Lib, h: seq<Invocation>, cs: seq<Invocation>): Step<()>
    decreases |cs|
  {
    if cs == [] then Step(h, Ok(()))
    else
      var h' := h + [cs[0]];
      match LastResult(host, lib, h')
      case Err(e) => Step(h', Err(e))
      case Ok(_) => Exec(host, lib, h', cs[1..])
  }

  /** `Exec` issues a prefix of `cs`, all of it on success; a failure is the last command's. */
  lemma {:induction false} ExecIssuesPrefix(host: Host, lib: Lib, h: seq<Invocation>, cs: seq<Invocation>)
    ensures var st := Exec(host, lib, h, cs);
      |h| <= |st.trace| <= |h| + |cs| &&
      st.trace == h + cs[..|st.trace| - |h|] &&
      (st.result.Ok? ==> st.trace == h + cs) &&
      (st.result.Err? ==> |st.trace| > |h| && LastResult(host, lib, st.trace) == Err(st.result.error))
    decreases |cs|
  {
    if cs != [] {
      var h' := h + [cs[0]];
      var st := Exec(host, lib, h, cs);
      if LastResult(host, lib, h').Ok? {
        var rest := Exec(host, lib, h', cs[1..]);
        assert st == rest;
        ExecIssuesPrefix(host, lib, h', cs[1..]);
        var n := |rest.trace| - |h'|;
        assert 0 <= n <= |cs| - 1;
        assert rest.trace == h' + cs[1..][..n];
        assert cs[1..][..n] == cs[1..n + 1];
        assert h' + cs[1..n + 1] == h + cs[..n + 1];
        assert h' + cs[1..] == h + cs;
      } else {
        assert cs[..1] == [cs[0]];
      }
    }
  }

  /** Every command `Exec` issued before the last one succeeded, and on success the last one did too. */
  lemma {:induction false} ExecEarlierSucceeded(host: Host, lib: Lib, h: seq<Invocation>, cs: seq<Invocation>)
    ensures var st := Exec(host, lib, h, cs);
      (forall k :: |h| < k < |st.trace| ==> Succeeds(host, lib, st.trace[..k])) &&
      (st.result.Ok? && |cs| > 0 ==> |st.trace| > 0 && Succeeds(host, lib, st.trace))
    decreases |cs|
  {
    ExecIssuesPrefix(host, lib, h, cs);
    if cs != [] {
      var h' := h + [cs[0]];
      var st := Exec(host, lib, h, cs);
      if LastResult(host, lib, h').Ok? {
        assert st == Exec(host, lib, h', cs[1..]);
        ExecEarlierSucceeded(host, lib, h', cs[1..]);
        ExecIssuesPrefix(host, lib, h', cs[1..]);
        var t := st.trace;
        forall k | |h| < k < |t|
          ensures Succeeds(host, lib, t[..k])
        {
          if k == |h'| {
            assert t[..k] == h';
          }
        }
      }
    }
  }

  /** Running `cs` after a history `h0 + pre` extends it by a prefix of `cs`, keeping `h0 + pre`. */
  lemma {:induction false} ExecExtends(host: Host, lib: Lib, h0: seq<Invocation>, pre: seq<Invocation>, cs: seq<Invocation>)
    ensures var t := Exec(host, lib, h0 + pre, cs).trace;
      |h0| + |pre| <= |t| <= |h0| + |pre| + |cs| &&
      t == h0 + (pre + cs)[..|t| - |h0|] &&
      t[..|h0| + |pre|] == h0 + pre
  {
    ExecIssuesPrefix(host, lib, h0 + pre, cs);
    var t := Exec(host, lib, h0 + pre, cs).trace;
    var n := |t| - |h0 + pre|;
    assert (pre + cs)[..|pre| + n] == pre + cs[..n];
    assert h0 + pre + cs[..n] == h0 + (pre + cs[..n]);
  }

  /** After a successful `h0 + pre`, `Exec` of `cs` fails with its last command's error, or runs all of `cs`. */
  lemma {:induction false} ExecOutcome(host: Host, lib: Lib, h0: seq<Invocation>, pre: seq<Invocation>, cs: seq<Invocation>)
    requires |pre| > 0 && Succeeds(host, lib, h0 + pre)
    ensures var st := Exec(host, lib, h0 + pre, cs);
      var t, r := st.trace, st.result;
      |t| >= |h0| + |pre| &&
      (r.Err? ==> LastResult(host, lib, t) == Err(r.error)) &&
      (r.Ok? <==> |t| == |h0| + |pre| + |cs| && Succeeds(host, lib, t)) &&
      (r.Ok? ==> t == h0 + (pre + cs))
  {
    ExecIssuesPrefix(host, lib, h0 + pre, cs);
    ExecEarlierSucceeded(host, lib, h0 + pre, cs);
    assert h0 + pre + cs == h0 + (pre + cs);
  }
}
