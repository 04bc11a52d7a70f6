/**
 * Result classification of `getLogs` and the way `Cmd.Run` passes it on.
 * The log request is taken to have already split the container's output
 * into stdout and stderr bytes (or to have failed).
 */
module Logs {
  import opened Wrappers

  type byte = b: int | 0 <= b < 256

  /**
   * The error a Docker client call or the logs request returned.  It is a
   * type of its own because the daemon never answers with one of the
   * errors below that the library itself makes.
   */
  type Reason = string

  /** The errors a run can end with. */
  datatype Error =
    | ErrCommandResponse          // the script wrote to stderr
    | DaemonError(reason: Reason) // a create, start, inspect or logs call failed, its error passed on unchanged
    | PollBudgetExhausted         // the model's bound on inspections ran out

  /** The two byte buffers recovered from the container's log stream. */
  datatype Streams = Streams(stdout: seq<byte>, stderr: seq<byte>)

  /** A Go `(string, error)` pair; `None` is a nil error. */
  datatype Response = Response(output: string, error: Option<Error>)

  /** Go's `string(b)`: one character per byte, same code. */
  function BytesToString(b: seq<byte>): (s: string)
    ensures |s| == |b|
    ensures forall i :: 0 <= i < |b| ==> s[i] as int == b[i]
  {
    seq(|b|, i requires 0 <= i < |b| => b[i] as char)
  }

  /** Converting bytes to a string loses nothing. */
  lemma BytesToStringInjective(a: seq<byte>, b: seq<byte>)
    ensures BytesToString(a) == BytesToString(b) <==> a == b
  {
  }

  /**
   * `getLogs`: a failed request passes its error on with no output; otherwise
   * any stderr output makes the run a command failure carrying the stderr
   * text, and silence on stderr returns the stdout text with no error.
   */
  function GetLogs(fetched: Result<Streams, Reason>): (r: Response)
    ensures fetched.Failure? ==> r == Response("", Some(DaemonError(fetched.error)))
    ensures fetched.Success? && fetched.value.stderr != [] ==>
      r.error == Some(ErrCommandResponse) && r.output == BytesToString(fetched.value.stderr)
    ensures r.error.None? <==> fetched.Success? && fetched.value.stderr == []
    ensures r.error.None? ==> r.output == BytesToString(fetched.value.stdout)
    ensures r.error == Some(ErrCommandResponse) <==> fetched.Success? && fetched.value.stderr != []
  {
    match fetched
    case Failure(reason) => Response("", Some(DaemonError(reason)))
    case Success(streams) =>
      if |streams.stderr| != 0 then Response(BytesToString(streams.stderr), Some(ErrCommandResponse))
      else Response(BytesToString(streams.stdout), None)
  }

  /** What `Cmd.Run` returns for the result of `getLogs`: the payload is dropped on any error. */
  function RunReply(logs: Response): (r: Response)
    ensures r.error == logs.error
    ensures r.error.Some? ==> r.output == ""
    ensures r.error.None? ==> r.output == logs.output
  {
    if logs.error.Some? then Response("", logs.error) else Response(logs.output, None)
  }

  /** Output on stderr reaches the caller of `Run` as an error with no text. */
  lemma StderrIsDiscarded(stdout: seq<byte>, stderr: seq<byte>)
    requires stderr != []
    ensures RunReply(GetLogs(Success(Streams(stdout, stderr)))) == Response("", Some(ErrCommandResponse))
  {
  }

  /** A run that is silent on stderr returns exactly its stdout, whatever it is. */
  lemma StdoutIsReturned(stdout: seq<byte>)
    ensures RunReply(GetLogs(Success(Streams(stdout, [])))) == Response(BytesToString(stdout), None)
  {
  }
}
