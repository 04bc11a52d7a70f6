/**
 * The run lifecycle of `Cmd.Run`: create a container, remove it on every
 * exit path once it exists (Go's `defer`), start it, poll `inspect` until
 * it reports a finish time, fetch its logs and return.
 *
 * The Docker daemon is the class `Runtime`.  Each of its methods records the
 * call and its answer on the ghost `trace`; its contract says nothing else
 * about the answer, so what `Run` is proved to do holds for every daemon.
 */
module Lifecycle {
  import opened Wrappers
  import opened Logs
  import opened Config
  import opened CommandLine

  /** One call issued to the daemon, with the answer it gave. */
  datatype Call =
    | CreateCall(image: string, cmd: seq<string>, created: Result<string, Reason>)
    | StartCall(id: string, started: Option<Reason>)
    | InspectCall(id: string, finished: Result<bool, Reason>)  // true: `FinishedAt` is not the zero time
    | LogsCall(id: string, fetched: Result<Streams, Reason>)
    | RemoveCall(id: string, removed: Option<Reason>)

  /** The error a call's answer reports, if any. */
  function FailureOf(c: Call): (r: Option<Reason>)
    ensures r.Some? <==>
      (c.CreateCall? && c.created.Failure?) || (c.StartCall? && c.started.Some?) ||
      (c.InspectCall? && c.finished.Failure?) || (c.LogsCall? && c.fetched.Failure?) ||
      (c.RemoveCall? && c.removed.Some?)
  {
    match c
    case CreateCall(_, _, created) => if created.Failure? then Some(created.error) else None
    case StartCall(_, started) => started
    case InspectCall(_, finished) => if finished.Failure? then Some(finished.error) else None
    case LogsCall(_, fetched) => if fetched.Failure? then Some(fetched.error) else None
    case RemoveCall(_, removed) => removed
  }

  /**
   * The daemon.  The non-ghost fields are its private answers (a scripted
   * daemon); callers see only the contracts, which leave every answer open.
   */
  class Runtime {
    ghost var trace: seq<Call>

    var createAnswer: Result<string, Reason>
    var startAnswer: Option<Reason>
    var inspectAnswers: seq<Result<bool, Reason>>
    var logsAnswer: Result<Streams, Reason>
    var removeAnswer: Option<Reason>

    constructor (createAnswer: Result<string, Reason>, startAnswer: Option<Reason>,
                 inspectAnswers: seq<Result<bool, Reason>>, logsAnswer: Result<Streams, Reason>,
                 removeAnswer: Option<Reason>)
      ensures trace == []
    {
      this.createAnswer := createAnswer;
      this.startAnswer := startAnswer;
      this.inspectAnswers := inspectAnswers;
      this.logsAnswer := logsAnswer;
      this.removeAnswer := removeAnswer;
      trace := [];
    }

    /** `client.CreateContainer` with the image reference and the command line. */
    method Create(image: string, cmd: seq<string>) returns (created: Result<string, Reason>)
      modifies this
      ensures trace == old(trace) + [CreateCall(image, cmd, created)]
    {
      created := createAnswer;
      trace := trace + [CreateCall(image, cmd, created)];
    }

    /** `client.StartContainer`. */
    method Start(id: string) returns (started: Option<Reason>)
      modifies this
      ensures trace == old(trace) + [StartCall(id, started)]
    {
      started := startAnswer;
      trace := trace + [StartCall(id, started)];
    }

    /** `client.InspectContainer`, reduced to whether `FinishedAt` is set. */
    method Inspect(id: string) returns (finished: Result<bool, Reason>)
      modifies this
      ensures trace == old(trace) + [InspectCall(id, finished)]
    {
      if inspectAnswers == [] {
        finished := Success(true);
      } else {
        finished := inspectAnswers[0];
        inspectAnswers := inspectAnswers[1..];
      }
      trace := trace + [InspectCall(id, finished)];
    }

    /** The logs request, answered with the demultiplexed stdout and stderr. */
    method Logs(id: string) returns (fetched: Result<Streams, Reason>)
      modifies this
      ensures trace == old(trace) + [LogsCall(id, fetched)]
    {
      fetched := logsAnswer;
      trace := trace + [LogsCall(id, fetched)];
    }

    /** `client.RemoveContainer`, forced, volumes kept. */
    method Remove(id: string) returns (removed: Option<Reason>)
      modifies this
      ensures trace == old(trace) + [RemoveCall(id, removed)]
    {
      removed := removeAnswer;
      trace := trace + [RemoveCall(id, removed)];
    }
  }

  /** Every call of `polls` is an inspection of `id` that found it still running. */
  ghost predicate Unfinished(id: string, polls: seq<Call>)
  {
    forall j :: 0 <= j < |polls| ==> polls[j] == InspectCall(id, Success(false))
  }

  /**
   * The calls of the poll loop and what follows it, with at most `fuel`
   * inspections: an error ends the run, a finished container is followed by
   * exactly one logs call whose result decides the reply.
   */
  ghost predicate Polled(id: string, fuel: nat, t: seq<Call>, reply: Response)
    decreases fuel
  {
    if fuel == 0 then t == [] && reply == Response("", Some(PollBudgetExhausted))
    else
      |t| >= 1 && t[0].InspectCall? && t[0].id == id &&
      match t[0].finished
      case Failure(e) => |t| == 1 && reply == Response("", Some(DaemonError(e)))
      case Success(finished) =>
        if finished then |t| == 2 && t[1].LogsCall? && t[1].id == id && reply == RunReply(GetLogs(t[1].fetched))
        else Polled(id, fuel - 1, t[1..], reply)
  }

  /** The calls made between a successful create and the deferred remove. */
  ghost predicate Supervised(id: string, fuel: nat, t: seq<Call>, reply: Response)
  {
    |t| >= 1 && t[0].StartCall? && t[0].id == id &&
    match t[0].started
    case Some(e) => |t| == 1 && reply == Response("", Some(DaemonError(e)))
    case None => Polled(id, fuel, t[1..], reply)
  }

  /** The calls one run makes, given the image and command line it creates the container with. */
  ghost predicate RunTrace(image: string, cmd: seq<string>, fuel: nat, t: seq<Call>, reply: Response)
  {
    |t| >= 1 && t[0].CreateCall? && t[0].image == image && t[0].cmd == cmd &&
    match t[0].created
    case Failure(e) => |t| == 1 && reply == Response("", Some(DaemonError(e)))
    case Success(id) =>
      |t| >= 2 && t[|t| - 1].RemoveCall? && t[|t| - 1].id == id && Supervised(id, fuel, t[1..|t| - 1], reply)
  }

  /** Inspections that found the container running may be put in front of a poll trace. */
  lemma {:induction false} PolledAfterUnfinished(id: string, fuel: nat, polls: seq<Call>, rest: seq<Call>, reply: Response)
    requires |polls| <= fuel && Unfinished(id, polls)
    requires Polled(id, fuel - |polls|, rest, reply)
    ensures Polled(id, fuel, polls + rest, reply)
  {
    if polls != [] {
      assert polls[0] == InspectCall(id, Success(false));
      assert Unfinished(id, polls[1..]) by {
        forall j | 0 <= j < |polls[1..]| ensures polls[1..][j] == InspectCall(id, Success(false)) {
          assert polls[1..][j] == polls[j + 1];
        }
      }
      PolledAfterUnfinished(id, fuel - 1, polls[1..], rest, reply);
      assert (polls + rest)[0] == polls[0];
      assert (polls + rest)[1..] == polls[1..] + rest;
    } else {
      assert polls + rest == rest;
    }
  }

  /** Slicing off a prefix gives back what was appended to it. */
  lemma AfterPrefix(prefix: seq<Call>, added: seq<Call>)
    ensures |prefix| <= |prefix + added| && (prefix + added)[..|prefix|] == prefix
    ensures (prefix + added)[|prefix|..] == added
  {
  }

  /** Appending one call to a trace of the shape `prefix + (head + middle)`. */
  lemma Appended(prefix: seq<Call>, head: seq<Call>, middle: seq<Call>, call: Call)
    ensures prefix + (head + middle) + [call] == prefix + (head + (middle + [call]))
  {
  }

  /** An operation bound to the daemon it runs on (`NewCmd`). */
  class Cmd {
    const op: string
    const client: Runtime

    constructor (op: string, client: Runtime)
      ensures this.op == op && this.client == client
    {
      this.op := op;
      this.client := client;
    }

    /**
     * `Run`: the container is created from `repository:tag` with the command
     * line of this operation; if that succeeds, the remove call comes after
     * every other call, whichever way the rest of the run ends.  `fuel`
     * bounds the number of inspections.
     */
    method Run(config: CmdConfig, args: seq<string>, fuel: nat) returns (reply: Response)
      modifies client
      ensures |old(client.trace)| <= |client.trace| && client.trace[..|old(client.trace)|] == old(client.trace)
      ensures RunTrace(ImageRef(config.containerRepository, config.containerTag),
                       BuildCommand(config.commandsDir, op, args), fuel,
                       client.trace[|old(client.trace)|..], reply)
    {
      var cmd := BuildCommand(config.commandsDir, op, args);
      var image := ImageRef(config.containerRepository, config.containerTag);
      var created := client.Create(image, cmd);
      if created.Failure? {
        reply := Response("", Some(DaemonError(created.error)));
        return;
      }
      var id := created.value;
      ghost var before := old(client.trace);
      ghost var first := CreateCall(image, cmd, created);
      ghost var mid := client.trace;
      reply := Supervise(id, fuel);
      ghost var supervised := client.trace[|mid|..];
      assert client.trace == mid + supervised;
      var removed := client.Remove(id);
      ghost var t := [first] + supervised + [RemoveCall(id, removed)];
      assert client.trace == before + t;
      AfterPrefix(before, t);
      assert t[1..|t| - 1] == supervised;
    }

    /** The part of `Run` after a successful create, up to the deferred remove. */
    method Supervise(id: string, fuel: nat) returns (reply: Response)
      modifies client
      ensures |old(client.trace)| <= |client.trace| && client.trace[..|old(client.trace)|] == old(client.trace)
      ensures Supervised(id, fuel, client.trace[|old(client.trace)|..], reply)
    {
      var started := client.Start(id);
      if started.Some? {
        reply := Response("", Some(DaemonError(started.value)));
        return;
      }
      ghost var before := old(client.trace);
      ghost var polls: seq<Call> := [];
      var n: nat := fuel;
      while true
        invariant n <= fuel && |polls| == fuel - n
        invariant client.trace == before + ([StartCall(id, None)] + polls) && Unfinished(id, polls)
        decreases n
      {
        if n == 0 {
          reply := Response("", Some(PollBudgetExhausted));
          PolledAfterUnfinished(id, fuel, polls, [], reply);
          assert polls + [] == polls;
          AfterPrefix(before, [StartCall(id, None)] + polls);
          return;
        }
        var finished := client.Inspect(id);
        Appended(before, [StartCall(id, None)], polls, InspectCall(id, finished));
        if finished.Failure? {
          reply := Response("", Some(DaemonError(finished.error)));
          PolledAfterUnfinished(id, fuel, polls, [InspectCall(id, finished)], reply);
          AfterPrefix(before, [StartCall(id, None)] + (polls + [InspectCall(id, finished)]));
          return;
        }
        if finished.value {
          break;
        }
        polls := polls + [InspectCall(id, finished)];
        n := n - 1;
      }
      var fetched := client.Logs(id);
      reply := RunReply(GetLogs(fetched));
      ghost var rest := [InspectCall(id, Success(true)), LogsCall(id, fetched)];
      PolledAfterUnfinished(id, fuel, polls, rest, reply);
      Appended(before, [StartCall(id, None)], polls + [InspectCall(id, Success(true))], LogsCall(id, fetched));
      assert polls + [InspectCall(id, Success(true))] + [LogsCall(id, fetched)] == polls + rest;
      AfterPrefix(before, [StartCall(id, None)] + (polls + rest));
    }
  }
}
