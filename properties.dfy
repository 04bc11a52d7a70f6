/**
 * What every run trace satisfies: the cleanup discipline, the order of the
 * poll loop and the logs call, and how the reply is chosen.
 */
module RunProperties {
  import opened Wrappers
  import opened Logs
  import opened Lifecycle

  /** Facts about the poll part of a run, by induction on the inspections left. */
  lemma {:induction false} PolledShape(id: string, fuel: nat, s: seq<Call>, reply: Response)
    requires Polled(id, fuel, s, reply)
    ensures |s| <= fuel + 1
    ensures forall j :: 0 <= j < |s| ==> (s[j].InspectCall? || s[j].LogsCall?) && s[j].id == id
    ensures forall j :: 0 <= j < |s| && s[j].LogsCall? ==>
      j == |s| - 1 && 1 <= j && s[j - 1] == InspectCall(id, Success(true)) && reply == RunReply(GetLogs(s[j].fetched))
    ensures forall j :: 0 <= j < |s| && s[j].InspectCall? && s[j].finished == Success(true) ==>
      j == |s| - 2 && s[j + 1].LogsCall?
    ensures forall j :: 0 <= j < |s| && s[j].InspectCall? && s[j].finished.Failure? ==>
      j == |s| - 1 && reply == Response("", Some(DaemonError(s[j].finished.error)))
    ensures reply.error.None? ==> 2 <= |s| && s[|s| - 1].LogsCall? && reply == RunReply(GetLogs(s[|s| - 1].fetched))
    ensures reply.error.Some? ==> reply.output == ""
    ensures reply.error == Some(ErrCommandResponse) ==>
      2 <= |s| && s[|s| - 1].LogsCall? && s[|s| - 1].fetched.Success? && s[|s| - 1].fetched.value.stderr != []
    ensures reply.error.Some? && reply.error.value.DaemonError? ==>
      1 <= |s| && FailureOf(s[|s| - 1]) == Some(reply.error.value.reason)
    ensures reply.error == Some(PollBudgetExhausted) <==> |s| == fuel && Unfinished(id, s)
    decreases fuel
  {
    if fuel > 0 && s[0].finished == Success(false) {
      var s' := s[1..];
      PolledShape(id, fuel - 1, s', reply);
      assert forall j :: 1 <= j < |s| ==> s[j] == s'[j - 1];
    }
  }

  /** Two poll traces that agree call for call end with the same reply. */
  lemma {:induction false} PolledDeterministic(id: string, fuel: nat, s: seq<Call>, r1: Response, r2: Response)
    requires Polled(id, fuel, s, r1) && Polled(id, fuel, s, r2)
    ensures r1 == r2
    decreases fuel
  {
    if fuel > 0 && s[0].finished == Success(false) {
      PolledDeterministic(id, fuel - 1, s[1..], r1, r2);
    }
  }

  /** The poll part of a run whose create and start succeeded, with its positions in `t`. */
  lemma PollPart(image: string, cmd: seq<string>, fuel: nat, t: seq<Call>, reply: Response)
    requires RunTrace(image, cmd, fuel, t, reply)
    requires t[0].created.Success? && t[1].StartCall? && t[1].started.None?
    ensures 2 <= |t| - 1 && Polled(t[0].created.value, fuel, t[2..|t| - 1], reply)
    ensures forall j :: 2 <= j < |t| - 1 ==> t[j] == t[2..|t| - 1][j - 2]
  {
  }

  /**
   * Cleanup: if create fails nothing else is called; once it succeeds every
   * later call is about that container, and the one remove call is the last.
   */
  lemma CleanupDiscipline(image: string, cmd: seq<string>, fuel: nat, t: seq<Call>, reply: Response)
    requires RunTrace(image, cmd, fuel, t, reply)
    ensures t[0].created.Failure? ==> t == [CreateCall(image, cmd, t[0].created)] && reply == Response("", Some(DaemonError(t[0].created.error)))
    ensures forall j :: 0 <= j < |t| ==> (t[j].RemoveCall? <==> t[0].created.Success? && j == |t| - 1)
    ensures t[0].created.Success? ==> forall j :: 1 <= j < |t| ==> !t[j].CreateCall? && t[j].id == t[0].created.value
  {
    if t[0].created.Success? {
      assert t[1..|t| - 1][0] == t[1];
      if t[1].started.None? {
        PollPart(image, cmd, fuel, t, reply);
        PolledShape(t[0].created.value, fuel, t[2..|t| - 1], reply);
      }
    }
  }

  /**
   * The order of the run after create: start comes first; inspect and logs
   * are called only if start succeeded; the logs call comes right after an
   * inspection that found the container finished and right before the
   * remove; a failed inspection ends the run with its error.
   */
  lemma PollDiscipline(image: string, cmd: seq<string>, fuel: nat, t: seq<Call>, reply: Response)
    requires RunTrace(image, cmd, fuel, t, reply)
    ensures t[0].created.Success? ==>
      (3 <= |t| && t[1].StartCall? && (t[1].started.Some? ==> |t| == 3 && reply == Response("", Some(DaemonError(t[1].started.value)))))
    ensures forall j :: 0 <= j < |t| && (t[j].InspectCall? || t[j].LogsCall?) ==>
      t[0].created.Success? && t[1] == StartCall(t[0].created.value, None) && 2 <= j
    ensures forall j :: 0 <= j < |t| && t[j].LogsCall? ==>
      j == |t| - 2 && t[j - 1] == InspectCall(t[j].id, Success(true))
    ensures forall j :: 0 <= j < |t| && t[j].InspectCall? && t[j].finished.Failure? ==>
      j == |t| - 2 && reply == Response("", Some(DaemonError(t[j].finished.error)))
    ensures |t| <= fuel + 4
  {
    if t[0].created.Success? {
      assert t[1..|t| - 1][0] == t[1];
      if t[1].started.None? {
        PollPart(image, cmd, fuel, t, reply);
        PolledShape(t[0].created.value, fuel, t[2..|t| - 1], reply);
      }
    }
  }

  /**
   * The reply: on every error the payload is empty; there is no error
   * exactly when the logs call succeeded with empty stderr, and then the
   * payload is the stdout text; the reply is `ErrCommandResponse`, with no
   * text, exactly when the logs call succeeded with stderr output; it is
   * `PollBudgetExhausted` exactly when every one of the `fuel` inspections
   * found the container running; any other error is the one the daemon
   * gave in the last call before the remove.
   */
  lemma ReplyClassification(image: string, cmd: seq<string>, fuel: nat, t: seq<Call>, reply: Response)
    requires RunTrace(image, cmd, fuel, t, reply)
    ensures reply.error.Some? ==> reply.output == ""
    ensures reply.error.None? ==>
      4 <= |t| && t[|t| - 2].LogsCall? && t[|t| - 2].fetched.Success? && t[|t| - 2].fetched.value.stderr == []
      && reply.output == BytesToString(t[|t| - 2].fetched.value.stdout)
    ensures forall j :: 0 <= j < |t| && t[j].LogsCall? && t[j].fetched.Success? && t[j].fetched.value.stderr == [] ==>
      reply == Response(BytesToString(t[j].fetched.value.stdout), None)
    ensures forall j :: 0 <= j < |t| && t[j].LogsCall? && t[j].fetched.Success? && t[j].fetched.value.stderr != [] ==>
      reply == Response("", Some(ErrCommandResponse))
    ensures forall j :: 0 <= j < |t| && t[j].LogsCall? && t[j].fetched.Failure? ==>
      reply == Response("", Some(DaemonError(t[j].fetched.error)))
    ensures reply.error == Some(ErrCommandResponse) <==>
      4 <= |t| && t[|t| - 2].LogsCall? && t[|t| - 2].fetched.Success? && t[|t| - 2].fetched.value.stderr != []
    ensures reply.error == Some(PollBudgetExhausted) <==>
      t[0].created.Success? && |t| == fuel + 3 && t[1] == StartCall(t[0].created.value, None) &&
      forall j :: 2 <= j < |t| - 1 ==> t[j] == InspectCall(t[0].created.value, Success(false))
    ensures reply.error.Some? && reply.error.value.DaemonError? ==>
      FailureOf(t[if |t| == 1 then 0 else |t| - 2]) == Some(reply.error.value.reason)
  {
    if t[0].created.Success? {
      assert t[1..|t| - 1][0] == t[1];
      if t[1].started.None? {
        PollPart(image, cmd, fuel, t, reply);
        PolledShape(t[0].created.value, fuel, t[2..|t| - 1], reply);
      }
    }
  }

  /** The calls of a run and their answers determine its reply. */
  lemma ReplyDetermined(image: string, cmd: seq<string>, fuel: nat, t: seq<Call>, r1: Response, r2: Response)
    requires RunTrace(image, cmd, fuel, t, r1) && RunTrace(image, cmd, fuel, t, r2)
    ensures r1 == r2
  {
    if t[0].created.Success? {
      assert t[1..|t| - 1][0] == t[1];
      if t[1].started.None? {
        PollPart(image, cmd, fuel, t, r1);
        PolledDeterministic(t[0].created.value, fuel, t[2..|t| - 1], r1, r2);
      }
    }
  }
}
