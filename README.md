# libcmd: a Dafny model of the command-execution core

`libcmd` runs a named shell script (an *operation*) inside a short-lived
Docker container and hands back what the script printed.  `InitCmdContainer`
merges the caller's options over a default table.  `Cmd.Run` then builds the
command line `bash <CommandsDir>/<op>.sh args...`, creates a container from
`repository:tag`, and defers its removal.  It starts the container, inspects
it until Docker reports a finish time, fetches the logs (stdout and stderr
already separated) and classifies them: any stderr output is a command
failure (`ErrCommandResponse`), otherwise the stdout text is the result.

The model has five modules:

- `Wrappers`: `Option` and `Result`.
- `Config`: the `CmdConfig` record, the default table, the per-key field
  table that stands for Go's reflection, the merge loop `InitCmdContainer`,
  and its specification `Resolve`.
- `CommandLine`: the script path, the command line and the image reference,
  each with an inverse (`ParseCommand`, `SplitImageRef`) and a round-trip
  lemma.
- `Logs`: Go's `string([]byte)`, the classification of `getLogs`, and how
  `Run` passes its result on (`RunReply`).
- `Lifecycle`: the daemon as a class `Runtime` and the `Cmd` class with
  `Run`.  Each daemon method appends the call it received, with its answer,
  to a ghost `trace`.  Its contract says nothing else about the answer, so
  `Run`'s proof holds for every behaviour of the daemon.  The private fields
  that give the methods their bodies act as a scripted daemon.  `Run` is
  proved to produce a trace and reply accepted by the reference predicate
  `RunTrace` (with `Supervised` and `Polled`).
- `RunProperties`: lemmas about `RunTrace`: the cleanup discipline, the
  order of polling and log retrieval, and the classification of the reply.

Go's `defer removeContainer(...)` is modelled by splitting `Run` in two.
`Supervise` is the body after a successful create, with all its early
returns.  `Run` calls `Remove` after `Supervise` returns, so removal follows
every exit path.  As in Go, the error returned by remove is ignored.

Output on stderr does not reach the caller as text.  `getLogs` returns
`(string(stderr), ErrCommandResponse)` (libcmd.go:181), but `Run` replaces
the text with `""` on any error (libcmd.go:99-100), so the caller gets
`("", ErrCommandResponse)` (`Logs.StderrIsDiscarded`,
`RunProperties.ReplyClassification`).

Errors the daemon returns have their own type, `Logs.Reason`, and reach the
caller wrapped as `DaemonError(reason)`.  The daemon can therefore never
answer with `ErrCommandResponse`, which only `getLogs` produces, so a caller
that sees that error knows the script wrote to stderr.

## Model

| member | source | states |
|---|---|---|
| `Config.SetField` | libcmd.go:50-55 | setting the field named by a table key changes that field to the value and leaves the other three unchanged |
| `Config.InitCmdContainer` | libcmd.go:47-56 | visiting the default keys in any order, each field ends as the supplied value if the key is present and the default otherwise; the result equals `Resolve(opts)` |
| `Config.ResolveField` | libcmd.go:49-56 | for each recognised key, the resolved field is `opts[key]` when present, else the table default |
| `Config.ResolveIgnoresUnknownKeys` | libcmd.go:49-56 | two option maps that agree on the four recognised keys resolve to the same configuration, so other keys have no effect |
| `Config.ResolveDefaults` | libcmd.go:27-32 | a missing `ContainerTag` resolves to `latest` and a missing `CommandsDir` to `/root/commands`; an empty map resolves to the whole default table |
| `CommandLine.ScriptPath` | libcmd.go:74 | the path is the commands directory, a `/`, the operation name, then `.sh`, with those pieces at those positions |
| `CommandLine.BuildCommand` | libcmd.go:74-75 | the command line has two entries more than there are arguments: `bash`, the script path, then every argument in order |
| `CommandLine.ParseBuildCommand` | libcmd.go:74-75 | reading a built command line back yields the operation name and the arguments verbatim |
| `CommandLine.BuildParsedCommand` | libcmd.go:74-75 | any command line that parses is exactly the one built from the parts it parses to |
| `CommandLine.BuildCommandInjective` | libcmd.go:74-75 | two runs get the same command line if and only if operation and arguments are equal |
| `CommandLine.ImageRef` | libcmd.go:130 | the image reference is the repository, a `:`, then the tag |
| `CommandLine.SplitImageRefRoundTrip` | libcmd.go:130 | for a tag without a colon, splitting the image reference at its last colon gives back repository and tag |
| `CommandLine.ImageRefOfSplit` | libcmd.go:130 | any reference that splits is exactly the image reference of its two parts |
| `Logs.BytesToString` | libcmd.go:181-184 | the text has one character per byte, with the same code |
| `Logs.BytesToStringInjective` | libcmd.go:181-184 | two byte buffers give the same text if and only if they are equal |
| `Logs.GetLogs` | libcmd.go:172-185 | a failed request gives `("", err)` with the request's error; non-empty stderr gives the stderr text with `ErrCommandResponse`; the error is nil exactly when the request succeeded with empty stderr, and then the text is stdout; the error is `ErrCommandResponse` exactly when the request succeeded with non-empty stderr |
| `Logs.RunReply` | libcmd.go:98-102 | `Run` keeps the error of `getLogs`, drops the payload whenever there is an error, and keeps it otherwise |
| `Logs.StderrIsDiscarded` | libcmd.go:98-101 | any stderr output reaches the caller of `Run` as `("", ErrCommandResponse)` |
| `Logs.StdoutIsReturned` | libcmd.go:98-102 | with empty stderr, `Run` returns the stdout text and a nil error |
| `Lifecycle.Runtime.Create` | libcmd.go:127-143 | the create call with its image and command line is appended to the trace with whatever answer the daemon gives |
| `Lifecycle.Runtime.Start` | libcmd.go:146-155 | the start call for the id is appended to the trace with its answer |
| `Lifecycle.Runtime.Inspect` | libcmd.go:88 | the inspect call for the id is appended to the trace with its answer: an error, or whether `FinishedAt` is set |
| `Lifecycle.Runtime.Logs` | libcmd.go:174 | the logs request for the id is appended to the trace with its answer |
| `Lifecycle.Runtime.Remove` | libcmd.go:157-170 | the remove call for the id is appended to the trace with its answer |
| `Lifecycle.FailureOf` | libcmd.go:77-100 | a call's answer reports an error exactly when the daemon's answer to that call failed |
| `Lifecycle.PolledAfterUnfinished` | libcmd.go:86-96 | any number of inspections that found the container running (within the bound) may precede a poll trace |
| `Lifecycle.Cmd.constructor` | libcmd.go:68-71 | a command holds its operation name and the daemon it runs on |
| `Lifecycle.Cmd.Run` | libcmd.go:73-103 | the run only appends to the trace; the calls it adds and its reply form a `RunTrace` for the image `repository:tag` and the command line of the operation and arguments |
| `Lifecycle.Cmd.Supervise` | libcmd.go:82-102 | after a successful create, start, the poll loop and the logs call append a `Supervised` trace for that container, whichever way they end |
| `RunProperties.PolledShape` | libcmd.go:86-102 | in the poll part, every call concerns the container and is an inspect or the final logs call; logs comes only right after an inspect that saw a finish time; a failed inspect is the last call and its error is the reply; every error reply has empty text; `ErrCommandResponse` comes only from a successful logs call with stderr output; the bound runs out exactly when every inspection found the container running |
| `RunProperties.PolledDeterministic` | libcmd.go:86-102 | the calls of the poll part determine its reply |
| `RunProperties.CleanupDiscipline` | libcmd.go:76-80 | if create fails, the trace is that one call and the reply is `("", err)`; a remove call occurs if and only if create succeeded, then exactly once and as the last call; every call after create concerns the created container |
| `RunProperties.PollDiscipline` | libcmd.go:82-98 | start follows create; a failed start ends the run with its error; inspect and logs occur only after a successful start; the only logs call comes right after an inspect that saw a finish time and right before the remove; a failed inspect ends the run with `("", err)`; the run makes at most `fuel + 4` calls |
| `RunProperties.ReplyClassification` | libcmd.go:76-102 | every error reply has empty text; the reply has no error exactly when the logs call succeeded with empty stderr, and then its text is stdout; the reply is `("", ErrCommandResponse)` exactly when the logs call succeeded with stderr output; a failed logs request gives `("", err)`; `PollBudgetExhausted` occurs exactly when all `fuel` inspections found the container running; any other error is the daemon's error in the last call before the remove |
| `RunProperties.ReplyDetermined` | libcmd.go:73-103 | the calls of a run and the daemon's answers determine its reply |

## Left out

- `pullImage` (libcmd.go:105-125): a goroutine copies the pull's progress lines to the log. This is concurrency and logging, with no checkable logic.
- `docker.NewClient`, the global client and the `log.Fatal` on failure (libcmd.go:58-65) are foreign calls. So are all `log.*` calls, which only produce output. The client is passed to `Cmd` explicitly, and the configuration is passed to `Run` as a parameter instead of living in a package global.
- `makeRequest` (libcmd.go:187-218) is socket and HTTP I/O; the logs request is modelled by the answer of `Runtime.Logs`. Its connection-refused branch (libcmd.go:206-211) cannot be reached, because `err` was already checked at libcmd.go:202.
- The logs request does not use the configured client: `makeRequest` dials the fixed socket `/var/run/docker.sock` (libcmd.go:194) whatever `DockerEndpoint` says, while create, start, inspect and remove go through the client built from `DockerEndpoint`. The model sends the logs call to the same `Runtime` and leaves its answer open, so every answer the other socket could give is covered, but the model does not tell the two daemons apart.
- `getLogs` discards the HTTP status code of the logs request (libcmd.go:174); the model has no status code.
- `stdCopy`, which splits Docker's framed log stream into stdout and stderr, is not part of this model: its definition is not in the source. The split streams are taken as the logs answer.
- Time: `time.Sleep` and the real `FinishedAt` timestamp (libcmd.go:86-95). "Finished" is the boolean answer of `Runtime.Inspect`. The sleep is `time.Millisecond + 100`, which is 1 ms plus 100 ns and not 100 ms; it has no effect on the model.
- `Lifecycle.Cmd.Run`: the Go poll loop has no bound and spins forever if the container never finishes. The model takes a `fuel` bound on the number of inspections. When the bound is used up, the run ends with the model-only error `PollBudgetExhausted`, and the container is still removed. Runs that would poll forever are not modelled.
- The inspect answer keeps only whether `FinishedAt` is set. The rest of the container state and the exit code are not modelled, because the source ignores them.
- Go's reflection (libcmd.go:50) is replaced by the explicit field table `FieldByName`/`SetField` over the four keys.
