/**
 * The strings `Cmd.Run` and `createContainer` build: the script path of an
 * operation, the process command line, and the image reference.  Each comes
 * with an inverse that recovers what was put in.
 */
module CommandLine {
  import opened Wrappers

  /** The interpreter every script runs under. */
  const Interpreter: string := "bash"

  /** `fmt.Sprintf("%s/%s.sh", commandsDir, op)`. */
  function ScriptPath(commandsDir: string, op: string): (path: string)
    ensures |path| == |commandsDir| + |op| + 4
    ensures path[..|commandsDir|] == commandsDir && path[|commandsDir|] == '/'
    ensures path[|commandsDir| + 1..|path| - 3] == op && path[|path| - 3..] == ".sh"
  {
    commandsDir + "/" + op + ".sh"
  }

  /** The command line `[bash, script path, args...]` of a run of `op`. */
  function BuildCommand(commandsDir: string, op: string, args: seq<string>): (cmd: seq<string>)
    ensures |cmd| == 2 + |args|
    ensures cmd[0] == Interpreter && cmd[1] == ScriptPath(commandsDir, op)
    ensures forall i :: 0 <= i < |args| ==> cmd[2 + i] == args[i]
  {
    [Interpreter, ScriptPath(commandsDir, op)] + args
  }

  /**
   * Reads a command line back: the operation name and the arguments, when
   * `cmd` runs a script of `commandsDir` under the interpreter.
   */
  function ParseCommand(commandsDir: string, cmd: seq<string>): (parsed: Option<(string, seq<string>)>)
  {
    if |cmd| < 2 || cmd[0] != Interpreter then None
    else
      var path := cmd[1];
      if |path| < |commandsDir| + 4 || path[..|commandsDir| + 1] != commandsDir + "/"
         || path[|path| - 3..] != ".sh"
      then None
      else Some((path[|commandsDir| + 1..|path| - 3], cmd[2..]))
  }

  /** Parsing a built command line gives back the operation and its arguments verbatim. */
  lemma ParseBuildCommand(commandsDir: string, op: string, args: seq<string>)
    ensures ParseCommand(commandsDir, BuildCommand(commandsDir, op, args)) == Some((op, args))
  {
  }

  /** Whatever parses was built from the parts it parses to. */
  lemma BuildParsedCommand(commandsDir: string, cmd: seq<string>)
    requires ParseCommand(commandsDir, cmd).Some?
    ensures var (op, args) := ParseCommand(commandsDir, cmd).value;
      BuildCommand(commandsDir, op, args) == cmd
  {
    var (op, args) := ParseCommand(commandsDir, cmd).value;
    var path := cmd[1];
    var n := |commandsDir|;
    calc {
      ScriptPath(commandsDir, op);
      path[..n + 1] + path[n + 1..|path| - 3] + path[|path| - 3..];
      { assert path[..n + 1] + path[n + 1..|path| - 3] == path[..|path| - 3]; }
      path;
    }
    assert cmd == [cmd[0], cmd[1]] + cmd[2..];
  }

  /** Two runs have the same command line exactly when operation and arguments agree. */
  lemma BuildCommandInjective(commandsDir: string, op1: string, args1: seq<string>, op2: string, args2: seq<string>)
    ensures BuildCommand(commandsDir, op1, args1) == BuildCommand(commandsDir, op2, args2)
        <==> op1 == op2 && args1 == args2
  {
  }

  /** `fmt.Sprintf("%s:%s", repository, tag)`. */
  function ImageRef(repository: string, tag: string): (ref: string)
    ensures |ref| == |repository| + 1 + |tag|
    ensures ref[..|repository|] == repository && ref[|repository|] == ':' && ref[|repository| + 1..] == tag
  {
    repository + ":" + tag
  }

  /** The position of the last `c` in `s`, if any. */
  function LastIndexOf(s: string, c: char): (r: Option<nat>)
    ensures r.None? ==> forall j :: 0 <= j < |s| ==> s[j] != c
    ensures r.Some? ==> r.value < |s| && s[r.value] == c
    ensures r.Some? ==> forall j :: r.value < j < |s| ==> s[j] != c
  {
    if |s| == 0 then None
    else if s[|s| - 1] == c then Some(|s| - 1)
    else LastIndexOf(s[..|s| - 1], c)
  }

  /** Splits an image reference into repository and tag at its last colon. */
  function SplitImageRef(ref: string): (parts: Option<(string, string)>)
  {
    match LastIndexOf(ref, ':')
    case None => None
    case Some(i) => Some((ref[..i], ref[i + 1..]))
  }

  /** For a tag without a colon, the image reference splits back into its two parts. */
  lemma SplitImageRefRoundTrip(repository: string, tag: string)
    requires forall j :: 0 <= j < |tag| ==> tag[j] != ':'
    ensures SplitImageRef(ImageRef(repository, tag)) == Some((repository, tag))
  {
  }

  /** Whatever splits is the image reference of the two parts it splits into. */
  lemma ImageRefOfSplit(ref: string)
    requires SplitImageRef(ref).Some?
    ensures ImageRef(SplitImageRef(ref).value.0, SplitImageRef(ref).value.1) == ref
  {
    var i := LastIndexOf(ref, ':').value;
    assert ref == ref[..i] + [ref[i]] + ref[i + 1..];
  }
}
