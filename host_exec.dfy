/** The `host_exec` tool: a shell command run on the host. The deny
    patterns (regular expressions), `%q` quoting and the process itself are
    inputs; the guard, the command line, the timeout and the output the
    tool reports are modelled. */
module HostExec {
  import opened Common
  import opened ToolArgs

  const DefaultTimeout: int := 60
  const MaxTimeout: int := 300

  /** The output limit, in bytes. */
  const MaxOutput: int := 10000

  const BlockedMessage: string := "Command blocked by safety guard (dangerous pattern detected)"
  const NoOutput: string := "(no output)"

  /** A compiled deny pattern: whether it matches somewhere in a text. */
  type Pattern = string -> bool

  /** The tool: its default timeout in seconds and its deny patterns. */
  datatype HostExecTool = HostExecTool(timeout: int, denyPatterns: seq<Pattern>)

  /** `NewHostExecTool`, given the five compiled patterns. */
  function NewHostExecTool(patterns: seq<Pattern>): (t: HostExecTool)
    ensures t.timeout == DefaultTimeout && t.denyPatterns == patterns
  {
    HostExecTool(DefaultTimeout, patterns)
  }

  // =====================================================================
  // guardCommand
  // =====================================================================

  /** The text the patterns are matched against. */
  function Normalized(command: string): string {
    ToLower(TrimSpace(command))
  }

  /** Whether some pattern of `ps` matches `text`. */
  predicate AnyMatches(ps: seq<Pattern>, text: string) {
    exists i :: 0 <= i < |ps| && ps[i](text)
  }

  /** `guardCommand`, pattern by pattern with an early return: the block
      message exactly when some pattern matches the trimmed, lower-cased
      command, and "" otherwise. */
  method GuardCommand(t: HostExecTool, command: string) returns (msg: string)
    ensures msg == (if AnyMatches(t.denyPatterns, Normalized(command)) then BlockedMessage else "")
  {
    var lower := Normalized(command);
    for i := 0 to |t.denyPatterns|
      invariant forall j :: 0 <= j < i ==> !t.denyPatterns[j](lower)
    {
      if t.denyPatterns[i](lower) {
        return BlockedMessage;
      }
    }
    return "";
  }

  /** Blanks around a command never change the guard's verdict: the
      command and its trimmed form are judged alike. */
  lemma GuardIgnoresBlanks(ps: seq<Pattern>, command: string)
    ensures AnyMatches(ps, Normalized(TrimSpace(command))) <==> AnyMatches(ps, Normalized(command))
  {
    var r := TrimSpace(command);
    if r != [] {
      TrimSpaceOfNonSpace(r);
    }
    assert TrimSpace(r) == r;
  }

  // =====================================================================
  // Execute
  // =====================================================================

  /** `%q` of a directory, as an input. */
  type Quoter = string -> string

  /** The command line handed to `sh -c`: with a non-empty working
      directory the command runs after a `cd` into it. */
  function ShellCommand(args: Args, quote: Quoter): (cmd: string)
    requires StringArg(args, "command").Some?
    ensures NonEmptyArg(args, "working_dir").None? ==> cmd == StringOr(args, "command")
    ensures NonEmptyArg(args, "working_dir").Some? ==>
      cmd == "cd " + quote(StringOr(args, "working_dir")) + " && " + StringOr(args, "command")
  {
    var command := StringArg(args, "command").value;
    match NonEmptyArg(args, "working_dir")
    case Some(wd) => "cd " + quote(wd) + " && " + command
    case None => command
  }

  /** The timeout in seconds: a positive argument, capped at 300, or the
      tool's default. A custom timeout is positive and never above 300
      seconds and one within that range is kept; without a positive argument
      the default stands. */
  function Timeout(t: HostExecTool, args: Args): (r: int)
    ensures NumberArg(args, "timeout").Some? && NumberArg(args, "timeout").value > 0 ==>
      0 < r <= MaxTimeout && (NumberArg(args, "timeout").value <= MaxTimeout ==> r == NumberArg(args, "timeout").value)
    ensures !(NumberArg(args, "timeout").Some? && NumberArg(args, "timeout").value > 0) ==> r == t.timeout
    ensures t.timeout == DefaultTimeout ==> 0 < r <= MaxTimeout
  {
    match NumberArg(args, "timeout")
    case Some(secs) =>
      if secs > 0 then (if secs > MaxTimeout then MaxTimeout else secs) else t.timeout
    case None => t.timeout
  }

  /** A duration of whole seconds as Go's `%v` prints it: "45s", "1m0s",
      "5m0s", "1h0m0s". */
  function DurationText(secs: nat): string {
    if secs < 60 then Itoa(secs) + "s"
    else if secs < 3600 then Itoa(secs / 60) + "m" + Itoa(secs % 60) + "s"
    else Itoa(secs / 3600) + "h" + Itoa(secs % 3600 / 60) + "m" + Itoa(secs % 60) + "s"
  }

  /** How the process ended: its output, its error (`%v` of it, such as
      "exit status 1") and whether the deadline had passed when it failed. */
  datatype Run = Run(stdout: string, stderr: string, err: Option<string>, deadlineExceeded: bool)

  /** The process runner: a command line and a timeout in seconds. */
  type Runner = (string, int) -> Run

  /** What `Execute` returns, and the command line it ran with its timeout. */
  datatype Effect = Effect(result: ToolResult, ran: Option<(string, int)>)

  /** stdout, then the STDERR section when there is error output, then the
      exit line when the run failed. */
  function Combined(r: Run): string {
    r.stdout + (if r.stderr != "" then "\nSTDERR:\n" + r.stderr else "")
    + (if r.err.Some? then "\nExit code: " + r.err.value else "")
  }

  /** The combined output, or the placeholder when there is none. */
  function Assembled(r: Run): (out: string)
    ensures out != ""
  {
    if Combined(r) == "" then NoOutput else Combined(r)
  }

  /** The output starts with stdout; it is empty only when the run
      succeeded without writing anything, and then the placeholder is shown. */
  lemma AssembledParts(r: Run)
    ensures Combined(r) == "" <==> r.stdout == "" && r.stderr == "" && r.err.None?
    ensures r.stdout == "" && r.stderr == "" && r.err.None? ==> Assembled(r) == NoOutput
    ensures Combined(r) != "" ==> Assembled(r) == Combined(r) && HasPrefix(Assembled(r), r.stdout)
    ensures r.stderr != "" ==> HasPrefix(Combined(r), r.stdout + "\nSTDERR:\n" + r.stderr)
    ensures r.err.Some? ==> HasSuffix(Combined(r), "\nExit code: " + r.err.value)
  {
  }

  /** The note that replaces what is cut, naming how many bytes were cut. */
  function CutNote(n: nat): string {
    "\n... (truncated, " + NatToString(n) + " more chars)"
  }

  /** Output over the limit keeps its first MaxOutput bytes and says how
      many more there were. */
  function Truncated(out: string): string {
    if |out| > MaxOutput then out[..MaxOutput] + CutNote(|out| - MaxOutput) else out
  }

  /** Truncation keeps the first MaxOutput bytes and replaces the rest by
      the note. */
  lemma TruncatedKeepsPrefix(out: string)
    ensures |out| <= MaxOutput ==> Truncated(out) == out
    ensures |out| > MaxOutput ==>
      Truncated(out) == out[..MaxOutput] + CutNote(|out| - MaxOutput)
      && HasPrefix(Truncated(out), out[..MaxOutput])
  {
  }

  /** The count in the note gives back the original length. */
  lemma CutNoteCounts(out: string)
    requires |out| > MaxOutput
    ensures MaxOutput + DigitsValue(NatToString(|out| - MaxOutput)) == |out|
  {
    var n: nat := |out| - MaxOutput;
    DigitsValueNatToString(n);
    assert DigitsValue(NatToString(n)) == n;
  }

  /** The message for a run killed at its deadline. */
  function TimedOutMessage(timeout: int): string {
    var d := if timeout < 0 then 0 else timeout;
    "Command timed out after " + DurationText(d) + " and was killed. Use the 'timeout' parameter for longer commands."
  }

  /** The result of a finished run. */
  function RunResult(timeout: int, r: Run): ToolResult {
    if r.err.Some? && r.deadlineExceeded then
      ToolResult(TimedOutMessage(timeout), TimedOutMessage(timeout), false, true)
    else
      var out := Truncated(Assembled(r));
      ToolResult(out, out, false, r.err.Some?)
  }

  /** What `Execute` returns and runs for the given arguments. */
  function Outcome(t: HostExecTool, args: Args, quote: Quoter, run: Runner): Effect {
    match StringArg(args, "command")
    case None => Effect(ErrorResult("command is required"), None)
    case Some(command) =>
      if AnyMatches(t.denyPatterns, Normalized(command)) then Effect(ErrorResult(BlockedMessage), None)
      else
        var cmd := ShellCommand(args, quote);
        var timeout := Timeout(t, args);
        Effect(RunResult(timeout, run(cmd, timeout)), Some((cmd, timeout)))
  }

  /** A command some deny pattern matches is never run. */
  lemma BlockedNeverRuns(t: HostExecTool, args: Args, quote: Quoter, run: Runner)
    requires StringArg(args, "command").Some?
    requires AnyMatches(t.denyPatterns, Normalized(StringArg(args, "command").value))
    ensures Outcome(t, args, quote, run) == Effect(ErrorResult(BlockedMessage), None)
  {
  }

  /** A command runs exactly when it is a string no pattern matches, and
      the result is an error exactly when the run failed. */
  lemma RunsWhenAllowed(t: HostExecTool, args: Args, quote: Quoter, run: Runner)
    ensures Outcome(t, args, quote, run).ran.Some? <==>
      StringArg(args, "command").Some? && !AnyMatches(t.denyPatterns, Normalized(StringArg(args, "command").value))
    ensures Outcome(t, args, quote, run).ran.Some? ==>
      var (cmd, timeout) := Outcome(t, args, quote, run).ran.value;
      cmd == ShellCommand(args, quote) && timeout == Timeout(t, args)
      && (Outcome(t, args, quote, run).result.isError <==> run(cmd, timeout).err.Some?)
  {
  }

  /** The reported output of a run that finished before its deadline: the
      assembled output, cut to the limit, never empty. */
  lemma ReportedOutput(t: HostExecTool, args: Args, quote: Quoter, run: Runner)
    requires Outcome(t, args, quote, run).ran.Some?
    ensures var (cmd, timeout) := Outcome(t, args, quote, run).ran.value;
      var r := run(cmd, timeout);
      !(r.err.Some? && r.deadlineExceeded) ==>
        var res := Outcome(t, args, quote, run).result;
        res.forLLM == res.forUser == Truncated(Assembled(r)) && res.forLLM != ""
        && (|Assembled(r)| <= MaxOutput ==> res.forLLM == Assembled(r))
        && (|Assembled(r)| > MaxOutput ==> HasPrefix(res.forLLM, Assembled(r)[..MaxOutput]))
  {
  }

  // ---------------------------------------------------------------------
  // The tool's steps

  /** The output, built by successive reassignment. */
  method AssembleOutput(r: Run) returns (output: string)
    ensures output == Truncated(Assembled(r))
  {
    output := r.stdout;
    if |r.stderr| > 0 {
      output := output + ("\nSTDERR:\n" + r.stderr);
    }
    if r.err.Some? {
      output := output + ("\nExit code: " + r.err.value);
    }
    assert output == Combined(r);
    if output == "" {
      output := NoOutput;
    }
    if |output| > MaxOutput {
      output := output[..MaxOutput] + CutNote(|output| - MaxOutput);
    }
  }

  /** `Execute`: check the command, guard it, build the command line and
      the timeout, run it and report. */
  method Execute(t: HostExecTool, args: Args, quote: Quoter, run: Runner) returns (res: ToolResult, ran: Option<(string, int)>)
    ensures Effect(res, ran) == Outcome(t, args, quote, run)
  {
    ran := None;
    var command := StringArg(args, "command");
    if command.None? {
      return ErrorResult("command is required"), None;
    }
    var guardError := GuardCommand(t, command.value);
    if guardError != "" {
      return ErrorResult(guardError), None;
    }
    var shellCmd := command.value;
    var wd := NonEmptyArg(args, "working_dir");
    if wd.Some? {
      shellCmd := "cd " + quote(wd.value) + " && " + command.value;
    }
    var timeout := t.timeout;
    var secs := NumberArg(args, "timeout");
    if secs.Some? && secs.value > 0 {
      var custom := secs.value;
      if custom > MaxTimeout {
        custom := MaxTimeout;
      }
      timeout := custom;
    }
    ran := Some((shellCmd, timeout));
    var r := run(shellCmd, timeout);
    if r.err.Some? && r.deadlineExceeded {
      var msg := TimedOutMessage(timeout);
      return ToolResult(msg, msg, false, true), ran;
    }
    var output := AssembleOutput(r);
    res := ToolResult(output, output, false, r.err.Some?);
  }
}
