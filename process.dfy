/**
  Single commands: the caller's command records, the process record built from
  them (an exec.Cmd), and the launch of one process.
 */
module Process {
  import opened Wrappers
  import opened Errors
  import opened Paths
  import opened Oracle

  /** A command with its own streams. `args` is None for a nil slice; `absoluteDir` "" means "inherit". */
  datatype Cmd = Cmd(
    args: Option<seq<string>>,
    absoluteDir: string,
    env: Option<seq<string>>,
    stdin: Stream,
    stdout: Stream,
    stderr: Stream)

  /** A pipeline stage as the caller describes it: no streams of its own. */
  datatype PipeCmd = PipeCmd(args: Option<seq<string>>, absoluteDir: string, env: Option<seq<string>>)

  /**
    A process record (exec.Cmd): the program name as given to exec.Command,
    the full argument vector, directory, environment, streams.
   */
  datatype Stage = Stage(
    name: string,
    args: seq<string>,
    dir: string,
    env: Option<seq<string>>,
    stdin: Endpoint,
    stdout: Endpoint,
    stderr: Endpoint)

  /** exec.Command(name, arg...): the argument vector is the name followed by `arg`; nothing attached. */
  function Command(name: string, arg: seq<string>): (s: Stage) {
    Stage(name, [name] + arg, "", None, Given(NoStream), Given(NoStream), Given(NoStream))
  }

  /**
    The guards that execute applies to its command and executePiped to each
    stage, in their order: a nil argument vector, then an empty one, then a
    working directory that is set but relative.
   */
  function ArgsError(args: Option<seq<string>>, absoluteDir: string): (r: Option<Error>)
    ensures r.None? <==> args.Some? && args.value != [] && (absoluteDir == "" || IsAbsolutePath(absoluteDir))
    ensures r == Some(ErrNil) <==> args.None?
    ensures r == Some(ErrEmpty) <==> args == Some([])
    ensures r == Some(ErrNotAbsolutePath) <==>
              args.Some? && args.value != [] && absoluteDir != "" && !IsAbsolutePath(absoluteDir)
  {
    if args.None? then Some(ErrNil)
    else if |args.value| == 0 then Some(ErrEmpty)
    else if absoluteDir != "" && !IsAbsolutePath(absoluteDir) then Some(ErrNotAbsolutePath)
    else None
  }

  /** The process record of a command; both branches give argv == Args. */
  function ExecCmd(cmd: Cmd): (s: Stage)
    requires cmd.args.Some? && cmd.args.value != []
    ensures s.name == cmd.args.value[0] && s.args == cmd.args.value
    ensures s.dir == cmd.absoluteDir && s.env == cmd.env
    ensures s.stdin == Given(cmd.stdin) && s.stdout == Given(cmd.stdout) && s.stderr == Given(cmd.stderr)
  {
    var args := cmd.args.value;
    var c := if |args| == 1 then Command(args[0], []) else Command(args[0], args[1..]);
    c.(dir := cmd.absoluteDir, env := cmd.env,
       stdin := Given(cmd.stdin), stdout := Given(cmd.stdout), stderr := Given(cmd.stderr))
  }

  /** The process record of a pipeline stage, with nothing attached yet. */
  function ExecPipeCmd(pipeCmd: PipeCmd): (s: Stage)
    requires pipeCmd.args.Some? && pipeCmd.args.value != []
    ensures s.name == pipeCmd.args.value[0] && s.args == pipeCmd.args.value
    ensures s.dir == pipeCmd.absoluteDir && s.env == pipeCmd.env
    ensures s.stdin == s.stdout == s.stderr == Given(NoStream)
  {
    var args := pipeCmd.args.value;
    var c := if |args| == 1 then Command(args[0], []) else Command(args[0], args[1..]);
    c.(dir := pipeCmd.absoluteDir, env := pipeCmd.env)
  }

  /** What a launch did: the OS calls it made and the started process (the wait handle) or an error. */
  datatype Launched = Launched(events: seq<Event>, handle: Result<Stage, Error>)

  /**
    execute: validate, build the process record, start it (stage 0). A
    rejected command starts nothing; a failed start returns that error.
   */
  function Execute(cmd: Cmd, failures: map<Event, Error>): (l: Launched)
    ensures ArgsError(cmd.args, cmd.absoluteDir).Some? ==>
              l.events == [] && l.handle == Failure(ArgsError(cmd.args, cmd.absoluteDir).value)
    ensures ArgsError(cmd.args, cmd.absoluteDir).None? ==>
              && l.events == [Start(0)]
              && (l.handle.Success? <==> Start(0) !in failures)
              && (l.handle.Failure? ==> l.handle.error == failures[Start(0)])
              && (l.handle.Success? ==> l.handle.value == ExecCmd(cmd))
  {
    if cmd.args.None? then Launched([], Failure(ErrNil))
    else if |cmd.args.value| == 0 then Launched([], Failure(ErrEmpty))
    else if cmd.absoluteDir != "" && !IsAbsolutePath(cmd.absoluteDir) then Launched([], Failure(ErrNotAbsolutePath))
    else
      var execCmd := ExecCmd(cmd);
      RunShape([Start(0)], failures);
      var start := Run([Start(0)], failures);
      if start.err.Some? then Launched(start.events, Failure(start.err.value))
      else Launched(start.events, Success(execCmd))
  }

  /** The wait handle execute returns: one wait for the started process, whose error is returned unchanged. */
  function ExecuteWait(failures: map<Event, Error>): (x: Execution)
    ensures x.events == [Wait(0)]
    ensures x.err.None? <==> Wait(0) !in failures
    ensures x.err.Some? ==> x.err.value == failures[Wait(0)]
  {
    RunShape([Wait(0)], failures);
    Run([Wait(0)], failures)
  }
}
