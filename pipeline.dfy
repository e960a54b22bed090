/**
  The pipeline executor (executePiped): N >= 2 stages chained by N - 1 pipes,
  started in order, and joined by a wait handle that waits for the stages and
  closes the pipe ends on a fixed schedule.
 */
module Pipeline {
  import opened Wrappers
  import opened Errors
  import opened Paths
  import opened Oracle
  import opened Process

  /** The caller's pipeline: the stages (None for a nil slice) and the pipeline's own streams. */
  datatype PipeCmdList = PipeCmdList(pipeCmds: Option<seq<PipeCmd>>, stdin: Stream, stdout: Stream, stderr: Stream)

  // ----- Validation -----

  function StageError(pipeCmd: PipeCmd): (err: Option<Error>) {
    ArgsError(pipeCmd.args, pipeCmd.absoluteDir)
  }

  /** The error of the first stage, in index order, that the guards reject. */
  function FirstStageError(cmds: seq<PipeCmd>): (err: Option<Error>) {
    if cmds == [] then None
    else if StageError(cmds[0]).Some? then StageError(cmds[0])
    else FirstStageError(cmds[1..])
  }

  /** The error executePiped returns before it builds anything, if any. */
  function ValidationError(list: PipeCmdList): (err: Option<Error>) {
    match list.pipeCmds
    case None => Some(ErrNil)
    case Some(cmds) =>
      if |cmds| == 0 then Some(ErrEmpty)
      else if |cmds| == 1 then Some(ErrNotMultipleCommands)
      else FirstStageError(cmds)
  }

  /** FirstStageError finds the first rejected stage, and only a list with none passes. */
  lemma {:induction false} FirstStageErrorIsFirst(cmds: seq<PipeCmd>)
    ensures FirstStageError(cmds).None? <==> forall k :: 0 <= k < |cmds| ==> StageError(cmds[k]).None?
    ensures FirstStageError(cmds).Some? ==>
              exists k :: && 0 <= k < |cmds|
                          && FirstStageError(cmds) == StageError(cmds[k])
                          && forall j :: 0 <= j < k ==> StageError(cmds[j]).None?
  {
    if cmds != [] && StageError(cmds[0]).None? {
      FirstStageErrorIsFirst(cmds[1..]);
      assert forall k :: 1 <= k < |cmds| ==> cmds[k] == cmds[1..][k - 1];
      if FirstStageError(cmds).Some? {
        var k :| && 0 <= k < |cmds[1..]|
                 && FirstStageError(cmds[1..]) == StageError(cmds[1..][k])
                 && forall j :: 0 <= j < k ==> StageError(cmds[1..][j]).None?;
        assert FirstStageError(cmds) == StageError(cmds[k + 1]);
      }
    }
  }

  /**
    The guards of executePiped in their order: nil list, empty list, a single
    stage, then each stage in index order (nil Args, empty Args, relative dir).
   */
  lemma ValidationOrder(list: PipeCmdList)
    ensures list.pipeCmds.None? ==> ValidationError(list) == Some(ErrNil)
    ensures list.pipeCmds == Some([]) ==> ValidationError(list) == Some(ErrEmpty)
    ensures list.pipeCmds.Some? && |list.pipeCmds.value| == 1 ==>
              ValidationError(list) == Some(ErrNotMultipleCommands)
    ensures list.pipeCmds.Some? && |list.pipeCmds.value| >= 2 ==>
              var cmds := list.pipeCmds.value;
              && (ValidationError(list).None? <==> forall k :: 0 <= k < |cmds| ==> StageError(cmds[k]).None?)
              && (ValidationError(list).Some? ==>
                    exists k :: && 0 <= k < |cmds|
                                && ValidationError(list) == StageError(cmds[k])
                                && forall j :: 0 <= j < k ==> StageError(cmds[j]).None?)
  {
    if list.pipeCmds.Some? {
      FirstStageErrorIsFirst(list.pipeCmds.value);
    }
  }

  /** A list that passes validation has at least two stages, each with a non-empty argument vector. */
  ghost predicate Accepted(list: PipeCmdList) {
    && list.pipeCmds.Some?
    && |list.pipeCmds.value| >= 2
    && forall k :: 0 <= k < |list.pipeCmds.value| ==>
         list.pipeCmds.value[k].args.Some? && list.pipeCmds.value[k].args.value != []
  }

  lemma ValidationAccepts(list: PipeCmdList)
    requires ValidationError(list).None?
    ensures Accepted(list)
  {
    ValidationOrder(list);
  }

  /** The guard loop of executePiped (osutils.go lines 137-157), check by check. */
  method Validate(list: PipeCmdList) returns (err: Option<Error>)
    ensures err == ValidationError(list)
  {
    if list.pipeCmds.None? {
      return Some(ErrNil);
    }
    var cmds := list.pipeCmds.value;
    var numCmds := |cmds|;
    if numCmds == 0 {
      return Some(ErrEmpty);
    }
    if numCmds <= 1 {
      return Some(ErrNotMultipleCommands);
    }
    var i := 0;
    while i < numCmds
      invariant 0 <= i <= numCmds
      invariant FirstStageError(cmds) == FirstStageError(cmds[i..])
    {
      var pipeCmd := cmds[i];
      assert cmds[i..][1..] == cmds[i + 1..];
      if pipeCmd.args.None? {
        return Some(ErrNil);
      }
      if |pipeCmd.args.value| == 0 {
        return Some(ErrEmpty);
      }
      if pipeCmd.absoluteDir != "" && !IsAbsolutePath(pipeCmd.absoluteDir) {
        return Some(ErrNotAbsolutePath);
      }
      i := i + 1;
    }
    return None;
  }

  // ----- Wiring -----

  /** Two process records that run the same command (streams aside). */
  ghost predicate SameCommand(a: Stage, b: Stage) {
    a.name == b.name && a.args == b.args && a.dir == b.dir && a.env == b.env
  }

  /** readers[j] and writers[j] are the read and write ends of pipe j. */
  ghost predicate PipeEnds(readers: seq<Endpoint>, writers: seq<Endpoint>) {
    && |readers| == |writers|
    && (forall j :: 0 <= j < |readers| ==> readers[j] == PipeR(j))
    && (forall j :: 0 <= j < |writers| ==> writers[j] == PipeW(j))
  }

  /**
    The stages form a chain: pipe j joins stage j's Stdout to stage j + 1's
    Stdin, readers[j] and writers[j] are the two ends of pipe j, stage 0 reads
    the pipeline's Stdin, the last stage writes its Stdout, and every stage
    writes the pipeline's Stderr.
   */
  ghost predicate IsChain(stages: seq<Stage>, readers: seq<Endpoint>, writers: seq<Endpoint>, list: PipeCmdList) {
    var n := |stages|;
    && n >= 2
    && |readers| == n - 1
    && PipeEnds(readers, writers)
    && (forall j :: 0 <= j < n - 1 ==> stages[j].stdout == writers[j])
    && (forall j :: 1 <= j < n ==> stages[j].stdin == readers[j - 1])
    && stages[0].stdin == Given(list.stdin)
    && stages[n - 1].stdout == Given(list.stdout)
    && (forall i :: 0 <= i < n ==> stages[i].stderr == Given(list.stderr))
  }

  /** The endpoint `e` is one of the stage's three streams. */
  predicate Attached(s: Stage, e: Endpoint) {
    s.stdin == e || s.stdout == e || s.stderr == e
  }

  /** In a chain, each stage's Stdin and Stdout, stage by stage. */
  lemma ChainStreams(stages: seq<Stage>, readers: seq<Endpoint>, writers: seq<Endpoint>, list: PipeCmdList, i: nat)
    requires IsChain(stages, readers, writers, list)
    requires i < |stages|
    ensures stages[i].stdin == if i == 0 then Given(list.stdin) else PipeR(i - 1)
    ensures stages[i].stdout == if i == |stages| - 1 then Given(list.stdout) else PipeW(i)
    ensures stages[i].stderr == Given(list.stderr)
  {
    if i > 0 {
      assert stages[i].stdin == readers[i - 1];
    }
    if i < |stages| - 1 {
      assert stages[i].stdout == writers[i];
    }
  }

  /**
    In a chain each pipe end is attached to exactly one stage: the write end
    of pipe j to stage j, the read end to stage j + 1; no other pipe is attached.
   */
  lemma ChainEndsAttachedOnce(stages: seq<Stage>, readers: seq<Endpoint>, writers: seq<Endpoint>, list: PipeCmdList,
                              i: nat, e: Endpoint)
    requires IsChain(stages, readers, writers, list)
    requires i < |stages| && !e.Given?
    ensures Attached(stages[i], e) <==>
              (e.PipeW? && e.pipe == i && i < |stages| - 1) || (e.PipeR? && e.pipe + 1 == i)
  {
    ChainStreams(stages, readers, writers, list, i);
  }

  // ----- The wait schedule -----

  /** The calls of iteration i of the wait handle's loop when all of them succeed. */
  function StageWait(i: nat): (calls: seq<Event>) {
    [Wait(i)] + (if i != 0 then [Close(PipeR(i - 1))] else []) + [Close(PipeW(i))]
  }

  /** The calls of the loop's first k iterations. */
  function Steps(k: nat): (calls: seq<Event>) {
    if k == 0 then [] else Steps(k - 1) + StageWait(k - 1)
  }

  /** Every call the wait handle of an n-stage pipeline makes when none fails. */
  function WaitSchedule(n: nat): (calls: seq<Event>)
    requires n >= 2
  {
    Steps(n - 1) + [Wait(n - 1), Close(PipeR(n - 2))]
  }

  /** The calls that start stages 0 .. n-1 in order. */
  function Starts(n: nat): (calls: seq<Event>) {
    seq(n, i requires 0 <= i => Start(i))
  }

  /** The waits for stages 0 .. n-1 in order. */
  function StageWaits(n: nat): (waits: seq<Event>) {
    seq(n, i requires 0 <= i => Wait(i))
  }

  /** The Wait calls of a sequence of calls, in their order. */
  function Waits(s: seq<Event>): (waits: seq<Event>) {
    if s == [] then []
    else Waits(s[..|s| - 1]) + (if s[|s| - 1].Wait? then [s[|s| - 1]] else [])
  }

  lemma WaitsSingle(e: Event)
    ensures Waits([e]) == if e.Wait? then [e] else []
  {
    assert [e][..0] == [];
  }

  lemma {:induction false} WaitsAppend(a: seq<Event>, b: seq<Event>)
    ensures Waits(a + b) == Waits(a) + Waits(b)
  {
    if b != [] {
      assert (a + b)[..|a + b| - 1] == a + b[..|b| - 1];
      WaitsAppend(a, b[..|b| - 1]);
    } else {
      assert a + b == a;
    }
  }

  lemma WaitsOfPrefix(a: seq<Event>, b: seq<Event>)
    requires a <= b
    ensures Waits(a) <= Waits(b)
  {
    assert b == a + b[|a|..];
    WaitsAppend(a, b[|a|..]);
  }

  /** Every Close in `s` is preceded in `s` by the Wait of the stage that used that end. */
  ghost predicate ClosesAfterWaits(s: seq<Event>) {
    forall p :: 0 <= p < |s| && s[p].Close? && !s[p].end.Given? ==>
      Wait(if s[p].end.PipeW? then s[p].end.pipe else s[p].end.pipe + 1) in s[..p]
  }

  lemma ClosesAfterWaitsAppend(a: seq<Event>, b: seq<Event>)
    requires ClosesAfterWaits(a) && ClosesAfterWaits(b)
    ensures ClosesAfterWaits(a + b)
  {
    var s := a + b;
    forall p | 0 <= p < |s| && s[p].Close? && !s[p].end.Given?
      ensures Wait(if s[p].end.PipeW? then s[p].end.pipe else s[p].end.pipe + 1) in s[..p]
    {
      if p < |a| {
        assert s[p] == a[p] && s[..p] == a[..p];
      } else {
        var q := p - |a|;
        assert s[p] == b[q] && s[..p] == a + b[..q];
      }
    }
  }

  /** A block that opens with Wait(i) and then closes only ends that stage i used. */
  lemma ClosesAfterOwnWait(i: nat, block: seq<Event>)
    requires block != [] && block[0] == Wait(i)
    requires forall p :: 0 < p < |block| ==>
               && block[p].Close?
               && ((block[p].end.PipeW? && block[p].end.pipe == i) || (block[p].end.PipeR? && block[p].end.pipe + 1 == i))
    ensures ClosesAfterWaits(block)
  {
    forall p | 0 < p < |block| ensures Wait(i) in block[..p] {
      assert block[..p][0] == Wait(i);
    }
  }

  /** The calls the loop's first k iterations make when none fails, as a test on one call. */
  predicate InSteps(k: nat, e: Event) {
    || (e.Wait? && e.stage < k)
    || (e.Close? && e.end.PipeW? && e.end.pipe < k)
    || (e.Close? && e.end.PipeR? && e.end.pipe + 1 < k)
  }

  /** Iteration i makes each of its own calls once: exactly the calls that InSteps adds at i + 1. */
  lemma StageWaitCount(i: nat, e: Event)
    ensures multiset(StageWait(i))[e] == if InSteps(i + 1, e) && !InSteps(i, e) then 1 else 0
  {
    var mid := if i != 0 then [Close(PipeR(i - 1))] else [];
    assert multiset(StageWait(i)) == multiset{Wait(i)} + multiset(mid) + multiset{Close(PipeW(i))};
  }

  /** How often a call occurs among the calls of the loop's first k iterations. */
  lemma {:induction false} StepsCount(k: nat, e: Event)
    ensures multiset(Steps(k))[e] == if InSteps(k, e) then 1 else 0
  {
    if k > 0 {
      StepsCount(k - 1, e);
      StageWaitCount(k - 1, e);
      assert multiset(Steps(k)) == multiset(Steps(k - 1)) + multiset(StageWait(k - 1));
    }
  }

  /** The Wait calls of iteration i: just the wait for stage i. */
  lemma StageWaitWaits(i: nat)
    ensures Waits(StageWait(i)) == [Wait(i)]
  {
    var mid := if i != 0 then [Close(PipeR(i - 1))] else [];
    assert StageWait(i) == [Wait(i)] + mid + [Close(PipeW(i))];
    WaitsAppend([Wait(i)] + mid, [Close(PipeW(i))]);
    WaitsAppend([Wait(i)], mid);
    WaitsSingle(Wait(i));
    WaitsSingle(Close(PipeW(i)));
    if i != 0 {
      WaitsSingle(Close(PipeR(i - 1)));
    }
  }

  /** The loop's first k iterations wait for stages 0 .. k-1 in order. */
  lemma {:induction false} StepsWaitInOrder(k: nat)
    ensures Waits(Steps(k)) == StageWaits(k)
  {
    if k > 0 {
      StepsWaitInOrder(k - 1);
      StageWaitWaits(k - 1);
      WaitsAppend(Steps(k - 1), StageWait(k - 1));
      assert StageWaits(k) == StageWaits(k - 1) + [Wait(k - 1)];
    }
  }

  /** In the loop's first k iterations every pipe end is closed after the wait for the stage that used it. */
  lemma {:induction false} StepsCloseAfterWaits(k: nat)
    ensures ClosesAfterWaits(Steps(k))
  {
    if k > 0 {
      StepsCloseAfterWaits(k - 1);
      ClosesAfterOwnWait(k - 1, StageWait(k - 1));
      ClosesAfterWaitsAppend(Steps(k - 1), StageWait(k - 1));
    }
  }

  /**
    When no call fails the wait handle waits for each stage once, closes
    each end of each pipe exactly once, and makes no other call.
   */
  lemma ScheduleCount(n: nat, e: Event)
    requires n >= 2
    ensures multiset(WaitSchedule(n))[e] ==
              if (e.Wait? && e.stage < n) || (e.Close? && !e.end.Given? && e.end.pipe < n - 1) then 1 else 0
  {
    StepsCount(n - 1, e);
    ScheduleEvents(n, e);
    assert multiset(WaitSchedule(n)) == multiset(Steps(n - 1)) + multiset{Wait(n - 1), Close(PipeR(n - 2))};
  }

  /** The calls of the schedule: the loop's, then the last wait and the last close, all distinct. */
  lemma ScheduleEvents(n: nat, e: Event)
    requires n >= 2
    ensures ((e.Wait? && e.stage < n) || (e.Close? && !e.end.Given? && e.end.pipe < n - 1)) <==>
              InSteps(n - 1, e) || e == Wait(n - 1) || e == Close(PipeR(n - 2))
    ensures InSteps(n - 1, e) ==> e != Wait(n - 1) && e != Close(PipeR(n - 2))
  {
  }

  /**
    When no call fails the stages are waited for in index order, the write end
    of pipe j is closed only after stage j was waited for, and its read end
    only after stage j + 1 was.
   */
  lemma ScheduleInOrder(n: nat)
    requires n >= 2
    ensures Waits(WaitSchedule(n)) == StageWaits(n)
    ensures ClosesAfterWaits(WaitSchedule(n))
  {
    StepsWaitInOrder(n - 1);
    StepsCloseAfterWaits(n - 1);
    var tail := [Wait(n - 1), Close(PipeR(n - 2))];
    assert tail == [Wait(n - 1)] + [Close(PipeR(n - 2))];
    WaitsAppend([Wait(n - 1)], [Close(PipeR(n - 2))]);
    WaitsSingle(Wait(n - 1));
    WaitsSingle(Close(PipeR(n - 2)));
    WaitsAppend(Steps(n - 1), tail);
    assert StageWaits(n) == StageWaits(n - 1) + [Wait(n - 1)];
    ClosesAfterOwnWait(n - 1, tail);
    ClosesAfterWaitsAppend(Steps(n - 1), tail);
  }

  /**
    The read end of pipe 0 is closed in loop turn 1, right after stage 1 was
    waited for: with three or more stages, before the last stage is waited for.
   */
  lemma FirstReaderClosedEarly(n: nat)
    requires n >= 3
    ensures WaitSchedule(n)[3] == Close(PipeR(0))
    ensures 3 < |Steps(n - 1)| && WaitSchedule(n)[|Steps(n - 1)|] == Wait(n - 1)
  {
    StepsPrefix(2, n - 1);
    assert Steps(2) == [Event.Wait(0), Close(PipeW(0)), Event.Wait(1), Close(PipeR(0)), Close(PipeW(1))];
    assert |Steps(n - 1)| == |Steps(n - 2)| + |StageWait(n - 2)|;
  }

  /**
    With two stages the loop runs only turn 0, and the read end of pipe 0 is
    the handle's last call, after the wait for stage 1.
   */
  lemma TwoStageSchedule()
    ensures WaitSchedule(2) == [Event.Wait(0), Close(PipeW(0)), Event.Wait(1), Close(PipeR(0))]
  {
    assert Steps(1) == [Event.Wait(0), Close(PipeW(0))];
  }

  /**
    When a call of the wait handle fails the handle returns that error and
    makes no later call (Run); it has waited for stages 0 .. m-1 only, and if
    the failing call was the Wait for stage i, then m == i + 1: no later stage
    is waited for.
   */
  lemma WaitStopsAtFirstFailure(n: nat, failures: map<Event, Error>)
    requires n >= 2
    ensures var x := Run(WaitSchedule(n), failures);
      && Waits(x.events) <= StageWaits(n)
      && (x.err.Some? && x.events[|x.events| - 1].Wait? ==>
            Waits(x.events) == StageWaits(x.events[|x.events| - 1].stage + 1))
  {
    RunShape(WaitSchedule(n), failures);
    var x := Run(WaitSchedule(n), failures);
    ScheduleInOrder(n);
    WaitsOfPrefix(x.events, WaitSchedule(n));
    if x.err.Some? && x.events[|x.events| - 1].Wait? {
      var last := x.events[|x.events| - 1];
      var front := x.events[..|x.events| - 1];
      assert x.events == front + [last];
      WaitsAppend(front, [last]);
      WaitsSingle(last);
      EndsWithWait(Waits(x.events), n);
    }
  }

  /**
    On any failure of the wait handle the read end of the last pipe is never
    closed: the handle returns before that close, or that close is the call
    that failed. Every error path leaves at least this end open.
   */
  lemma WaitErrorLeavesLastReaderOpen(n: nat, failures: map<Event, Error>)
    requires n >= 2
    ensures var x := Run(WaitSchedule(n), failures);
      x.err.Some? ==> Close(PipeR(n - 2)) !in x.events[..|x.events| - 1]
  {
    RunShape(WaitSchedule(n), failures);
    StepsCount(n - 1, Close(PipeR(n - 2)));
    NotMadeBeforeLast(Run(WaitSchedule(n), failures).events, Steps(n - 1), Wait(n - 1), Close(PipeR(n - 2)));
  }

  /** In a non-empty prefix of `front + [w, e]`, where `e` occurs only at the end, `e` can only be the last call. */
  lemma NotMadeBeforeLast(made: seq<Event>, front: seq<Event>, w: Event, e: Event)
    requires made <= front + [w, e] && e !in front && e != w
    ensures made != [] ==> e !in made[..|made| - 1]
  {
    if made != [] {
      var before := made[..|made| - 1];
      if |before| <= |front| {
        assert before == front[..|before|];
      } else {
        assert before == front + [w];
      }
    }
  }

  /** A prefix of the in-order waits that ends with the wait for stage i is the waits for 0 .. i. */
  lemma EndsWithWait(w: seq<Event>, n: nat)
    requires w <= StageWaits(n) && w != []
    ensures w[|w| - 1] == Wait(|w| - 1)
    ensures w == StageWaits(w[|w| - 1].stage + 1)
  {
    assert StageWaits(n)[|w| - 1] == Wait(|w| - 1);
    assert w == StageWaits(n)[..|w|];
  }

  lemma {:induction false} StepsPrefix(k: nat, m: nat)
    requires k <= m
    ensures Steps(k) <= Steps(m)
  {
    if k < m {
      StepsPrefix(k, m - 1);
      assert Steps(m)[..|Steps(k)|] == Steps(m)[..|Steps(m - 1)|][..|Steps(k)|];
    }
  }

  /** The calls of the loop's first k turns open the handle's schedule. */
  lemma StepsInSchedule(k: nat, n: nat)
    requires n >= 2 && k <= n - 1
    ensures Steps(k) <= WaitSchedule(n)
  {
    StepsPrefix(k, n - 1);
    assert WaitSchedule(n)[..|Steps(k)|] == WaitSchedule(n)[..|Steps(n - 1)|][..|Steps(k)|];
  }

  /**
    Turn i of the wait loop inside the whole schedule: if one of its calls
    fails, the schedule's run ends there; otherwise the first i + 1 turns
    have all succeeded.
   */
  lemma WaitStageInSchedule(i: nat, n: nat, failures: map<Event, Error>)
    requires n >= 2 && i < n - 1
    requires AllSucceed(Steps(i), failures)
    ensures var y := Run(StageWait(i), failures);
      && (y.err.Some? ==> Run(WaitSchedule(n), failures) == Execution(Steps(i) + y.events, y.err))
      && (y.err.None? ==> y.events == StageWait(i) && AllSucceed(Steps(i + 1), failures))
  {
    RunShape(StageWait(i), failures);
    StepsInSchedule(i + 1, n);
    RunThrough(WaitSchedule(n), Steps(i), StageWait(i), failures);
  }

  /** The calls after the wait loop: wait for the last stage, close the last read end. */
  function LastWait(n: nat): (calls: seq<Event>)
    requires n >= 2
  {
    [Wait(n - 1), Close(PipeR(n - 2))]
  }

  /** The last two calls of the wait handle, after a loop whose calls all succeeded. */
  lemma WaitLastInSchedule(n: nat, failures: map<Event, Error>)
    requires n >= 2
    requires AllSucceed(Steps(n - 1), failures)
    ensures Run(WaitSchedule(n), failures) ==
              Execution(Steps(n - 1) + Run(LastWait(n), failures).events, Run(LastWait(n), failures).err)
  {
    RunShape(LastWait(n), failures);
    RunThrough(WaitSchedule(n), Steps(n - 1), LastWait(n), failures);
    if Run(LastWait(n), failures).err.None? {
      RunCompletes(WaitSchedule(n), failures);
    }
  }

  /**
    The start loop: stages are started in increasing index order; the first
    failing start ends the launch with its error and no later stage is started.
   */
  lemma StartOrder(n: nat, failures: map<Event, Error>)
    ensures var x := Run(Starts(n), failures);
      && (forall k :: 0 <= k < |x.events| ==> x.events[k] == Start(k))
      && (x.err.None? ==> |x.events| == n)
      && (x.err.Some? ==>
            && x.events != []
            && Start(|x.events| - 1) in failures
            && x.err == Some(failures[Start(|x.events| - 1)])
            && forall k :: |x.events| <= k < n ==> Start(k) !in x.events)
  {
    RunShape(Starts(n), failures);
  }

  // ----- The executor -----

  /**
    The state executePiped builds and its wait handle captures: the process
    records and the pipe ends, in arrays filled in place, plus the host OS
    as an oracle (`failures`) and the calls made so far (`trace`).
   */
  class PipedExecution {
    const failures: map<Event, Error>
    var trace: seq<Event>
    var numCmds: nat
    var execCmds: array<Stage>
    var readers: array<Endpoint>
    var writers: array<Endpoint>
    var launched: bool
    var waited: bool

    ghost predicate Valid()
      reads this`numCmds, this`execCmds, this`readers, this`writers, this`launched, execCmds, readers, writers
    {
      && execCmds.Length == numCmds
      && readers.Length == writers.Length
      && (launched ==>
            && numCmds >= 2
            && readers.Length == numCmds - 1
            && PipeEnds(readers[..], writers[..]))
    }

    constructor (failures: map<Event, Error>)
      ensures Valid()
      ensures this.failures == failures && trace == [] && !launched && !waited
    {
      this.failures := failures;
      trace := [];
      numCmds := 0;
      execCmds := new Stage[0];
      readers := new Endpoint[0];
      writers := new Endpoint[0];
      launched := false;
      waited := false;
    }

    /** One OS call: recorded, and answered by the oracle. */
    method Call(e: Event) returns (err: Option<Error>)
      modifies this`trace
      ensures trace == old(trace) + [e]
      ensures err == if e in failures then Some(failures[e]) else None
    {
      trace := trace + [e];
      err := if e in failures then Some(failures[e]) else None;
    }

    /**
      The start loop of executePiped (lines 184-188): start the stages in
      index order and return the first error at once.
     */
    method StartAll(n: nat) returns (err: Option<Error>)
      modifies this`trace
      ensures var x := Run(Starts(n), failures); trace == old(trace) + x.events && err == x.err
    {
      var i := 0;
      while i < n
        modifies this`trace
        invariant 0 <= i <= n
        invariant trace == old(trace) + Starts(n)[..i]
        invariant AllSucceed(Starts(n)[..i], failures)
      {
        assert Starts(n)[..i + 1] == Starts(n)[..i] + [Start(i)];
        err := Call(Start(i));
        if err.Some? {
          RunStopsAt(Starts(n), Starts(n)[..i], Start(i), failures);
          return;
        }
        i := i + 1;
      }
      assert Starts(n)[..n] == Starts(n);
      RunCompletes(Starts(n), failures);
      err := None;
    }

    /**
      executePiped: validate, build one process record per stage, wire the
      chain, start the stages in order. On success the handle is ready
      (`launched`); otherwise the error is returned and there is no handle.
     */
    method Launch(list: PipeCmdList) returns (err: Option<Error>)
      requires Valid() && !launched && !waited && trace == []
      modifies this
      ensures Valid() && !waited
      ensures ValidationError(list).Some? ==> err == ValidationError(list) && trace == [] && !launched
      ensures ValidationError(list).None? ==>
                && numCmds == |list.pipeCmds.value|
                && Assembled(execCmds[..], readers[..], writers[..], list)
                && var x := Run(Starts(numCmds), failures);
                   trace == x.events && err == x.err && launched == err.None?
    {
      err := Validate(list);
      if err.Some? {
        return;
      }
      ValidationAccepts(list);
      err := LaunchAccepted(list);
    }

    /** executePiped after validation (lines 158-211). */
    method LaunchAccepted(list: PipeCmdList) returns (err: Option<Error>)
      requires Valid() && !launched && !waited && trace == [] && Accepted(list)
      modifies this
      ensures Valid() && !waited
      ensures numCmds == |list.pipeCmds.value|
      ensures Assembled(execCmds[..], readers[..], writers[..], list)
      ensures var x := Run(Starts(numCmds), failures);
                trace == x.events && err == x.err && launched == err.None?
    {
      var ex, rd, wr := Assemble(list);
      err := StartAll(ex.Length);
      numCmds, execCmds, readers, writers := ex.Length, ex, rd, wr;
      launched := err.None?;
    }

    /**
      One turn of the wait loop (lines 191-201): wait for stage i, close the
      read end it consumed (stage 0 reads a caller stream, not a pipe), then
      close the write end it produced into.
     */
    method WaitStage(i: nat) returns (err: Option<Error>)
      requires Valid() && launched && i < numCmds - 1
      modifies this`trace
      ensures var x := Run(StageWait(i), failures);
                trace == old(trace) + x.events && err == x.err
    {
      err := Call(Event.Wait(i));
      if err.Some? {
        RunStopsAt(StageWait(i), [], Event.Wait(i), failures);
        return;
      }
      if i != 0 {
        err := Call(Close(readers[i - 1]));
        if err.Some? {
          RunStopsAt(StageWait(i), [Event.Wait(i)], Close(PipeR(i - 1)), failures);
          return;
        }
      }
      var mid := if i != 0 then [Close(PipeR(i - 1))] else [];
      err := Call(Close(writers[i]));
      if err.Some? {
        RunStopsAt(StageWait(i), [Event.Wait(i)] + mid, Close(PipeW(i)), failures);
        return;
      }
      RunCompletes(StageWait(i), failures);
    }

    /** The end of the wait handle (lines 203-209): wait for the last stage, close the last read end. */
    method WaitLast() returns (err: Option<Error>)
      requires Valid() && launched
      modifies this`trace
      ensures var x := Run(LastWait(numCmds), failures);
                trace == old(trace) + x.events && err == x.err
    {
      var n := numCmds;
      err := Call(Event.Wait(n - 1));
      if err.Some? {
        RunStopsAt(LastWait(n), [], Event.Wait(n - 1), failures);
        return;
      }
      err := Call(Close(readers[n - 2]));
      if err.Some? {
        RunStopsAt(LastWait(n), [Event.Wait(n - 1)], Close(PipeR(n - 2)), failures);
        return;
      }
      RunCompletes(LastWait(n), failures);
    }

    /**
      The wait handle executePiped returns (lines 189-210): the loop over the
      first N - 1 stages, then a wait for the last stage and a close of the
      last read end. Every call is made in the order of WaitSchedule, and the
      first one that fails ends the handle with its error.
     */
    method Wait() returns (err: Option<Error>)
      requires Valid() && launched && !waited
      modifies this`trace, this`waited
      ensures waited
      ensures var x := Run(WaitSchedule(numCmds), failures);
                trace == old(trace) + x.events && err == x.err
    {
      waited := true;
      var n := numCmds;
      var i := 0;
      while i < n - 1
        modifies this`trace
        invariant 0 <= i <= n - 1
        invariant trace == old(trace) + Steps(i)
        invariant AllSucceed(Steps(i), failures)
      {
        WaitStageInSchedule(i, n, failures);
        ghost var y := Run(StageWait(i), failures);
        err := WaitStage(i);
        AppendAssoc(old(trace), Steps(i), y.events);
        if err.Some? {
          return;
        }
        i := i + 1;
      }
      WaitLastInSchedule(n, failures);
      ghost var y := Run(LastWait(n), failures);
      err := WaitLast();
      AppendAssoc(old(trace), Steps(n - 1), y.events);
    }
  }

  /** Stage k after i turns of the wiring loop. */
  ghost predicate WiredSoFar(s: Stage, original: Stage, k: nat, i: nat, list: PipeCmdList) {
    && SameCommand(s, original)
    && (k == 0 ==> s.stdin == Given(list.stdin))
    && (k < i ==> s.stdout == PipeW(k) && s.stderr == Given(list.stderr))
    && (1 <= k <= i ==> s.stdin == PipeR(k - 1))
  }

  /**
    One turn of the wiring loop on the stages (lines 173-175): stage i writes
    into the pipe and to the pipeline's Stderr, stage i + 1 reads from it.
   */
  method Link(ex: array<Stage>, i: nat, reader: Endpoint, writer: Endpoint, stderr: Stream)
    requires i + 1 < ex.Length
    modifies ex
    ensures forall k :: 0 <= k < ex.Length ==>
              ex[k] == if k == i then old(ex[k]).(stdout := writer, stderr := Given(stderr))
                       else if k == i + 1 then old(ex[k]).(stdin := reader)
                       else old(ex[k])
  {
    ex[i] := ex[i].(stdout := writer, stderr := Given(stderr));
    ex[i + 1] := ex[i + 1].(stdin := reader);
  }

  /** readers[j] = reader; writers[j] = writer (lines 168-170 and 177-179). */
  method Record(rd: array<Endpoint>, wr: array<Endpoint>, j: nat, reader: Endpoint, writer: Endpoint)
    requires j < rd.Length && j < wr.Length && rd != wr
    modifies rd, wr
    ensures forall k :: 0 <= k < rd.Length ==> rd[k] == if k == j then reader else old(rd[k])
    ensures forall k :: 0 <= k < wr.Length ==> wr[k] == if k == j then writer else old(wr[k])
  {
    rd[j] := reader;
    wr[j] := writer;
  }

  /**
    The wiring of executePiped (lines 166-183): N - 1 pipes, numbered in the
    order io.Pipe() creates them, whose ends fill `rd` and `wr` and join the
    stages into a chain; the last stage writes the pipeline's Stdout.
   */
  method Wire(ex: array<Stage>, rd: array<Endpoint>, wr: array<Endpoint>, list: PipeCmdList)
    requires ex.Length >= 2 && rd.Length == ex.Length - 1 && wr.Length == ex.Length - 1 && rd != wr
    modifies ex, rd, wr
    ensures IsChain(ex[..], rd[..], wr[..], list)
    ensures forall k :: 0 <= k < ex.Length ==> SameCommand(ex[k], old(ex[k]))
  {
    var n := ex.Length;
    LinkAll(ex, rd, wr, list);
    ex[n - 1] := ex[n - 1].(stdout := Given(list.stdout), stderr := Given(list.stderr));
  }

  /**
    Lines 168-181: create the first pipe, attach the pipeline's Stdin to stage
    0, then for each pipe attach its write end to one stage and its read end
    to the next, creating the next pipe while one is still needed.
   */
  method LinkAll(ex: array<Stage>, rd: array<Endpoint>, wr: array<Endpoint>, list: PipeCmdList)
    requires ex.Length >= 2 && rd.Length == ex.Length - 1 && wr.Length == ex.Length - 1 && rd != wr
    modifies ex, rd, wr
    ensures PipeEnds(rd[..], wr[..])
    ensures forall k :: 0 <= k < ex.Length ==> WiredSoFar(ex[k], old(ex[k]), k, ex.Length - 1, list)
  {
    var n := ex.Length;
    var reader, writer := PipeR(0), PipeW(0);
    Record(rd, wr, 0, reader, writer);
    ex[0] := ex[0].(stdin := Given(list.stdin));
    var i := 0;
    while i < n - 1
      invariant 0 <= i <= n - 1
      invariant i < n - 1 ==> reader == PipeR(i) && writer == PipeW(i)
      invariant forall j :: 0 <= j <= i && j < n - 1 ==> rd[j] == PipeR(j)
      invariant forall j :: 0 <= j <= i && j < n - 1 ==> wr[j] == PipeW(j)
      invariant forall k :: 0 <= k < n ==> WiredSoFar(ex[k], old(ex[k]), k, i, list)
    {
      Link(ex, i, reader, writer, list.stderr);
      if i != n - 2 {
        reader, writer := PipeR(i + 1), PipeW(i + 1);
        Record(rd, wr, i + 1, reader, writer);
      }
      i := i + 1;
    }
  }

  /**
    The process records of an accepted pipeline, wired into a chain: stage i
    runs the i-th command, and the pipes join the stages as IsChain says.
   */
  ghost predicate Assembled(stages: seq<Stage>, readers: seq<Endpoint>, writers: seq<Endpoint>, list: PipeCmdList) {
    && Accepted(list)
    && |stages| == |list.pipeCmds.value|
    && (forall i :: 0 <= i < |stages| ==> SameCommand(stages[i], ExecPipeCmd(list.pipeCmds.value[i])))
    && IsChain(stages, readers, writers, list)
  }

  /** Lines 158-183 of executePiped: the process records, the pipes, the wiring. */
  method Assemble(list: PipeCmdList) returns (ex: array<Stage>, rd: array<Endpoint>, wr: array<Endpoint>)
    requires Accepted(list)
    ensures fresh(ex) && fresh(rd) && fresh(wr)
    ensures ex.Length == |list.pipeCmds.value| && rd.Length == wr.Length == ex.Length - 1
    ensures Assembled(ex[..], rd[..], wr[..], list)
  {
    var cmds := list.pipeCmds.value;
    var n := |cmds|;
    ex := BuildStages(cmds);
    rd := new Endpoint[n - 1];
    wr := new Endpoint[n - 1];
    Wire(ex, rd, wr, list);
  }

  /** The process records of the stages, one per stage in order (lines 158-165). */
  method BuildStages(cmds: seq<PipeCmd>) returns (ex: array<Stage>)
    requires forall k :: 0 <= k < |cmds| ==> cmds[k].args.Some? && cmds[k].args.value != []
    ensures fresh(ex) && ex.Length == |cmds|
    ensures forall k :: 0 <= k < |cmds| ==> ex[k] == ExecPipeCmd(cmds[k])
  {
    ex := new Stage[|cmds|];
    var i := 0;
    while i < |cmds|
      modifies ex
      invariant 0 <= i <= |cmds|
      invariant forall k :: 0 <= k < i ==> ex[k] == ExecPipeCmd(cmds[k])
    {
      ex[i] := ExecPipeCmd(cmds[i]);
      i := i + 1;
    }
  }
}
