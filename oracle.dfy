/**
  The host OS as the process code sees it: the streams a caller hands in, the
  pipe ends the package creates, and the calls it makes (start a process, wait
  for a process, close a pipe end). A call's outcome is foreign: it is read from
  a map of failures, and a call absent from the map succeeds.
 */
module Oracle {
  import opened Wrappers
  import opened Errors

  /** A stream supplied by the caller: nil, or one of the caller's readers or writers. */
  datatype Stream = NoStream | CallerStream(id: nat)

  /** What a process's Stdin, Stdout or Stderr field holds. */
  datatype Endpoint =
    | Given(stream: Stream)
      /** The read end of the pipe with this number. */
    | PipeR(pipe: nat)
      /** The write end of the pipe with this number. */
    | PipeW(pipe: nat)

  /** One call into the OS; stages are named by their index in the pipeline. */
  datatype Event = Start(stage: nat) | Wait(stage: nat) | Close(end: Endpoint)

  /** The calls that were made and the error that ended them, if any. */
  datatype Execution = Execution(events: seq<Event>, err: Option<Error>)

  /** No call of `calls` fails. */
  ghost predicate AllSucceed(calls: seq<Event>, failures: map<Event, Error>) {
    forall e :: e in calls ==> e !in failures
  }

  /**
    Makes the calls one after the other and returns at once with the error of
    the first one that fails: the `if err := f(); err != nil { return err }`
    chains of osutils.go.
   */
  function Run(calls: seq<Event>, failures: map<Event, Error>): (x: Execution) {
    if calls == [] then Execution([], None)
    else if calls[0] in failures then Execution([calls[0]], Some(failures[calls[0]]))
    else
      var rest := Run(calls[1..], failures);
      Execution([calls[0]] + rest.events, rest.err)
  }

  /**
    What a run does: it makes a prefix of the calls; it fails exactly when
    some call fails, with the error of the last call it made, which is one
    that failed; otherwise it made every call.
   */
  lemma {:induction false} RunShape(calls: seq<Event>, failures: map<Event, Error>)
    ensures var x := Run(calls, failures);
      && x.events <= calls
      && (x.err.None? <==> AllSucceed(calls, failures))
      && (x.err.None? ==> x.events == calls)
      && (x.err.Some? ==>
            && x.events != []
            && x.events[|x.events| - 1] in failures
            && x.err.value == failures[x.events[|x.events| - 1]])
  {
    if calls != [] && calls[0] !in failures {
      var tail := calls[1..];
      RunShape(tail, failures);
      assert calls == [calls[0]] + tail;
    }
  }

  /** Every call a run made before its last one succeeded. */
  lemma {:induction false} RunMadeSucceeded(calls: seq<Event>, failures: map<Event, Error>)
    ensures var x := Run(calls, failures);
      x.events != [] ==> AllSucceed(x.events[..|x.events| - 1], failures)
  {
    if calls != [] && calls[0] !in failures {
      RunMadeSucceeded(calls[1..], failures);
      var rest := Run(calls[1..], failures);
      var x := Run(calls, failures);
      assert x.events == [calls[0]] + rest.events;
      if rest.events != [] {
        assert x.events[..|x.events| - 1] == [calls[0]] + rest.events[..|rest.events| - 1];
      }
    }
  }

  /** When `e` is the first failing call, the run ends with it and returns its error. */
  lemma {:induction false} RunStopsAt(calls: seq<Event>, done: seq<Event>, e: Event, failures: map<Event, Error>)
    requires done + [e] <= calls
    requires AllSucceed(done, failures)
    requires e in failures
    ensures Run(calls, failures) == Execution(done + [e], Some(failures[e]))
  {
    if done == [] {
      assert calls[0] == e;
    } else {
      assert calls[0] == done[0];
      assert done + [e] == [done[0]] + (done[1..] + [e]);
      assert done == [done[0]] + done[1..];
      RunStopsAt(calls[1..], done[1..], e, failures);
    }
  }

  /**
    Running `a` and then `b`, inside a longer run `calls`, after every call of
    `a` succeeded: the run ends as `b`'s own run ends if that one fails, and
    otherwise goes on past `a + b` with no failure so far.
   */
  lemma RunThrough(calls: seq<Event>, a: seq<Event>, b: seq<Event>, failures: map<Event, Error>)
    requires a + b <= calls
    requires AllSucceed(a, failures)
    ensures var y := Run(b, failures);
      && (y.err.Some? ==> Run(calls, failures) == Execution(a + y.events, y.err))
      && (y.err.None? ==> AllSucceed(a + b, failures))
  {
    RunShape(b, failures);
    var y := Run(b, failures);
    if y.err.Some? {
      RunMadeSucceeded(b, failures);
      var m := |y.events| - 1;
      var done := a + y.events[..m];
      assert done + [y.events[m]] == a + y.events;
      assert y.events == b[..|y.events|];
      assert a + y.events == (a + b)[..|a| + |y.events|];
      RunStopsAt(calls, done, y.events[m], failures);
    }
  }

  /**
    Concatenation is associative. Proved apart so that the wait loop, whose
    context is large, does not have to reason about sequence equality itself.
   */
  lemma AppendAssoc(a: seq<Event>, b: seq<Event>, c: seq<Event>)
    ensures a + b + c == a + (b + c)
  {
  }

  /** When no call fails, all of them are made and the run succeeds. */
  lemma RunCompletes(calls: seq<Event>, failures: map<Event, Error>)
    requires AllSucceed(calls, failures)
    ensures Run(calls, failures) == Execution(calls, None)
  {
    RunShape(calls, failures);
  }
}
