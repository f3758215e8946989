/**
 * What the dispatcher's trace and the logger's files satisfy, for every
 * list of resources and every combination of per-resource outcomes.
 */
module CliProperties {
  import opened Wrappers
  import opened Timestamp
  import opened ResourceLogging
  import opened Cli

  // ---------------------------------------------------------------------
  // Projections of a trace

  /** The events `f` picks out of `trace`, in order, as `f` maps them. */
  function Select<T>(trace: seq<Event>, f: Event -> Option<T>): seq<T>
    decreases |trace|
  {
    if trace == [] then [] else Pick(f, trace[0]) + Select(trace[1..], f)
  }

  /** What `f` picks from a single event. */
  function Pick<T>(f: Event -> Option<T>, e: Event): seq<T> {
    if f(e).Some? then [f(e).value] else []
  }

  lemma {:induction false} SelectConcat<T>(a: seq<Event>, b: seq<Event>, f: Event -> Option<T>)
    ensures Select(a + b, f) == Select(a, f) + Select(b, f)
    decreases |a|
  {
    if a == [] {
      assert a + b == b;
    } else {
      calc {
        Select(a + b, f);
        == { assert (a + b)[0] == a[0] && (a + b)[1..] == a[1..] + b; }
        Pick(f, a[0]) + Select(a[1..] + b, f);
        == { SelectConcat(a[1..], b, f); }
        Pick(f, a[0]) + (Select(a[1..], f) + Select(b, f));
      }
    }
  }

  function AttemptOf(e: Event): Option<Path> {
    if e.Configured? then Some(e.workdir) else None
  }

  function LineOf(e: Event): Option<string> {
    if e.Printed? then Some(e.line) else None
  }

  function CallOf(e: Event): Option<Event> {
    if e.Called? then Some(e) else None
  }

  function LogOf(e: Event): Option<Event> {
    if e.Logged? then Some(e) else None
  }

  // ---------------------------------------------------------------------
  // One resource

  /** The status line compact mode prints for a resource. */
  function StatusLine(h: Handle, s: Step): string {
    if Succeeds(s) then SuccessLine(s.load.resourceId) else FailLine(h.workdir)
  }

  lemma SelectSingle<T>(e: Event, f: Event -> Option<T>)
    ensures Select([e], f) == Pick(f, e)
  {
    assert [e][1..] == [];
  }

  /** What `f` picks from the except clause's events. */
  function PickFailure<T>(f: Event -> Option<T>, failure: Failure, silent: bool, h: Handle): seq<T> {
    Pick(f, FailureLog(failure, silent, h)) + (if silent then Pick(f, Printed(FailLine(h.workdir))) else [])
  }

  lemma SelectFailure<T>(failure: Failure, silent: bool, h: Handle, f: Event -> Option<T>)
    ensures Select(FailureEvents(failure, silent, h), f) == PickFailure(f, failure, silent, h)
  {
    var tail: seq<Event> := if silent then [Printed(FailLine(h.workdir))] else [];
    SelectConcat([FailureLog(failure, silent, h)], tail, f);
    SelectSingle(FailureLog(failure, silent, h), f);
    if silent { SelectSingle(Printed(FailLine(h.workdir)), f); }
  }

  /** Any projection of one iteration, piece by piece. */
  lemma SelectStep<T>(op: Operation, sub: Option<seq<string>>, silent: bool, h: Handle, s: Step,
                      f: Event -> Option<T>)
    ensures Select(StepEvents(op, sub, silent, h, s), f)
            == Pick(f, Configured(h.workdir)) +
               match s.load
               case LoadFailed(failure) => PickFailure(f, failure, silent, h)
               case Loaded(id) =>
                 (if silent then [] else Pick(f, Printed(Announcement(op, id))))
                 + Pick(f, Called(op, id, sub))
                 + Select(OutcomeEvents(silent, h, id, s.op), f)
  {
    match s.load {
      case LoadFailed(failure) =>
        var head := [Configured(h.workdir)];
        SelectSingle(Configured(h.workdir), f);
        SelectConcat(head, FailureEvents(failure, silent, h), f);
        SelectFailure(failure, silent, h, f);
      case Loaded(id) =>
        SelectLoaded(op, sub, silent, h, s, id, f);
    }
  }

  lemma SelectLoaded<T>(op: Operation, sub: Option<seq<string>>, silent: bool, h: Handle, s: Step,
                        id: string, f: Event -> Option<T>)
    requires s.load == Loaded(id)
    ensures Select(StepEvents(op, sub, silent, h, s), f)
            == Pick(f, Configured(h.workdir))
               + (if silent then [] else Pick(f, Printed(Announcement(op, id))))
               + Pick(f, Called(op, id, sub))
               + Select(OutcomeEvents(silent, h, id, s.op), f)
  {
    var announce := AnnounceEvents(op, silent, id);
    var call := [Called(op, id, sub)];
    var outcome := OutcomeEvents(silent, h, id, s.op);
    SelectConcat([Configured(h.workdir)], announce + call + outcome, f);
    SelectConcat(announce + call, outcome, f);
    SelectConcat(announce, call, f);
    SelectSingle(Configured(h.workdir), f);
    if !silent { SelectSingle(Printed(Announcement(op, id)), f); }
    SelectSingle(Called(op, id, sub), f);
  }

  lemma SelectOutcome<T>(silent: bool, h: Handle, id: string, result: OpResult, f: Event -> Option<T>)
    ensures Select(OutcomeEvents(silent, h, id, result), f)
            == match result
               case Returned => (if silent then Pick(f, Printed(SuccessLine(id))) else [])
               case OpFailed(failure) => PickFailure(f, failure, silent, h)
  {
    match result {
      case Returned =>
        if silent { SelectSingle(Printed(SuccessLine(id)), f); }
      case OpFailed(failure) =>
        SelectFailure(failure, silent, h, f);
    }
  }

  lemma StepAttempts(op: Operation, sub: Option<seq<string>>, silent: bool, h: Handle, s: Step)
    ensures Select(StepEvents(op, sub, silent, h, s), AttemptOf) == [h.workdir]
  {
    SelectStep(op, sub, silent, h, s, AttemptOf);
    if s.load.Loaded? { SelectOutcome(silent, h, s.load.resourceId, s.op, AttemptOf); }
  }

  lemma StepLines(op: Operation, sub: Option<seq<string>>, silent: bool, h: Handle, s: Step)
    ensures Select(StepEvents(op, sub, silent, h, s), LineOf)
            == (if silent then [StatusLine(h, s)]
                else if s.load.Loaded? then [Announcement(op, s.load.resourceId)] else [])
  {
    SelectStep(op, sub, silent, h, s, LineOf);
    if s.load.Loaded? { SelectOutcome(silent, h, s.load.resourceId, s.op, LineOf); }
  }

  lemma StepCalls(op: Operation, sub: Option<seq<string>>, silent: bool, h: Handle, s: Step)
    ensures Select(StepEvents(op, sub, silent, h, s), CallOf)
            == (if s.load.Loaded? then [Called(op, s.load.resourceId, sub)] else [])
  {
    SelectStep(op, sub, silent, h, s, CallOf);
    if s.load.Loaded? { SelectOutcome(silent, h, s.load.resourceId, s.op, CallOf); }
  }

  lemma StepLogs(op: Operation, sub: Option<seq<string>>, silent: bool, h: Handle, s: Step)
    ensures Select(StepEvents(op, sub, silent, h, s), LogOf)
            == (if Succeeds(s) then [] else [FailureLog(RaisedFailure(s), silent, h)])
  {
    SelectStep(op, sub, silent, h, s, LogOf);
    if s.load.Loaded? { SelectOutcome(silent, h, s.load.resourceId, s.op, LogOf); }
  }

  /** A success line is never mistaken for another printed line. */
  lemma SuccessLineDistinct(id: string, other: string, w: Path, op: Operation)
    ensures SuccessLine(id) != FailLine(w)
    ensures SuccessLine(id) != Announcement(op, other)
    ensures SuccessLine(other) == SuccessLine(id) ==> other == id
  {
    var line := SuccessLine(id);
    assert line[|line| - 1] == 's' && FailLine(w)[|FailLine(w)| - 1] == 'l';
    assert line[0] == '[' && Announcement(op, other)[0] != '[';
    if SuccessLine(other) == line {
      assert other == line[5..|line| - 9] == id;
    }
  }

  /**
   * A resource's success line appears exactly when compact mode is on, its
   * configuration loaded, and the operation returned without raising.
   */
  lemma SuccessLineOnlyAfterReturn(op: Operation, sub: Option<seq<string>>, silent: bool, h: Handle, s: Step,
                                   id: string)
    ensures Printed(SuccessLine(id)) in StepEvents(op, sub, silent, h, s)
            <==> silent && s.load == Loaded(id) && s.op == Returned
  {
    SuccessLineDistinct(id, if s.load.Loaded? then s.load.resourceId else id, h.workdir, op);
    assert FailureEvents(UnexpectedFailure, silent, h) == [FailureLog(UnexpectedFailure, silent, h)] + (if silent then [Printed(FailLine(h.workdir))] else []);
  }

  /**
   * The order inside one iteration: the logger is set up first; in verbose
   * mode the announcement comes right before the call; in compact mode a
   * successful resource prints its status line right after the call.
   */
  lemma StepOrder(op: Operation, sub: Option<seq<string>>, silent: bool, h: Handle, s: Step)
    ensures StepEvents(op, sub, silent, h, s)[0] == Configured(h.workdir)
    ensures !silent && s.load.Loaded? ==>
      var events := StepEvents(op, sub, silent, h, s);
      |events| >= 3 && events[1] == Printed(Announcement(op, s.load.resourceId))
      && events[2] == Called(op, s.load.resourceId, sub)
    ensures silent && Succeeds(s) ==>
      StepEvents(op, sub, silent, h, s)
      == [Configured(h.workdir), Called(op, s.load.resourceId, sub), Printed(SuccessLine(s.load.resourceId))]
  {
  }

  // ---------------------------------------------------------------------
  // The whole batch

  lemma {:induction false} FlattenConcat(a: seq<seq<Event>>, b: seq<seq<Event>>)
    ensures Flatten(a + b) == Flatten(a) + Flatten(b)
    decreases |b|
  {
    if |b| == 0 {
      assert a + b == a;
    } else {
      var n := |b| - 1;
      FlattenConcat(a, b[..n]);
      assert (a + b)[..|a + b| - 1] == a + b[..n];
      assert (a + b)[|a + b| - 1] == b[n];
    }
  }

  /** Running two lists of resources one after the other is running them concatenated. */
  lemma TraceConcat(op: Operation, sub: Option<seq<string>>, silent: bool,
                    c1: seq<Handle>, s1: seq<Step>, c2: seq<Handle>, s2: seq<Step>)
    requires |c1| == |s1| && |c2| == |s2|
    ensures TraceOf(op, sub, silent, c1 + c2, s1 + s2)
            == TraceOf(op, sub, silent, c1, s1) + TraceOf(op, sub, silent, c2, s2)
  {
    assert Chunks(op, sub, silent, c1 + c2, s1 + s2)
           == Chunks(op, sub, silent, c1, s1) + Chunks(op, sub, silent, c2, s2);
    FlattenConcat(Chunks(op, sub, silent, c1, s1), Chunks(op, sub, silent, c2, s2));
  }

  /**
   * Failure isolation: whatever resource k's outcome, the trace is what the
   * resources before it emit, then resource k's own events, then exactly
   * what a batch of the resources after it emits.
   */
  lemma FailureIsolation(op: Operation, sub: Option<seq<string>>, silent: bool,
                         configs: seq<Handle>, steps: seq<Step>, k: nat, outcome: Step)
    requires |configs| == |steps| && k < |configs|
    ensures TraceOf(op, sub, silent, configs, steps[k := outcome])
            == TraceOf(op, sub, silent, configs[..k], steps[..k])
               + StepEvents(op, sub, silent, configs[k], outcome)
               + TraceOf(op, sub, silent, configs[k + 1..], steps[k + 1..])
  {
    var alt := steps[k := outcome];
    assert configs == configs[..k] + [configs[k]] + configs[k + 1..];
    assert alt == steps[..k] + [outcome] + steps[k + 1..];
    TraceConcat(op, sub, silent, configs[..k] + [configs[k]], steps[..k] + [outcome], configs[k + 1..], steps[k + 1..]);
    TraceConcat(op, sub, silent, configs[..k], steps[..k], [configs[k]], [outcome]);
    assert TraceOf(op, sub, silent, [configs[k]], [outcome]) == StepEvents(op, sub, silent, configs[k], outcome) by {
      TraceSnoc(op, sub, silent, [configs[k]], [outcome]);
      assert [configs[k]][..0] == [] && [outcome][..0] == [];
    }
  }

  /** What a batch yields when each resource yields `g(handle, step)`, in order. */
  function Gather<T>(configs: seq<Handle>, steps: seq<Step>, g: (Handle, Step) -> seq<T>): seq<T>
    requires |configs| == |steps|
    decreases |configs|
  {
    if |configs| == 0 then []
    else
      var n := |configs| - 1;
      Gather(configs[..n], steps[..n], g) + g(configs[n], steps[n])
  }

  /** A projection of the concatenated chunks, chunk by chunk. */
  lemma {:induction false} SelectFlatten<T>(chunks: seq<seq<Event>>, f: Event -> Option<T>,
                                            configs: seq<Handle>, steps: seq<Step>, g: (Handle, Step) -> seq<T>)
    requires |chunks| == |configs| == |steps|
    requires forall i :: 0 <= i < |chunks| ==> Select(chunks[i], f) == g(configs[i], steps[i])
    ensures Select(Flatten(chunks), f) == Gather(configs, steps, g)
    decreases |chunks|
  {
    if |chunks| > 0 {
      var n := |chunks| - 1;
      assert Select(Flatten(chunks[..n]), f) == Gather(configs[..n], steps[..n], g) by {
        SelectFlatten(chunks[..n], f, configs[..n], steps[..n], g);
      }
      assert Flatten(chunks) == Flatten(chunks[..n]) + chunks[n];
      SelectConcat(Flatten(chunks[..n]), chunks[n], f);
    }
  }

  /**
   * A projection of the whole trace is the concatenation of its projections
   * of the single iterations: the step every batch-level property uses.
   */
  lemma SelectTrace<T>(op: Operation, sub: Option<seq<string>>, silent: bool,
                       configs: seq<Handle>, steps: seq<Step>,
                       f: Event -> Option<T>, g: (Handle, Step) -> seq<T>)
    requires |configs| == |steps|
    requires forall h: Handle, s: Step :: Select(StepEvents(op, sub, silent, h, s), f) == g(h, s)
    ensures Select(TraceOf(op, sub, silent, configs, steps), f) == Gather(configs, steps, g)
  {
    var chunks := Chunks(op, sub, silent, configs, steps);
    forall i | 0 <= i < |chunks|
      ensures Select(chunks[i], f) == g(configs[i], steps[i])
    {
      assert chunks[i] == StepEvents(op, sub, silent, configs[i], steps[i]);
    }
    SelectFlatten(chunks, f, configs, steps, g);
  }

  /** When every resource yields exactly one item, item i is resource i's. */
  lemma {:induction false} GatherSingleAt<T>(configs: seq<Handle>, steps: seq<Step>, g: (Handle, Step) -> seq<T>, i: nat)
    requires |configs| == |steps| && i < |configs|
    requires forall h: Handle, s: Step :: |g(h, s)| == 1
    ensures |Gather(configs, steps, g)| == |configs|
    ensures Gather(configs, steps, g)[i] == g(configs[i], steps[i])[0]
    decreases |configs|
  {
    var n := |configs| - 1;
    assert |g(configs[n], steps[n])| == 1;
    if i < n {
      GatherSingleAt(configs[..n], steps[..n], g, i);
    } else if n > 0 {
      GatherSingleAt(configs[..n], steps[..n], g, 0);
    }
  }

  function AttemptFor(h: Handle, s: Step): seq<Path> {
    [h.workdir]
  }

  /** Every handle is attempted exactly once, in discovery order. */
  lemma AttemptedOnceInOrder(op: Operation, sub: Option<seq<string>>, silent: bool,
                             configs: seq<Handle>, steps: seq<Step>)
    requires |configs| == |steps|
    ensures var attempts := Select(TraceOf(op, sub, silent, configs, steps), AttemptOf);
      |attempts| == |configs| && forall i :: 0 <= i < |configs| ==> attempts[i] == configs[i].workdir
  {
    forall h: Handle, s: Step
      ensures Select(StepEvents(op, sub, silent, h, s), AttemptOf) == AttemptFor(h, s)
    {
      StepAttempts(op, sub, silent, h, s);
    }
    SelectTrace(op, sub, silent, configs, steps, AttemptOf, AttemptFor);
    if |configs| > 0 {
      GatherSingleAt(configs, steps, AttemptFor, 0);
    }
    forall i | 0 <= i < |configs|
      ensures Gather(configs, steps, AttemptFor)[i] == configs[i].workdir
    {
      GatherSingleAt(configs, steps, AttemptFor, i);
    }
  }

  function StatusLineFor(h: Handle, s: Step): seq<string> {
    [StatusLine(h, s)]
  }

  /** The status lines of compact mode, one per resource. */
  function StatusLines(configs: seq<Handle>, steps: seq<Step>): seq<string>
    requires |configs| == |steps|
  {
    Gather(configs, steps, StatusLineFor)
  }

  /** The announcement verbose mode prints for a resource whose configuration loaded. */
  function AnnouncementFor(op: Operation): (Handle, Step) -> seq<string> {
    (h: Handle, s: Step) => if s.load.Loaded? then [Announcement(op, s.load.resourceId)] else []
  }

  /** The announcements of verbose mode, one per resource whose configuration loaded. */
  function Announcements(op: Operation, configs: seq<Handle>, steps: seq<Step>): seq<string>
    requires |configs| == |steps|
  {
    Gather(configs, steps, AnnouncementFor(op))
  }

  /** In compact mode the printed output is exactly the status lines. */
  lemma CompactPrintsStatusLines(op: Operation, sub: Option<seq<string>>, configs: seq<Handle>, steps: seq<Step>)
    requires |configs| == |steps|
    ensures Select(TraceOf(op, sub, true, configs, steps), LineOf) == StatusLines(configs, steps)
  {
    forall h: Handle, s: Step
      ensures Select(StepEvents(op, sub, true, h, s), LineOf) == StatusLineFor(h, s)
    {
      StepLines(op, sub, true, h, s);
    }
    SelectTrace(op, sub, true, configs, steps, LineOf, StatusLineFor);
  }

  /** In verbose mode the printed output is exactly the announcements: no status line. */
  lemma VerbosePrintsAnnouncements(op: Operation, sub: Option<seq<string>>, configs: seq<Handle>, steps: seq<Step>)
    requires |configs| == |steps|
    ensures Select(TraceOf(op, sub, false, configs, steps), LineOf) == Announcements(op, configs, steps)
  {
    forall h: Handle, s: Step
      ensures Select(StepEvents(op, sub, false, h, s), LineOf) == AnnouncementFor(op)(h, s)
    {
      StepLines(op, sub, false, h, s);
    }
    SelectTrace(op, sub, false, configs, steps, LineOf, AnnouncementFor(op));
  }

  /** Status line i is about resource i: success with its id, or fail with its working directory. */
  lemma StatusLineAt(configs: seq<Handle>, steps: seq<Step>, i: nat)
    requires |configs| == |steps| && i < |configs|
    ensures |StatusLines(configs, steps)| == |configs|
    ensures StatusLines(configs, steps)[i]
            == if Succeeds(steps[i]) then SuccessLine(steps[i].load.resourceId) else FailLine(configs[i].workdir)
  {
    GatherSingleAt(configs, steps, StatusLineFor, i);
  }

  predicate EndsWith(line: string, suffix: string) {
    |suffix| <= |line| && line[|line| - |suffix|..] == suffix
  }

  predicate IsSuccessLine(line: string) {
    EndsWith(line, "\t success")
  }

  predicate IsFailLine(line: string) {
    EndsWith(line, "\t fail")
  }

  function CountWhere(lines: seq<string>, p: string -> bool): nat
    decreases |lines|
  {
    if lines == [] then 0
    else CountWhere(lines[..|lines| - 1], p) + (if p(lines[|lines| - 1]) then 1 else 0)
  }

  function CountSucceeded(steps: seq<Step>): nat
    decreases |steps|
  {
    if steps == [] then 0
    else CountSucceeded(steps[..|steps| - 1]) + (if Succeeds(steps[|steps| - 1]) then 1 else 0)
  }

  lemma StatusLineShape(h: Handle, s: Step)
    ensures IsSuccessLine(StatusLine(h, s)) <==> Succeeds(s)
    ensures IsFailLine(StatusLine(h, s)) <==> !Succeeds(s)
  {
    var line := StatusLine(h, s);
    if Succeeds(s) {
      assert line[|line| - 9..] == "\t success";
      assert line[|line| - 1] == 's';
    } else {
      assert line[|line| - 6..] == "\t fail";
      assert line[|line| - 1] == 'l';
    }
  }

  /**
   * Compact mode reports as many success lines as resources that loaded and
   * whose operation returned, and a fail line for each of the others.
   */
  lemma {:induction false} StatusCounts(configs: seq<Handle>, steps: seq<Step>)
    requires |configs| == |steps|
    ensures CountWhere(StatusLines(configs, steps), IsSuccessLine) == CountSucceeded(steps)
    ensures CountWhere(StatusLines(configs, steps), IsFailLine) == |configs| - CountSucceeded(steps)
    decreases |configs|
  {
    if |configs| > 0 {
      var n := |configs| - 1;
      StatusCounts(configs[..n], steps[..n]);
      StatusLineShape(configs[n], steps[n]);
      var lines := StatusLines(configs, steps);
      assert lines[..|lines| - 1] == StatusLines(configs[..n], steps[..n]);
      assert steps[..|steps| - 1] == steps[..n];
      CountSucceededBound(steps[..n]);
    }
  }

  lemma {:induction false} CountSucceededBound(steps: seq<Step>)
    ensures CountSucceeded(steps) <= |steps|
    decreases |steps|
  {
    if steps != [] {
      CountSucceededBound(steps[..|steps| - 1]);
    }
  }

  /** The call resource `s` leads to when its configuration loaded. */
  function CallFor(op: Operation, sub: Option<seq<string>>): (Handle, Step) -> seq<Event> {
    (h: Handle, s: Step) => if s.load.Loaded? then [Called(op, s.load.resourceId, sub)] else []
  }

  /** The calls the batch makes: one per loaded resource, with the requested operation and arguments. */
  function ExpectedCalls(op: Operation, sub: Option<seq<string>>, configs: seq<Handle>, steps: seq<Step>): seq<Event>
    requires |configs| == |steps|
  {
    Gather(configs, steps, CallFor(op, sub))
  }

  /** Every call is to the one requested operation, with the one module argument: never the other operation. */
  lemma {:induction false} CallsUseOneOperation(op: Operation, sub: Option<seq<string>>,
                                                configs: seq<Handle>, steps: seq<Step>)
    requires |configs| == |steps|
    ensures forall e :: e in ExpectedCalls(op, sub, configs, steps) ==> e.Called? && e.operation == op && e.subcommand == sub
    decreases |configs|
  {
    if |configs| > 0 {
      CallsUseOneOperation(op, sub, configs[..|configs| - 1], steps[..|configs| - 1]);
    }
  }

  /**
   * Exactly the resources whose configuration loaded are handed to the
   * operation, in order, always the same operation, with the same module
   * argument.
   */
  lemma CallsInOrder(op: Operation, sub: Option<seq<string>>, silent: bool, configs: seq<Handle>, steps: seq<Step>)
    requires |configs| == |steps|
    ensures Select(TraceOf(op, sub, silent, configs, steps), CallOf) == ExpectedCalls(op, sub, configs, steps)
  {
    forall h: Handle, s: Step
      ensures Select(StepEvents(op, sub, silent, h, s), CallOf) == CallFor(op, sub)(h, s)
    {
      StepCalls(op, sub, silent, h, s);
    }
    SelectTrace(op, sub, silent, configs, steps, CallOf, CallFor(op, sub));
  }

  /** The record resource `s` logs when it fails. */
  function LogFor(silent: bool): (Handle, Step) -> seq<Event> {
    (h: Handle, s: Step) => if Succeeds(s) then [] else [FailureLog(RaisedFailure(s), silent, h)]
  }

  /** The records the batch logs: one per failed resource, routed to that resource's sink. */
  function ExpectedLogs(silent: bool, configs: seq<Handle>, steps: seq<Step>): seq<Event>
    requires |configs| == |steps|
  {
    Gather(configs, steps, LogFor(silent))
  }

  /**
   * Every logged record is at error level and reaches exactly one handler:
   * the resource's run.log in compact mode, standard output otherwise, never
   * with the JSON formatter; it carries a trace exactly when its message is
   * the bare "Exception for resource", that is, when the failure was not a
   * domain failure.
   */
  lemma {:induction false} LoggedRecordsShape(silent: bool, configs: seq<Handle>, steps: seq<Step>)
    requires |configs| == |steps|
    ensures forall e :: e in ExpectedLogs(silent, configs, steps) ==>
      && e.Logged? && e.level == Error && |e.sinks| == 1
      && (e.sinks[0].FileHandler? <==> silent) && e.sinks[0].formatter == DefaultFormatter
      && (e.excInfo <==> e.message == "Exception for resource")
    decreases |configs|
  {
    if |configs| > 0 {
      var n := |configs| - 1;
      LoggedRecordsShape(silent, configs[..n], steps[..n]);
      if !Succeeds(steps[n]) && RaisedFailure(steps[n]).DomainFailure? {
        assert |FailureMessage(RaisedFailure(steps[n]))| > |"Exception for resource"|;
      }
    }
  }

  /** Every failed resource, and only those, yields one error record, in order. */
  lemma FailuresLogged(op: Operation, sub: Option<seq<string>>, silent: bool, configs: seq<Handle>, steps: seq<Step>)
    requires |configs| == |steps|
    ensures Select(TraceOf(op, sub, silent, configs, steps), LogOf) == ExpectedLogs(silent, configs, steps)
  {
    forall h: Handle, s: Step
      ensures Select(StepEvents(op, sub, silent, h, s), LogOf) == LogFor(silent)(h, s)
    {
      StepLogs(op, sub, silent, h, s);
    }
    SelectTrace(op, sub, silent, configs, steps, LogOf, LogFor(silent));
  }

  // ---------------------------------------------------------------------
  // The run.log files

  /** The header lines the batch appends to the file `p`. */
  function HeadersFor(configs: seq<Handle>, steps: seq<Step>, p: Path): seq<string>
    requires |configs| == |steps|
    decreases |configs|
  {
    if |configs| == 0 then []
    else
      var n := |configs| - 1;
      HeadersFor(configs[..n], steps[..n], p)
      + (if RunLogPath(configs[n].workdir) == p then RunHeader(steps[n].now) else [])
  }

  /** In verbose mode no file is touched. */
  lemma {:induction false} VerboseLeavesFiles(files: map<Path, seq<string>>, configs: seq<Handle>, steps: seq<Step>)
    requires |configs| == |steps|
    ensures FilesAfter(files, configs, steps, false) == files
    decreases |configs|
  {
    if |configs| > 0 {
      var n := |configs| - 1;
      VerboseLeavesFiles(files, configs[..n], steps[..n]);
    }
  }

  /**
   * In compact mode every file keeps its earlier content and gains one
   * two-line header block per resource whose run.log it is, in order.
   */
  lemma {:induction false} CompactAppendsHeaders(files: map<Path, seq<string>>, configs: seq<Handle>,
                                                 steps: seq<Step>, p: Path)
    requires |configs| == |steps|
    ensures Content(FilesAfter(files, configs, steps, true), p) == Content(files, p) + HeadersFor(configs, steps, p)
    decreases |configs|
  {
    if |configs| > 0 {
      var n := |configs| - 1;
      var before := FilesAfter(files, configs[..n], steps[..n], true);
      CompactAppendsHeaders(files, configs[..n], steps[..n], p);
      CompactFilesSnoc(files, configs, steps);
      HeadersSnoc(configs, steps, p);
      AppendStep(files, before, FilesAfter(files, configs, steps, true), RunLogPath(configs[n].workdir),
                 RunHeader(steps[n].now), p, HeadersFor(configs[..n], steps[..n], p), HeadersFor(configs, steps, p));
    }
  }

  lemma AppendStep(initial: map<Path, seq<string>>, before: map<Path, seq<string>>, after: map<Path, seq<string>>,
                   q: Path, header: seq<string>, p: Path, earlier: seq<string>, all: seq<string>)
    requires Content(before, p) == Content(initial, p) + earlier
    requires after == AppendLines(before, q, header)
    requires all == earlier + (if q == p then header else [])
    ensures Content(after, p) == Content(initial, p) + all
  {
    AppendedContent(before, q, header, p);
  }

  lemma CompactFilesSnoc(files: map<Path, seq<string>>, configs: seq<Handle>, steps: seq<Step>)
    requires |configs| == |steps| && |configs| > 0
    ensures var n := |configs| - 1;
      FilesAfter(files, configs, steps, true)
      == AppendLines(FilesAfter(files, configs[..n], steps[..n], true), RunLogPath(configs[n].workdir), RunHeader(steps[n].now))
  {
  }

  lemma HeadersSnoc(configs: seq<Handle>, steps: seq<Step>, p: Path)
    requires |configs| == |steps| && |configs| > 0
    ensures var n := |configs| - 1;
      HeadersFor(configs, steps, p)
      == HeadersFor(configs[..n], steps[..n], p) + (if RunLogPath(configs[n].workdir) == p then RunHeader(steps[n].now) else [])
  {
  }

  lemma AppendedContent(files: map<Path, seq<string>>, q: Path, lines: seq<string>, p: Path)
    ensures Content(AppendLines(files, q, lines), p) == Content(files, p) + (if q == p then lines else [])
  {
  }

  /** Two compact batches over the same resources leave both batches' header blocks, first batch first. */
  lemma TwoBatchesKeepBothHeaders(files: map<Path, seq<string>>, configs: seq<Handle>,
                                  first: seq<Step>, second: seq<Step>, p: Path)
    requires |configs| == |first| == |second|
    ensures Content(FilesAfter(FilesAfter(files, configs, first, true), configs, second, true), p)
            == Content(files, p) + HeadersFor(configs, first, p) + HeadersFor(configs, second, p)
  {
    CompactAppendsHeaders(files, configs, first, p);
    CompactAppendsHeaders(FilesAfter(files, configs, first, true), configs, second, p);
  }
}
