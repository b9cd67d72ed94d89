/** The pipeline definition and its executor (pipeline/Pipeline.kt). The
    broker is reduced to what start() sees of it: the finite sequence of
    messages delivered on each topic until the topic is closed, and the
    log of what start() does in response: its sends and, where a stage
    fails, its calls of the error handler, in the order they happen. */
module Pipelines {
  import opened Wrappers
  import opened Messages
  import opened Stages

  /** A registered error callback, known by the token it was registered
      under. Its only effect the model keeps is that it is called. */
  datatype Handler = Handler(id: nat)

  /** One `sendMessage(topic, message)` call on the broker. */
  datatype Send = Send(topic: string, msg: Message)

  /** One call of the error handler: which handler, the failure, and the
      message as it was received from the input topic. */
  datatype Report = Report(handler: Handler, failure: Throwable, original: Message)

  /** One visible effect of a run, in the order the run makes them. */
  datatype Event = Sent(send: Send) | Reported(report: Report)

  /** An immutable pipeline: where it reads, the ordered operations it
      applies, where it writes (if anywhere) and who hears of failures. */
  datatype Pipeline = Pipeline(
    inputTopic: string,
    operations: seq<Stage>,
    outputTopic: Option<string>,
    errorHandler: Option<Handler>)
  {
    /** The operation list the pipeline was constructed with. */
    function GetOperations(): seq<Stage> {
      operations
    }

    /** Consumes the whole input topic, one message at a time: each message
        goes through the operations; a survivor is sent to the output topic
        when there is one, a failure is reported to the handler when there is
        one, and the loop goes on with the next message either way. */
    method Start(receive: string -> seq<Message>) returns (events: seq<Event>)
      ensures events == Events(this, receive(inputTopic))
      ensures SentLog(events) == Sends(this, receive(inputTopic))
      ensures ReportedLog(events) == Reports(this, receive(inputTopic))
    {
      var input := receive(inputTopic);
      events := [];
      var i := 0;
      while i < |input|
        invariant 0 <= i <= |input|
        invariant events == Events(this, input[..i])
      {
        var m := input[i];
        var outcome;
        ghost var evaluated;
        outcome, evaluated := ApplyOperations(operations, m);
        match outcome {
          case Passed(m') =>
            if outputTopic.Some? {
              events := events + [Sent(Send(outputTopic.value, m'))];
            }
          case Rejected =>
          case Failed(e) =>
            if errorHandler.Some? {
              events := events + [Reported(Report(errorHandler.value, e, m))];
            }
        }
        assert input[..i + 1] == input[..i] + [m];
        Snoc(this, input[..i], m);
        i := i + 1;
      }
      assert input[..|input|] == input;
      EventsProject(this, input);
    }
  }

  /** Applies the operations to one message, each to the output of the one
      before, as the `operations.forEach` loop of start() composes them;
      a rejected or failed message goes no further: `evaluated` stages are
      applied, as many as `Invocations` counts. */
  method ApplyOperations(operations: seq<Stage>, m: Message) returns (o: Outcome, ghost evaluated: nat)
    ensures o == RunChain(operations, m)
    ensures evaluated == Invocations(operations, m)
  {
    o := Passed(m);
    var i := 0;
    while i < |operations| && o.Passed?
      invariant 0 <= i <= |operations|
      invariant RunChain(operations, m) == Then(o, operations[i..])
      invariant Invocations(operations, m) == i + if o.Passed? then Invocations(operations[i..], o.msg) else 0
    {
      assert operations[i..][0] == operations[i];
      assert operations[i..][1..] == operations[i + 1..];
      o := Step(operations[i], o.msg);
      i := i + 1;
    }
    evaluated := i;
  }

  /** The sends that one message causes. */
  function SendsFor(p: Pipeline, m: Message): seq<Send> {
    match RunChain(p.operations, m)
    case Passed(m') => if p.outputTopic.Some? then [Send(p.outputTopic.value, m')] else []
    case _ => []
  }

  /** The handler calls that one message causes. */
  function ReportsFor(p: Pipeline, m: Message): seq<Report> {
    match RunChain(p.operations, m)
    case Failed(e) => if p.errorHandler.Some? then [Report(p.errorHandler.value, e, m)] else []
    case _ => []
  }

  /** The effects one message causes: a send when it survives and there is
      an output topic, a handler call when it fails and there is a
      handler, nothing otherwise. */
  function EventsFor(p: Pipeline, m: Message): seq<Event> {
    match RunChain(p.operations, m)
    case Passed(m') => if p.outputTopic.Some? then [Sent(Send(p.outputTopic.value, m'))] else []
    case Rejected => []
    case Failed(e) => if p.errorHandler.Some? then [Reported(Report(p.errorHandler.value, e, m))] else []
  }

  /** What `each` gives for every message of `input`, concatenated in
      input order. */
  function Collect<T>(input: seq<Message>, each: Message -> seq<T>): seq<T>
    decreases |input|
  {
    if input == [] then []
    else Collect(input[..|input| - 1], each) + each(input[|input| - 1])
  }

  /** Collecting over consecutive parts of the input gives consecutive
      parts of the result. */
  lemma {:induction false} CollectAppend<T>(a: seq<Message>, b: seq<Message>, each: Message -> seq<T>)
    ensures Collect(a + b, each) == Collect(a, each) + Collect(b, each)
    decreases |b|
  {
    if b == [] {
      assert a + b == a;
    } else {
      var b', x := b[..|b| - 1], b[|b| - 1];
      assert (a + b)[..|a + b| - 1] == a + b';
      assert (a + b)[|a + b| - 1] == x;
      CollectAppend(a, b', each);
    }
  }

  /** `SendsFor` and `ReportsFor` for a fixed pipeline, as functions of
      the message alone. */
  function SendsEach(p: Pipeline): Message -> seq<Send> {
    m => SendsFor(p, m)
  }

  function ReportsEach(p: Pipeline): Message -> seq<Report> {
    m => ReportsFor(p, m)
  }

  function EventsEach(p: Pipeline): Message -> seq<Event> {
    m => EventsFor(p, m)
  }

  /** The effects of a run over `input`, in the order the run makes them. */
  function Events(p: Pipeline, input: seq<Message>): seq<Event> {
    Collect(input, EventsEach(p))
  }

  /** The sends of an event log, in order. */
  function SentLog(events: seq<Event>): seq<Send>
    decreases |events|
  {
    if events == [] then []
    else SentLog(events[..|events| - 1])
         + (if events[|events| - 1].Sent? then [events[|events| - 1].send] else [])
  }

  /** The handler calls of an event log, in order. */
  function ReportedLog(events: seq<Event>): seq<Report>
    decreases |events|
  {
    if events == [] then []
    else ReportedLog(events[..|events| - 1])
         + (if events[|events| - 1].Reported? then [events[|events| - 1].report] else [])
  }

  lemma {:induction false} LogAppend(a: seq<Event>, b: seq<Event>)
    ensures SentLog(a + b) == SentLog(a) + SentLog(b)
    ensures ReportedLog(a + b) == ReportedLog(a) + ReportedLog(b)
    decreases |b|
  {
    if b == [] {
      assert a + b == a;
    } else {
      var front, e := b[..|b| - 1], b[|b| - 1];
      assert (a + b)[..|a + b| - 1] == a + front;
      assert (a + b)[|a + b| - 1] == e;
      LogAppend(a, front);
      var s := if e.Sent? then [e.send] else [];
      calc {
        SentLog(a + b);
        SentLog(a + front) + s;
        (SentLog(a) + SentLog(front)) + s;
        SentLog(a) + (SentLog(front) + s);
        SentLog(a) + SentLog(b);
      }
      var r := if e.Reported? then [e.report] else [];
      calc {
        ReportedLog(a + b);
        ReportedLog(a + front) + r;
        (ReportedLog(a) + ReportedLog(front)) + r;
        ReportedLog(a) + (ReportedLog(front) + r);
        ReportedLog(a) + ReportedLog(b);
      }
    }
  }

  /** The send log and the handler log are the two halves of the event
      log: picking out its sends, or its handler calls, in order. */
  lemma {:induction false} EventsProject(p: Pipeline, input: seq<Message>)
    ensures SentLog(Events(p, input)) == Sends(p, input)
    ensures ReportedLog(Events(p, input)) == Reports(p, input)
    decreases |input|
  {
    if input != [] {
      var init, x := input[..|input| - 1], input[|input| - 1];
      assert input == init + [x];
      Snoc(p, init, x);
      EventsProject(p, init);
      LogAppend(Events(p, init), EventsFor(p, x));
      assert SentLog(EventsFor(p, x)) == SendsFor(p, x) && ReportedLog(EventsFor(p, x)) == ReportsFor(p, x) by {
        var es := EventsFor(p, x);
        if es != [] {
          assert es[..0] == [];
        }
      }
    }
  }

  /** The send log of a run over `input`. */
  function Sends(p: Pipeline, input: seq<Message>): seq<Send> {
    Collect(input, SendsEach(p))
  }

  /** The handler calls of a run over `input`. */
  function Reports(p: Pipeline, input: seq<Message>): seq<Report> {
    Collect(input, ReportsEach(p))
  }

  /** The number of messages of `input` whose outcome satisfies `kind`. */
  function CountWhere(p: Pipeline, input: seq<Message>, kind: Outcome -> bool): (n: nat)
    ensures n <= |input|
    decreases |input|
  {
    if input == [] then 0
    else CountWhere(p, input[..|input| - 1], kind)
         + (if kind(RunChain(p.operations, input[|input| - 1])) then 1 else 0)
  }

  /** Counts over consecutive parts of the input add up. */
  lemma {:induction false} CountAppend(p: Pipeline, a: seq<Message>, b: seq<Message>, kind: Outcome -> bool)
    ensures CountWhere(p, a + b, kind) == CountWhere(p, a, kind) + CountWhere(p, b, kind)
    decreases |b|
  {
    if b != [] {
      var b', x := b[..|b| - 1], b[|b| - 1];
      assert (a + b)[..|a + b| - 1] == a + b';
      assert (a + b)[|a + b| - 1] == x;
      CountAppend(p, a, b', kind);
    } else {
      assert a + b == a;
    }
  }

  /** Runs over consecutive parts of the input make consecutive parts of
      the logs: everything caused by earlier messages comes first. */
  lemma RunAppend(p: Pipeline, a: seq<Message>, b: seq<Message>)
    ensures Sends(p, a + b) == Sends(p, a) + Sends(p, b)
    ensures Reports(p, a + b) == Reports(p, a) + Reports(p, b)
    ensures Events(p, a + b) == Events(p, a) + Events(p, b)
  {
    CollectAppend(a, b, SendsEach(p));
    CollectAppend(a, b, ReportsEach(p));
    CollectAppend(a, b, EventsEach(p));
  }

  /** One more message at the end of the input adds what it alone causes. */
  lemma Snoc(p: Pipeline, a: seq<Message>, x: Message)
    ensures Sends(p, a + [x]) == Sends(p, a) + SendsFor(p, x)
    ensures Reports(p, a + [x]) == Reports(p, a) + ReportsFor(p, x)
    ensures Events(p, a + [x]) == Events(p, a) + EventsFor(p, x)
  {
    assert (a + [x])[..|a|] == a;
  }

  lemma OneMessage(p: Pipeline, x: Message)
    ensures Sends(p, [x]) == SendsFor(p, x)
    ensures Reports(p, [x]) == ReportsFor(p, x)
    ensures Events(p, [x]) == EventsFor(p, x)
  {
    assert [x][..0] == [];
    assert Collect([x], SendsEach(p)) == Collect([], SendsEach(p)) + SendsEach(p)(x);
    assert Collect([x], ReportsEach(p)) == Collect([], ReportsEach(p)) + ReportsEach(p)(x);
    assert Collect([x], EventsEach(p)) == Collect([], EventsEach(p)) + EventsEach(p)(x);
  }

  /** Sends happen in input order: if x arrives before y and both survive
      the chain, x's send precedes y's, with nothing else of theirs in
      between but what the messages between them cause. */
  lemma OrderPreserved(p: Pipeline, a: seq<Message>, x: Message, b: seq<Message>, y: Message, c: seq<Message>)
    requires p.outputTopic.Some?
    requires RunChain(p.operations, x).Passed? && RunChain(p.operations, y).Passed?
    ensures Sends(p, a + [x] + b + [y] + c)
         == Sends(p, a) + [Send(p.outputTopic.value, RunChain(p.operations, x).msg)]
            + Sends(p, b) + [Send(p.outputTopic.value, RunChain(p.operations, y).msg)] + Sends(p, c)
  {
    RunAppend(p, a + [x] + b + [y], c);
    RunAppend(p, a + [x] + b, [y]);
    RunAppend(p, a + [x], b);
    RunAppend(p, a, [x]);
    OneMessage(p, x);
    OneMessage(p, y);
  }

  /** Only the output topic is written to, and nothing at all is written
      when there is no output topic. */
  lemma {:induction false} SendsOnlyToOutput(p: Pipeline, input: seq<Message>)
    ensures p.outputTopic.None? ==> Sends(p, input) == []
    ensures forall k | 0 <= k < |Sends(p, input)| :: p.outputTopic == Some(Sends(p, input)[k].topic)
    ensures |Sends(p, input)| <= |input|
    decreases |input|
  {
    if input != [] {
      SendsOnlyToOutput(p, input[..|input| - 1]);
    }
  }

  /** With no operations, every input message is sent on unchanged, id and
      content included, in input order. */
  lemma {:induction false} EmptyChainRepublishes(p: Pipeline, input: seq<Message>)
    requires p.operations == [] && p.outputTopic.Some?
    ensures |Sends(p, input)| == |input|
    ensures forall i | 0 <= i < |input| :: Sends(p, input)[i] == Send(p.outputTopic.value, input[i])
    decreases |input|
  {
    if input != [] {
      EmptyChainRepublishes(p, input[..|input| - 1]);
    }
  }

  /** A failing message is only reported, to the handler if there is one,
      with the message as received, at its place among the effects of the
      other messages; the messages around it are processed exactly as if
      it had not been there. */
  lemma FailureIsolation(p: Pipeline, a: seq<Message>, x: Message, b: seq<Message>)
    requires RunChain(p.operations, x).Failed?
    ensures Sends(p, a + [x] + b) == Sends(p, a) + Sends(p, b)
    ensures Reports(p, a + [x] + b)
         == Reports(p, a)
            + (if p.errorHandler.Some?
               then [Report(p.errorHandler.value, RunChain(p.operations, x).failure, x)]
               else [])
            + Reports(p, b)
    ensures Events(p, a + [x] + b)
         == Events(p, a)
            + (if p.errorHandler.Some?
               then [Reported(Report(p.errorHandler.value, RunChain(p.operations, x).failure, x))]
               else [])
            + Events(p, b)
  {
    RunAppend(p, a + [x], b);
    RunAppend(p, a, [x]);
    OneMessage(p, x);
    assert SendsFor(p, x) == [];
    assert Sends(p, a + [x]) == Sends(p, a);
  }

  /** A rejected message leaves no trace: no send and no handler call. */
  lemma RejectionIsSilent(p: Pipeline, a: seq<Message>, x: Message, b: seq<Message>)
    requires RunChain(p.operations, x).Rejected?
    ensures Sends(p, a + [x] + b) == Sends(p, a) + Sends(p, b)
    ensures Reports(p, a + [x] + b) == Reports(p, a) + Reports(p, b)
    ensures Events(p, a + [x] + b) == Events(p, a) + Events(p, b)
  {
    RunAppend(p, a + [x], b);
    RunAppend(p, a, [x]);
    OneMessage(p, x);
    assert SendsFor(p, x) == [] && ReportsFor(p, x) == [] && EventsFor(p, x) == [];
    assert Sends(p, a + [x]) == Sends(p, a);
    assert Reports(p, a + [x]) == Reports(p, a);
    assert Events(p, a + [x]) == Events(p, a);
  }

  /** Every handler call goes to the configured handler and carries an input
      message as it was received, together with the very failure the chain
      raised on it; without a handler there are no calls. */
  lemma {:induction false} ReportsCarryOriginals(p: Pipeline, input: seq<Message>)
    ensures p.errorHandler.None? ==> Reports(p, input) == []
    ensures forall k | 0 <= k < |Reports(p, input)| ::
              && p.errorHandler == Some(Reports(p, input)[k].handler)
              && Reports(p, input)[k].original in input
              && RunChain(p.operations, Reports(p, input)[k].original) == Failed(Reports(p, input)[k].failure)
    decreases |input|
  {
    if input != [] {
      var init := input[..|input| - 1];
      assert input == init + [input[|input| - 1]];
      Snoc(p, init, input[|input| - 1]);
      ReportsCarryOriginals(p, init);
      forall k | 0 <= k < |Reports(p, init)|
        ensures Reports(p, init)[k].original in input
      {
        var j :| 0 <= j < |init| && init[j] == Reports(p, init)[k].original;
        assert input[j] == init[j];
      }
    }
  }

  /** Every message is accounted for exactly once: it survives, is
      rejected or fails; with an output topic each survivor is sent once,
      and with a handler each failure is reported once. */
  lemma {:induction false} Tally(p: Pipeline, input: seq<Message>)
    ensures CountWhere(p, input, (o: Outcome) => o.Passed?) + CountWhere(p, input, (o: Outcome) => o.Rejected?)
            + CountWhere(p, input, (o: Outcome) => o.Failed?) == |input|
    ensures p.outputTopic.Some? ==> |Sends(p, input)| == CountWhere(p, input, (o: Outcome) => o.Passed?)
    ensures p.errorHandler.Some? ==> |Reports(p, input)| == CountWhere(p, input, (o: Outcome) => o.Failed?)
    decreases |input|
  {
    if input != [] {
      Tally(p, input[..|input| - 1]);
    }
  }

  /** What a run of start() amounts to as Pipeline.kt writes it: the sends
      made, and the failure that escaped start(), if one did. */
  datatype AsWrittenRun = AsWrittenRun(sends: seq<Send>, raised: Option<Throwable>)

  /** start() as Pipeline.kt writes it: there is no error handler and
      nothing catches what a stage throws, so the first failing message ends
      the run with that failure and no later message is processed. */
  function StartAsWritten(p: Pipeline, input: seq<Message>): (r: AsWrittenRun)
    ensures r.raised.None? <==> forall i | 0 <= i < |input| :: !RunChain(p.operations, input[i]).Failed?
    ensures r.raised.Some? ==>
              exists i | 0 <= i < |input| :: RunChain(p.operations, input[i]) == Failed(r.raised.value)
    ensures |r.sends| <= |input|
    decreases |input|
  {
    if input == [] then AsWrittenRun([], None)
    else
      match RunChain(p.operations, input[0])
      case Failed(e) => AsWrittenRun([], Some(e))
      case _ =>
        var rest := StartAsWritten(p, input[1..]);
        assert forall i | 1 <= i < |input| :: input[i] == input[1..][i - 1];
        AsWrittenRun(SendsFor(p, input[0]) + rest.sends, rest.raised)
  }

  /** Where no message fails, the run as written and the isolating run send
      the same messages, and nothing escapes. */
  lemma {:induction false} AsWrittenAgreesWithoutFailures(p: Pipeline, input: seq<Message>)
    requires forall i | 0 <= i < |input| :: !RunChain(p.operations, input[i]).Failed?
    ensures StartAsWritten(p, input) == AsWrittenRun(Sends(p, input), None)
    decreases |input|
  {
    if input != [] {
      assert !RunChain(p.operations, input[0]).Failed?;
      AsWrittenAgreesWithoutFailures(p, input[1..]);
      assert input == [input[0]] + input[1..];
      RunAppend(p, [input[0]], input[1..]);
      OneMessage(p, input[0]);
    }
  }

  /** As written, the first failing message ends the run: its failure
      escapes start(), and the messages after it are never processed. */
  lemma {:induction false} AsWrittenStopsAtFirstFailure(p: Pipeline, a: seq<Message>, x: Message, b: seq<Message>)
    requires forall i | 0 <= i < |a| :: !RunChain(p.operations, a[i]).Failed?
    requires RunChain(p.operations, x).Failed?
    ensures StartAsWritten(p, a + [x] + b)
         == AsWrittenRun(Sends(p, a), Some(RunChain(p.operations, x).failure))
    decreases |a|
  {
    if a == [] {
      assert a + [x] + b == [x] + b;
    } else {
      assert (a + [x] + b)[0] == a[0];
      assert (a + [x] + b)[1..] == a[1..] + [x] + b;
      assert !RunChain(p.operations, a[0]).Failed?;
      AsWrittenStopsAtFirstFailure(p, a[1..], x, b);
      assert a == [a[0]] + a[1..];
      RunAppend(p, [a[0]], a[1..]);
      OneMessage(p, a[0]);
    }
  }
}
