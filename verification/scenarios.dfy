/** The repository's tests, restated as proved facts about the model:
    core/src/test/.../PipelineTest.kt, core/src/test/.../PipelineBuilderKtTest.kt
    and adapters/in-memory/src/test/.../InMemoryPipelineIntegrationTest.kt. */
module Scenarios {
  import opened Wrappers
  import opened Messages
  import opened Stages
  import opened Pipelines
  import opened Dsl

  /** Kotlin's `String.contains`: `sub` occurs in `s` at some position. */
  predicate Contains(s: string, sub: string)
    decreases |s|
  {
    |sub| <= |s| && (s[..|sub|] == sub || Contains(s[1..], sub))
  }

  /** `sub` occurs in `s` starting at position `i`. */
  predicate OccursAt(s: string, sub: string, i: int) {
    0 <= i && i + |sub| <= |s| && s[i..i + |sub|] == sub
  }

  /** An occurrence one position further into `s` is an occurrence in the
      tail of `s`. */
  lemma ShiftOccurrence(s: string, sub: string, i: int)
    requires 1 <= |s| && 0 <= i
    ensures OccursAt(s, sub, i + 1) <==> OccursAt(s[1..], sub, i)
  {
    if i + 1 + |sub| <= |s| {
      var here, there := s[i + 1..i + 1 + |sub|], s[1..][i..i + |sub|];
      assert |here| == |there|;
      forall k | 0 <= k < |here|
        ensures here[k] == there[k]
      {
        assert here[k] == s[i + 1 + k];
        assert there[k] == s[1..][i + k];
      }
      assert here == there;
    }
  }

  /** `Contains` agrees with the definition by positions. */
  lemma {:induction false} ContainsAt(s: string, sub: string)
    ensures Contains(s, sub) <==> exists i :: OccursAt(s, sub, i)
    decreases |s|
  {
    if |sub| > |s| {
      forall i | OccursAt(s, sub, i)
        ensures false
      {
      }
    } else if s[..|sub|] == sub {
      assert s[0..0 + |sub|] == s[..|sub|];
      assert OccursAt(s, sub, 0);
    } else {
      assert !OccursAt(s, sub, 0) by {
        assert s[0..0 + |sub|] == s[..|sub|];
      }
      ContainsAt(s[1..], sub);
      if Contains(s[1..], sub) {
        var i :| OccursAt(s[1..], sub, i);
        ShiftOccurrence(s, sub, i);
      } else {
        forall i | OccursAt(s, sub, i)
          ensures false
        {
          if i > 0 {
            ShiftOccurrence(s, sub, i - 1);
          }
        }
      }
    }
  }

  /** A string in which the first two characters of `sub` are never
      adjacent does not contain `sub`. */
  lemma {:induction false} NoAdjacentPair(s: string, sub: string)
    requires |sub| >= 2
    requires forall i | 0 <= i < |s| - 1 :: s[i] == sub[0] ==> s[i + 1] != sub[1]
    ensures !Contains(s, sub)
    decreases |s|
  {
    if |sub| <= |s| {
      assert s[..|sub|][0] == s[0] && s[..|sub|][1] == s[1];
      forall i | 0 <= i < |s[1..]| - 1
        ensures s[1..][i] == sub[0] ==> s[1..][i + 1] != sub[1]
      {
        assert s[1..][i] == s[i + 1] && s[1..][i + 1] == s[i + 2];
      }
      NoAdjacentPair(s[1..], sub);
    }
  }

  /** `filter { it.content.contains("important") }` */
  function ImportantOnly(m: Message): Eval<bool> {
    Returned(Contains(m.content, "important"))
  }

  /** `map { Message(it.id, "Transformed: ${it.content}") }` */
  function Prefix(m: Message): Eval<Message> {
    Returned(Message(m.id, "Transformed: " + m.content))
  }

  /** The integration test's transform, which throws on "error". */
  function PrefixUnlessError(m: Message): Eval<Message> {
    if Contains(m.content, "error") then Raised(Throwable("Processing error"))
    else Returned(Message(m.id, "Transformed: " + m.content))
  }

  /** A broker on which the topic "input" delivers `input` and then closes. */
  function Feed(input: seq<Message>): string -> seq<Message> {
    t => if t == "input" then input else []
  }

  /** The handler that collects the integration test's `errors`. */
  const Collector := Handler(0)

  lemma TwoMessages(p: Pipeline, x: Message, y: Message)
    ensures Sends(p, [x, y]) == SendsFor(p, x) + SendsFor(p, y)
    ensures Reports(p, [x, y]) == ReportsFor(p, x) + ReportsFor(p, y)
    ensures Events(p, [x, y]) == EventsFor(p, x) + EventsFor(p, y)
  {
    assert [x, y] == [x] + [y];
    RunAppend(p, [x], [y]);
    OneMessage(p, x);
    OneMessage(p, y);
  }

  /** The configuration block of PipelineTest. */
  const PipelineTestBlock: seq<Directive> :=
    [ConsumeFrom("input"), Filter(ImportantOnly), Map(Prefix), ProduceTo("output")]

  /** The configuration block of InMemoryPipelineIntegrationTest. */
  const IntegrationBlock: seq<Directive> :=
    [ConsumeFrom("input"), Filter(ImportantOnly), Map(PrefixUnlessError), ProduceTo("output"), OnError(Collector)]

  /** The settings of a block that calls, in this order, consumeFrom,
      filter, map and produceTo. */
  lemma FourCallSettings(input: string, f: FilterFn, g: MapFn, output: string)
    ensures var block := [ConsumeFrom(input), Filter(f), Map(g), ProduceTo(output)];
            && LastInputTopic(block) == Some(input)
            && DeclaredFilters(block) == [f]
            && DeclaredTransforms(block) == [g]
            && LastOutputTopic(block) == Some(output)
            && LastHandler(block) == None
  {
    var block := [ConsumeFrom(input), Filter(f), Map(g), ProduceTo(output)];
    var b1 := [ConsumeFrom(input)];
    var b2 := [ConsumeFrom(input), Filter(f)];
    var b3 := [ConsumeFrom(input), Filter(f), Map(g)];
    assert b1[..0] == [] && b2[..1] == b1 && b3[..2] == b2 && block[..3] == b3;
    assert LastHandler(b1) == None && LastOutputTopic(b1) == None;
    assert DeclaredFilters(b1) == [] && DeclaredTransforms(b1) == [];
    assert LastHandler(b2) == None && LastOutputTopic(b2) == None && LastInputTopic(b2) == Some(input);
    assert DeclaredFilters(b2) == [f] && DeclaredTransforms(b2) == [];
    assert LastHandler(b3) == None && LastOutputTopic(b3) == None && LastInputTopic(b3) == Some(input);
    assert DeclaredFilters(b3) == [f] && DeclaredTransforms(b3) == [g];
  }

  /** The settings of a block that calls, in this order, consumeFrom,
      filter, map, produceTo and onError. */
  lemma FiveCallSettings(input: string, f: FilterFn, g: MapFn, output: string, h: Handler)
    ensures var block := [ConsumeFrom(input), Filter(f), Map(g), ProduceTo(output), OnError(h)];
            && LastInputTopic(block) == Some(input)
            && DeclaredFilters(block) == [f]
            && DeclaredTransforms(block) == [g]
            && LastOutputTopic(block) == Some(output)
            && LastHandler(block) == Some(h)
  {
    var b3 := [ConsumeFrom(input), Filter(f), Map(g), ProduceTo(output)];
    FourCallSettings(input, f, g, output);
    AppendOne(b3, OnError(h));
    assert b3 + [OnError(h)] == [ConsumeFrom(input), Filter(f), Map(g), ProduceTo(output), OnError(h)];
  }

  lemma PipelineTestContents()
    ensures Contains("important", "important")
    ensures !Contains("skip", "important")
  {
  }

  /** The pipeline PipelineTest configures. */
  const TestPipeline :=
    Pipeline("input", Chain([ImportantOnly], [Prefix]), Some("output"), None)

  /** The pipeline the integration test configures. */
  const IntegrationPipeline :=
    Pipeline("input", Chain([ImportantOnly], [PrefixUnlessError]), Some("output"), Some(Collector))

  lemma ImportantPasses(m1: Message)
    requires m1 == Message("1", "important")
    ensures RunChain(TestPipeline.operations, m1) == Passed(Message("1", "Transformed: important"))
  {
    PipelineTestContents();
    ChainIsFiltersThenTransforms([ImportantOnly], [Prefix], m1);
    assert "Transformed: " + "important" == "Transformed: important";
  }

  lemma SkipIsRejected(m2: Message)
    requires m2 == Message("2", "skip")
    ensures RunChain(TestPipeline.operations, m2) == Rejected
  {
    PipelineTestContents();
    ChainIsFiltersThenTransforms([ImportantOnly], [Prefix], m2);
  }

  lemma TestPipelineRun(m1: Message, m2: Message)
    requires m1 == Message("1", "important") && m2 == Message("2", "skip")
    ensures Sends(TestPipeline, [m1, m2]) == [Send("output", Message("1", "Transformed: important"))]
    ensures Reports(TestPipeline, [m1, m2]) == []
    ensures Events(TestPipeline, [m1, m2]) == [Sent(Send("output", Message("1", "Transformed: important")))]
  {
    ImportantPasses(m1);
    SkipIsRejected(m2);
    TwoMessages(TestPipeline, m1, m2);
  }

  /** PipelineTest: of "important" and "skip", only the first is sent, as
      "Transformed: important"; the rejected one causes no send and no
      error. */
  method FilterAndTransformScenario() returns (events: seq<Event>)
    ensures events == [Sent(Send("output", Message("1", "Transformed: important")))]
  {
    FourCallSettings("input", ImportantOnly, Prefix, "output");
    assert PipelineTestBlock[0].ConsumeFrom?;
    var r := MessagePipeline(PipelineTestBlock);
    var pipeline := r.value;
    assert pipeline == TestPipeline;
    var m1, m2 := Message("1", "important"), Message("2", "skip");
    events := pipeline.Start(Feed([m1, m2]));
    TestPipelineRun(m1, m2);
  }

  /** PipelineBuilderKtTest (its commented-out check): a builder given one
      filter and one map builds a pipeline with two operations, the filter
      first. */
  method BuilderScenario() returns (operations: seq<Stage>)
    ensures |operations| == 2 && operations[0].Filtering? && operations[1].Mapping?
  {
    var builder := new PipelineBuilder();
    builder.ConsumeFrom("input");
    builder.Filter(ImportantOnly);
    builder.Map(Prefix);
    builder.ProduceTo("output");
    var r := builder.Build();
    operations := r.value.GetOperations();
  }

  lemma IntegrationPasses(m: Message)
    requires Contains(m.content, "important") && !Contains(m.content, "error")
    ensures RunChain(IntegrationPipeline.operations, m) == Passed(Message(m.id, "Transformed: " + m.content))
  {
    ChainIsFiltersThenTransforms([ImportantOnly], [PrefixUnlessError], m);
  }

  lemma IntegrationFails(m: Message)
    requires Contains(m.content, "important") && Contains(m.content, "error")
    ensures RunChain(IntegrationPipeline.operations, m) == Failed(Throwable("Processing error"))
  {
    ChainIsFiltersThenTransforms([ImportantOnly], [PrefixUnlessError], m);
  }

  lemma NoErrorInImportantMessage(s: string)
    requires s == "important message"
    ensures !Contains(s, "error")
  {
    forall i | 0 <= i < |s| - 1
      ensures s[i] == "error"[0] ==> s[i + 1] != "error"[1]
    {
    }
    NoAdjacentPair(s, "error");
  }

  lemma ImportantInImportantMessage(s: string)
    requires s == "important message"
    ensures Contains(s, "important")
  {
  }

  lemma ImportantInImportantError(s: string)
    requires s == "important error"
    ensures Contains(s, "important")
  {
  }

  lemma ErrorInImportantError(s: string)
    requires s == "important error"
    ensures Contains(s, "error")
  {
    assert s[10..15] == "error";
    assert OccursAt(s, "error", 10);
    ContainsAt(s, "error");
  }

  lemma TransformedImportantMessage(s: string)
    requires s == "important message"
    ensures "Transformed: " + s == "Transformed: important message"
  {
  }

  lemma GoodMessageOutcome(m1: Message)
    requires m1 == Message("1", "important message")
    ensures RunChain(IntegrationPipeline.operations, m1)
         == Passed(Message("1", "Transformed: important message"))
  {
    ImportantInImportantMessage(m1.content);
    NoErrorInImportantMessage(m1.content);
    IntegrationPasses(m1);
    TransformedImportantMessage(m1.content);
  }

  lemma BadMessageOutcome(m2: Message)
    requires m2 == Message("2", "important error")
    ensures RunChain(IntegrationPipeline.operations, m2) == Failed(Throwable("Processing error"))
  {
    ImportantInImportantError(m2.content);
    ErrorInImportantError(m2.content);
    IntegrationFails(m2);
  }

  /** The integration pipeline on its two messages, in either arrival
      order: the same send and the same handler call, made in arrival
      order. */
  lemma IntegrationRun(m1: Message, m2: Message)
    requires m1 == Message("1", "important message") && m2 == Message("2", "important error")
    ensures Sends(IntegrationPipeline, [m1, m2]) == [Send("output", Message("1", "Transformed: important message"))]
    ensures Sends(IntegrationPipeline, [m2, m1]) == [Send("output", Message("1", "Transformed: important message"))]
    ensures Reports(IntegrationPipeline, [m1, m2]) == [Report(Collector, Throwable("Processing error"), m2)]
    ensures Reports(IntegrationPipeline, [m2, m1]) == [Report(Collector, Throwable("Processing error"), m2)]
    ensures Events(IntegrationPipeline, [m1, m2])
         == [Sent(Send("output", Message("1", "Transformed: important message"))),
             Reported(Report(Collector, Throwable("Processing error"), m2))]
    ensures Events(IntegrationPipeline, [m2, m1])
         == [Reported(Report(Collector, Throwable("Processing error"), m2)),
             Sent(Send("output", Message("1", "Transformed: important message")))]
  {
    GoodMessageOutcome(m1);
    BadMessageOutcome(m2);
    TwoMessages(IntegrationPipeline, m1, m2);
    TwoMessages(IntegrationPipeline, m2, m1);
  }

  /** InMemoryPipelineIntegrationTest: of "important message" and
      "important error", the first is sent transformed, the second is not
      sent, and the handler is called once, after that send, with the
      failure and the second message as it was received. */
  method FailureIsolationScenario() returns (events: seq<Event>)
    ensures events == [Sent(Send("output", Message("1", "Transformed: important message"))),
                       Reported(Report(Collector, Throwable("Processing error"), Message("2", "important error")))]
  {
    FiveCallSettings("input", ImportantOnly, PrefixUnlessError, "output", Collector);
    assert IntegrationBlock[0].ConsumeFrom?;
    var r := MessagePipeline(IntegrationBlock);
    var pipeline := r.value;
    assert pipeline == IntegrationPipeline;
    var m1, m2 := Message("1", "important message"), Message("2", "important error");
    events := pipeline.Start(Feed([m1, m2]));
    IntegrationRun(m1, m2);
  }

  /** The input that shows Pipeline.kt as written losing messages: when the
      failing message arrives first, start() as written raises its failure
      and never sends the good message, while the isolating run sends it
      and reports the failure. */
  lemma AsWrittenLosesLaterMessages()
    ensures StartAsWritten(IntegrationPipeline,
                           [Message("2", "important error"), Message("1", "important message")])
         == AsWrittenRun([], Some(Throwable("Processing error")))
    ensures Sends(IntegrationPipeline, [Message("2", "important error"), Message("1", "important message")])
         == [Send("output", Message("1", "Transformed: important message"))]
    ensures Reports(IntegrationPipeline, [Message("2", "important error"), Message("1", "important message")])
         == [Report(Collector, Throwable("Processing error"), Message("2", "important error"))]
    ensures Events(IntegrationPipeline, [Message("2", "important error"), Message("1", "important message")])
         == [Reported(Report(Collector, Throwable("Processing error"), Message("2", "important error"))),
             Sent(Send("output", Message("1", "Transformed: important message")))]
  {
    var m1, m2 := Message("1", "important message"), Message("2", "important error");
    IntegrationRun(m1, m2);
    BadMessageOutcome(m2);
    AsWrittenStopsAtFirstFailure(IntegrationPipeline, [], m2, [m1]);
    assert [] + [m2] + [m1] == [m2, m1];
  }
}
