# kotlin-eventflow: pipeline builder and pipeline executor in Dafny

kotlin-eventflow is a Kotlin DSL for message pipelines. A
`messagePipeline { ... }` block configures a `PipelineBuilder`:

- `consumeFrom` sets the input topic;
- `filter` and `map` add per-message operations;
- `produceTo` sets the output topic;
- `onError` sets an error handler.

`build()` turns the builder into a `Pipeline`. Its `start()` reads every
message of the input topic and applies the operations to it in order. A
message that survives is sent to the output topic.

This project models those two core files.

- `PipelineBuilder.kt` becomes the class `Dsl.PipelineBuilder`. Its five
  fields are reassigned or appended to by one method per DSL call.
  `Dsl.MessagePipeline` runs a block of calls (a `seq<Directive>`) on a
  fresh builder and builds it.
- `Pipeline.kt` becomes the datatype `Pipelines.Pipeline`. The pipeline
  holds nothing mutable, so it is a value. Its `Start` method loops over
  the input and returns one event log: the sends and the error-handler
  calls, in the order the run makes them. The send log and the handler
  log are the two projections of that event log (`Pipelines.SentLog`,
  `Pipelines.ReportedLog`).
- The operations are per-message stages (`Stages.Stage`). Each one is a
  filter or a map whose user lambda either returns a value or throws
  (`Stages.Eval`). `Stages.RunChain` is the chain applied to one message:
  each stage gets the previous stage's output, and the first rejection or
  failure ends the chain.
- The broker is reduced to what `start()` sees of it:
  - a function giving the finite sequence of messages delivered on each
    topic until that topic is closed;
  - the sequence of `sendMessage` calls `start()` makes.
- `Scenarios` restates the repository's tests as proved facts:
  - `core/src/test/.../PipelineTest.kt`;
  - `adapters/in-memory/src/test/.../InMemoryPipelineIntegrationTest.kt`;
  - `core/src/test/.../PipelineBuilderKtTest.kt`, whose only check is
    commented out and asserts nothing. `Scenarios.BuilderScenario` states
    that commented-out check (two operations) together with the
    filters-first order.

The builder and the pipeline do not fit together as the code stands.
`build()` (PipelineBuilder.kt:77) calls a six-argument `Pipeline`
constructor: adapter, input topic, filters, transforms, output topic,
handler. `Pipeline.kt` declares four parameters: adapter, input topic, one
`operations` list, output topic. The model makes two choices to join them:

- The pipeline keeps the single ordered `operations` list of Pipeline.kt
  and also carries the error handler that `build()` passes to it.
- `Build` merges the two lists filters first, then transforms
  (`Stages.Chain`). Every test in the repository declares its filter before
  its map, so the tests are consistent with this order but cannot tell it
  apart from declaration order; the model states it as an assumption. Both lists can be read back from
  the merged chain (`Stages.ChainRoundTrip`). Running the merged chain is
  running all filters on the original message, then all transforms
  (`Stages.ChainIsFiltersThenTransforms`).

A filter declared after a map therefore still runs before it.
`Dsl.KindsDoNotInterleave` states this: swapping a map with the filter
that follows it configures the same pipeline.

`start()` as written in Pipeline.kt has no error handling. The integration
test expects the handler to be called and the run to continue. The model's
`Start` does what the test expects. What the code as written does is
modelled beside it: see "## Findings".

## Model

| member | source | states |
|---|---|---|
| Dsl.PipelineBuilder.constructor | core/src/main/kotlin/com/example/eventflow/dsl/PipelineBuilder.kt:23-28 | A fresh builder has no input topic, no output topic, no handler and empty filter and transform lists |
| Dsl.PipelineBuilder.ConsumeFrom | core/src/main/kotlin/com/example/eventflow/dsl/PipelineBuilder.kt:34-36 | Sets the input topic, replacing any earlier one; no other field changes |
| Dsl.PipelineBuilder.Filter | core/src/main/kotlin/com/example/eventflow/dsl/PipelineBuilder.kt:42-44 | The filter list becomes the old list plus the new predicate at the end; nothing else changes |
| Dsl.PipelineBuilder.Map | core/src/main/kotlin/com/example/eventflow/dsl/PipelineBuilder.kt:50-52 | The transform list becomes the old list plus the new transform at the end; nothing else changes |
| Dsl.PipelineBuilder.ProduceTo | core/src/main/kotlin/com/example/eventflow/dsl/PipelineBuilder.kt:58-60 | Sets the output topic, last write wins; nothing else changes |
| Dsl.PipelineBuilder.OnError | core/src/main/kotlin/com/example/eventflow/dsl/PipelineBuilder.kt:66-68 | Sets the error handler, last write wins; nothing else changes |
| Dsl.PipelineBuilder.Build | core/src/main/kotlin/com/example/eventflow/dsl/PipelineBuilder.kt:75-78 | Fails exactly when no input topic is set, with IllegalArgument("Input topic must be specified"). Otherwise the pipeline carries the builder's topics and handler, and its operations (what getOperations returns) are the merged chain, from which both lists read back exactly. The builder is left unchanged |
| Dsl.Perform | core/src/main/kotlin/com/example/eventflow/dsl/PipelineBuilder.kt:34-68 | One DSL call on the builder: the slot it names is overwritten or the list it names is appended to, and the other fields keep their values |
| Dsl.LastInputTopic | core/src/main/kotlin/com/example/eventflow/dsl/PipelineBuilder.kt:34-36 | A block leaves no input topic exactly when it has no consumeFrom call; any topic it leaves was passed to one of its consumeFrom calls |
| Dsl.LastOutputTopic | core/src/main/kotlin/com/example/eventflow/dsl/PipelineBuilder.kt:58-60 | A block leaves no output topic exactly when it has no produceTo call; any topic it leaves was passed to one of its produceTo calls |
| Dsl.LastHandler | core/src/main/kotlin/com/example/eventflow/dsl/PipelineBuilder.kt:66-68 | A block leaves no handler exactly when it has no onError call; any handler it leaves was passed to one of its onError calls |
| Dsl.BlockAppend | core/src/main/kotlin/com/example/eventflow/dsl/PipelineBuilder.kt:34-68 | For a block split in two, each single slot takes the second part's value if the second part sets it, and the first part's value otherwise |
| Dsl.DeclaredAppend | core/src/main/kotlin/com/example/eventflow/dsl/PipelineBuilder.kt:42-52 | For a block split in two, the filter list and the transform list are the first part's list followed by the second part's |
| Dsl.AppendOne | core/src/main/kotlin/com/example/eventflow/dsl/PipelineBuilder.kt:34-68 | One more call at the end of a block overwrites its own slot or appends to its own list, and leaves every other setting as it was |
| Dsl.SameSettingsInContext | core/src/main/kotlin/com/example/eventflow/dsl/PipelineBuilder.kt:34-68 | Two parts of a block that configure the same settings can be exchanged inside any surrounding block |
| Dsl.KindsDoNotInterleave | core/src/main/kotlin/com/example/eventflow/dsl/PipelineBuilder.kt:42-52 | A map followed by a filter configures exactly the same pipeline as the filter followed by the map, because the two kinds go to separate lists |
| Dsl.MessagePipeline | core/src/main/kotlin/com/example/eventflow/dsl/PipelineBuilder.kt:13-17 | Running a block on a fresh builder and building it fails exactly when the block never calls consumeFrom. Otherwise the pipeline has the block's last input topic, last output topic, last handler, and its filters and transforms in declaration order, filters first |
| Stages.RunChain | core/src/main/kotlin/com/example/eventflow/pipeline/Pipeline.kt:23-26 | The empty chain passes the message on unchanged; a chain of maps only never rejects; a chain of filters only passes the message unchanged when it passes it at all |
| Stages.Invocations | core/src/main/kotlin/com/example/eventflow/pipeline/Pipeline.kt:24-26 | At most every stage runs on a message; all of them run when it survives; the first always runs |
| Stages.RunChainAppend | core/src/main/kotlin/com/example/eventflow/pipeline/Pipeline.kt:24-26 | Running chain a then chain b is running a + b: b receives a's output, and a rejection or failure in a stops there |
| Stages.RunChainFold | core/src/main/kotlin/com/example/eventflow/pipeline/Pipeline.kt:24-26 | Appending one stage applies it to the output of the chain before it, as the forEach fold does |
| Stages.ShortCircuit | core/src/main/kotlin/com/example/eventflow/pipeline/Pipeline.kt:24-26 | When a stage rejects or fails, that is the outcome of the whole chain, and the stages after it never run: exactly the stages up to it are evaluated (the count the executor loop Pipelines.ApplyOperations is proved to evaluate) |
| Stages.Chain | core/src/main/kotlin/com/example/eventflow/dsl/PipelineBuilder.kt:77 | The merged chain has one filter stage per filter followed by one map stage per transform: position i is a filter exactly when i is below the number of filters |
| Stages.ChainRoundTrip | core/src/main/kotlin/com/example/eventflow/dsl/PipelineBuilder.kt:77 | The filter list and the transform list are recovered exactly, in order, from the merged chain |
| Stages.ChainIsFiltersThenTransforms | core/src/main/kotlin/com/example/eventflow/dsl/PipelineBuilder.kt:77 | The merged chain runs all filters on the received message, then, if it survives, all transforms in order |
| Stages.RunFilters | core/src/main/kotlin/com/example/eventflow/dsl/PipelineBuilder.kt:42-44 | Filters never change a message: a message that passes them is the one received |
| Stages.RunTransforms | core/src/main/kotlin/com/example/eventflow/dsl/PipelineBuilder.kt:50-52 | Transforms never reject a message |
| Pipelines.ApplyOperations | core/src/main/kotlin/com/example/eventflow/pipeline/Pipeline.kt:23-26 | The loop over the operations gives the chain's outcome for the message, and it evaluates exactly Stages.Invocations stages: it stops at the first rejection or failure |
| Pipelines.Pipeline.Start | core/src/main/kotlin/com/example/eventflow/pipeline/Pipeline.kt:22-32 | Consumes the whole input topic. Its event log is exactly the effects the input causes, message by message in input order, each send or handler call at its message's place. Picking out the sends gives the send log, picking out the handler calls gives the handler log |
| Pipelines.EventsProject | core/src/main/kotlin/com/example/eventflow/pipeline/Pipeline.kt:27-31 | The sends of the event log, in order, are the send log, and its handler calls, in order, are the handler log |
| Pipelines.LogAppend | core/src/main/kotlin/com/example/eventflow/pipeline/Pipeline.kt:27-31 | Picking the sends, or the handler calls, out of two event logs one after the other gives the first log's followed by the second's |
| Pipelines.RunAppend | core/src/main/kotlin/com/example/eventflow/pipeline/Pipeline.kt:27-31 | Runs over consecutive parts of the input give consecutive parts of the event log, of the send log and of the handler log |
| Pipelines.CollectAppend | core/src/main/kotlin/com/example/eventflow/pipeline/Pipeline.kt:27-28 | Per-message output gathered over a split input is the first part's output followed by the second part's |
| Pipelines.Snoc | core/src/main/kotlin/com/example/eventflow/pipeline/Pipeline.kt:27-31 | One more message at the end of the input adds exactly what that message causes |
| Pipelines.OneMessage | core/src/main/kotlin/com/example/eventflow/pipeline/Pipeline.kt:27-31 | The logs of a one-message run are what that message causes |
| Pipelines.OrderPreserved | core/src/main/kotlin/com/example/eventflow/pipeline/Pipeline.kt:27-28 | When x arrives before y and both survive, x's send comes before y's, and between them come only the sends of the messages between them |
| Pipelines.SendsOnlyToOutput | core/src/main/kotlin/com/example/eventflow/pipeline/Pipeline.kt:27-31 | Without an output topic nothing is sent; every send goes to the output topic; there are at most as many sends as input messages |
| Pipelines.EmptyChainRepublishes | core/src/main/kotlin/com/example/eventflow/pipeline/Pipeline.kt:23-28 | With no operations, the send log is the input, message for message, id and content included |
| Pipelines.FailureIsolation | adapters/in-memory/src/test/kotlin/com/example/eventflow/adapters/InMemoryPipelineIntegrationTest.kt:29-67 | A failing message is not sent. It is reported once, with its failure and the message as received, when a handler is set, and that handler call sits in the event log between the effects of the messages before it and those after it. Those messages are processed as if it were absent |
| Pipelines.RejectionIsSilent | core/src/test/kotlin/com/example/eventflow/pipeline/PipelineTest.kt:18-34 | A rejected message causes neither a send nor a handler call, and changes nothing for the other messages |
| Pipelines.ReportsCarryOriginals | core/src/main/kotlin/com/example/eventflow/dsl/PipelineBuilder.kt:62-68 | Every handler call goes to the configured handler and carries a message from the input, as received, with the failure the chain raised on it. Without a handler there are no calls |
| Pipelines.Tally | core/src/main/kotlin/com/example/eventflow/pipeline/Pipeline.kt:27-31 | Every input message survives, is rejected or fails, exactly one of the three. With an output topic there is one send per survivor; with a handler there is one call per failure |
| Pipelines.CountAppend | core/src/main/kotlin/com/example/eventflow/pipeline/Pipeline.kt:27-31 | The number of messages with a given kind of outcome adds up over consecutive parts of the input |
| Pipelines.AsWrittenAgreesWithoutFailures | core/src/main/kotlin/com/example/eventflow/pipeline/Pipeline.kt:22-32 | When no message fails, start() as written sends the same messages as Start and nothing escapes |
| Pipelines.AsWrittenStopsAtFirstFailure | core/src/main/kotlin/com/example/eventflow/pipeline/Pipeline.kt:22-32 | As written, the first failing message ends the run. Its failure escapes start(), only the messages before it are sent, and the messages after it are never processed |
| Pipelines.StartAsWritten | core/src/main/kotlin/com/example/eventflow/pipeline/Pipeline.kt:22-32 | start() as written: the sends of the messages before the first failing one, with that failure escaping. Nothing escapes exactly when no message fails, and an escaping failure is one the chain raised on some input message; there are never more sends than messages. Its relation to Start is stated by Pipelines.AsWrittenAgreesWithoutFailures and Pipelines.AsWrittenStopsAtFirstFailure |
| Scenarios.FilterAndTransformScenario | core/src/test/kotlin/com/example/eventflow/pipeline/PipelineTest.kt:15-35 | For inputs "important" and "skip", the pipeline the DSL block builds has exactly one effect: it sends ("1", "Transformed: important") to "output", and calls no handler |
| Scenarios.BuilderScenario | core/src/test/kotlin/com/example/eventflow/dsl/PipelineBuilderKtTest.kt:10-25 | The builder given one filter and one map builds a pipeline with two operations, the filter first |
| Scenarios.FailureIsolationScenario | adapters/in-memory/src/test/kotlin/com/example/eventflow/adapters/InMemoryPipelineIntegrationTest.kt:22-69 | For inputs "important message" and "important error", the run sends ("1", "Transformed: important message") and then calls the handler once, with "Processing error" and the message ("2", "important error") as received; nothing else happens |
| Scenarios.IntegrationRun | adapters/in-memory/src/test/kotlin/com/example/eventflow/adapters/InMemoryPipelineIntegrationTest.kt:29-67 | Whichever of the two messages arrives first, the integration pipeline makes the same send and the same handler call, and makes them in arrival order |
| Scenarios.TestPipelineRun | core/src/test/kotlin/com/example/eventflow/pipeline/PipelineTest.kt:18-34 | The PipelineTest pipeline's logs for its two inputs: one transformed send, no handler calls |
| Scenarios.AsWrittenLosesLaterMessages | core/src/main/kotlin/com/example/eventflow/pipeline/Pipeline.kt:22-32 | With the failing message first, start() as written raises "Processing error" and sends nothing. Start reports the failing message and then sends the good one |
| Scenarios.ContainsAt | core/src/test/kotlin/com/example/eventflow/pipeline/PipelineTest.kt:26 | Kotlin's String.contains, as defined here, holds exactly when the substring occurs at some position |
| Scenarios.NoAdjacentPair | adapters/in-memory/src/test/kotlin/com/example/eventflow/adapters/InMemoryPipelineIntegrationTest.kt:33 | A string in which the first two characters of the substring never appear side by side does not contain it |

## Left out

- The broker adapter (MessageBrokerAdapter.kt) and InMemoryAdapter.kt are not part of this model. `receiveMessages` becomes a function from topic to the finite sequence of messages delivered until the topic is closed; `sendMessage` becomes an entry in the returned send log.
- Flow laziness, suspension, backpressure and cancellation are left out. The real `start()` interleaves receiving, running operations and sending per element. The model computes the same sends in the same order, but as one loop over a finished input.
- Operations are `(Flow<Message>) -> Flow<Message>` in Pipeline.kt, which allows operators that buffer, reorder, duplicate or merge. The model admits only per-message filter and map stages, which is all the builder ever creates.
- Exceptions are reduced to their message text (`Throwable`). The exception class, stack trace and cause are not modelled.
- The error handler is a token (`Handler`); the model records that it is called and with what, not what its body does. A handler that itself throws is not modelled.
- Dsl.PipelineBuilder.Build: the Kotlin code passes the builder's own mutable lists to the pipeline, so later builder calls would still change a built pipeline. The model copies the lists at build time, which is the same as long as the builder is not used after `build()`.
- The two-list to one-chain bridge (filters first, then transforms) is an assumption made to join PipelineBuilder.kt:77 to the constructor Pipeline.kt:13-18 actually declares; as written, the two declarations do not fit together.
- Dsl.PipelineBuilder.Build: the doc comment at PipelineBuilder.kt:73 announces an IllegalStateException, but `requireNotNull` throws IllegalArgumentException; the model follows the code (`IllegalArgument`).
- Pipelines.Pipeline.GetOperations is a plain accessor with no contract of its own; what it returns for a built pipeline is stated by Dsl.PipelineBuilder.Build.
- Pipelines.Pipeline.Start models the run the integration test expects, which catches a stage's failure, reports it and continues. What Pipeline.kt as written does is modelled separately by Pipelines.StartAsWritten (see "## Findings").
- A DSL block is modelled as a finite sequence of builder calls (`Directive`). Arbitrary Kotlin code inside the block, such as loops, conditions or reading the builder, is not modelled.
- The adapter parameter of `messagePipeline` and of the builder is left out; nothing in the core reads it except `start()`, where it is replaced by the receive function and the send log.
- SimplePipeline.kt (a demonstration driven by `delay`), the Gradle build files and the empty Kafka adapter are not part of this model.
- Test scaffolding (`runBlocking`, `withTimeout`, mockk, `take(1)`) are left out; the tests appear as the scenarios above.

## Findings

| source | as written | input that shows it | evidently intended | confidence | as-written member | corrected member |
|---|---|---|---|---|---|---|
| core/src/main/kotlin/com/example/eventflow/pipeline/Pipeline.kt:22-32 | `start()` catches nothing and never calls an error handler. The first message whose stage throws ends the run with that exception, so the messages after it are never processed or sent | The integration test's pipeline, with input [("2", "important error"), ("1", "important message")]: as written nothing is sent and "Processing error" escapes | The handler is called with the failure and the message as received, and processing continues with the next message, as InMemoryPipelineIntegrationTest.kt:63-67 and the `onError` doc comment at PipelineBuilder.kt:62-65 expect | high (not executed) | Pipelines.StartAsWritten, Scenarios.AsWrittenLosesLaterMessages | Pipelines.Pipeline.Start, Pipelines.FailureIsolation |
