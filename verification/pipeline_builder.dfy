/** The configuration DSL (dsl/PipelineBuilder.kt): a builder that
    accumulates a pipeline's settings call by call, and `messagePipeline`,
    which runs a configuration block on a fresh builder and builds it. */
module Dsl {
  import opened Wrappers
  import opened Stages
  import opened Pipelines

  /** The exception `build()` raises. `requireNotNull` throws an
      IllegalArgumentException, whatever the doc comment above `build()`
      says. */
  datatype ConfigError = IllegalArgument(message: string)

  /** The message of the exception `build()` raises. */
  const MissingInputTopic := "Input topic must be specified"

  /** Accumulates a pipeline's configuration. Topics and the handler are
      single slots where the last write wins; filters and transforms are
      lists that only grow, in call order. */
  class PipelineBuilder {
    var inputTopic: Option<string>
    var filters: seq<FilterFn>
    var transforms: seq<MapFn>
    var outputTopic: Option<string>
    var errorHandler: Option<Handler>

    /** A fresh builder has nothing configured. */
    constructor ()
      ensures inputTopic == None && filters == [] && transforms == []
      ensures outputTopic == None && errorHandler == None
    {
      inputTopic := None;
      filters := [];
      transforms := [];
      outputTopic := None;
      errorHandler := None;
    }

    /** Sets the input topic, replacing any earlier one. */
    method ConsumeFrom(topic: string)
      modifies this
      ensures inputTopic == Some(topic)
      ensures filters == old(filters) && transforms == old(transforms)
      ensures outputTopic == old(outputTopic) && errorHandler == old(errorHandler)
    {
      inputTopic := Some(topic);
    }

    /** Appends a filter after the ones already declared. */
    method Filter(test: FilterFn)
      modifies this
      ensures filters == old(filters) + [test]
      ensures inputTopic == old(inputTopic) && transforms == old(transforms)
      ensures outputTopic == old(outputTopic) && errorHandler == old(errorHandler)
    {
      filters := filters + [test];
    }

    /** Appends a transform after the ones already declared. */
    method Map(transform: MapFn)
      modifies this
      ensures transforms == old(transforms) + [transform]
      ensures inputTopic == old(inputTopic) && filters == old(filters)
      ensures outputTopic == old(outputTopic) && errorHandler == old(errorHandler)
    {
      transforms := transforms + [transform];
    }

    /** Sets the output topic, replacing any earlier one. */
    method ProduceTo(topic: string)
      modifies this
      ensures outputTopic == Some(topic)
      ensures inputTopic == old(inputTopic) && filters == old(filters)
      ensures transforms == old(transforms) && errorHandler == old(errorHandler)
    {
      outputTopic := Some(topic);
    }

    /** Sets the error handler, replacing any earlier one. */
    method OnError(handler: Handler)
      modifies this
      ensures errorHandler == Some(handler)
      ensures inputTopic == old(inputTopic) && filters == old(filters)
      ensures transforms == old(transforms) && outputTopic == old(outputTopic)
    {
      errorHandler := Some(handler);
    }

    /** Builds the pipeline, leaving the builder as it is. Fails exactly
        when no input topic was set; otherwise the pipeline carries the
        accumulated topics and handler, and operations from which both
        lists can be read back in declaration order, run filters first. */
    method Build() returns (r: Result<Pipeline, ConfigError>)
      ensures r.Failure? <==> inputTopic.None?
      ensures r.Failure? ==> r.error == IllegalArgument(MissingInputTopic)
      ensures r.Success? ==> && r.value.inputTopic == inputTopic.value
                             && r.value.outputTopic == outputTopic
                             && r.value.errorHandler == errorHandler
      ensures r.Success? ==> && FiltersOf(r.value.GetOperations()) == filters
                             && MapsOf(r.value.GetOperations()) == transforms
                             && r.value.GetOperations() == Chain(filters, transforms)
    {
      if inputTopic.None? {
        return Failure(IllegalArgument(MissingInputTopic));
      }
      ChainRoundTrip(filters, transforms);
      r := Success(Pipeline(inputTopic.value, Chain(filters, transforms), outputTopic, errorHandler));
    }
  }

  /** One builder call made inside a `messagePipeline { ... }` block. */
  datatype Directive =
    | ConsumeFrom(topic: string)
    | Filter(test: FilterFn)
    | Map(transform: MapFn)
    | ProduceTo(topic: string)
    | OnError(handler: Handler)

  /** Makes the builder call that `d` stands for. */
  method Perform(builder: PipelineBuilder, d: Directive)
    modifies builder
    ensures builder.inputTopic == if d.ConsumeFrom? then Some(d.topic) else old(builder.inputTopic)
    ensures builder.filters == old(builder.filters) + if d.Filter? then [d.test] else []
    ensures builder.transforms == old(builder.transforms) + if d.Map? then [d.transform] else []
    ensures builder.outputTopic == if d.ProduceTo? then Some(d.topic) else old(builder.outputTopic)
    ensures builder.errorHandler == if d.OnError? then Some(d.handler) else old(builder.errorHandler)
  {
    match d {
      case ConsumeFrom(t) => builder.ConsumeFrom(t);
      case Filter(f) => builder.Filter(f);
      case Map(g) => builder.Map(g);
      case ProduceTo(t) => builder.ProduceTo(t);
      case OnError(h) => builder.OnError(h);
    }
  }

  /** The topic of the block's last ConsumeFrom, if it has one. */
  function LastInputTopic(block: seq<Directive>): (t: Option<string>)
    ensures t.None? <==> forall i | 0 <= i < |block| :: !block[i].ConsumeFrom?
    ensures t.Some? ==> ConsumeFrom(t.value) in block
    decreases |block|
  {
    if block == [] then None
    else if block[|block| - 1].ConsumeFrom? then Some(block[|block| - 1].topic)
    else LastInputTopic(block[..|block| - 1])
  }

  /** The topic of the block's last ProduceTo, if it has one. */
  function LastOutputTopic(block: seq<Directive>): (t: Option<string>)
    ensures t.None? <==> forall i | 0 <= i < |block| :: !block[i].ProduceTo?
    ensures t.Some? ==> ProduceTo(t.value) in block
    decreases |block|
  {
    if block == [] then None
    else if block[|block| - 1].ProduceTo? then Some(block[|block| - 1].topic)
    else LastOutputTopic(block[..|block| - 1])
  }

  /** The handler of the block's last OnError, if it has one. */
  function LastHandler(block: seq<Directive>): (h: Option<Handler>)
    ensures h.None? <==> forall i | 0 <= i < |block| :: !block[i].OnError?
    ensures h.Some? ==> OnError(h.value) in block
    decreases |block|
  {
    if block == [] then None
    else if block[|block| - 1].OnError? then Some(block[|block| - 1].handler)
    else LastHandler(block[..|block| - 1])
  }

  /** The block's filters, in the order it declares them. */
  function DeclaredFilters(block: seq<Directive>): (fs: seq<FilterFn>)
    ensures |fs| <= |block|
    decreases |block|
  {
    if block == [] then []
    else DeclaredFilters(block[..|block| - 1])
         + (if block[|block| - 1].Filter? then [block[|block| - 1].test] else [])
  }

  /** The block's transforms, in the order it declares them. */
  function DeclaredTransforms(block: seq<Directive>): (ts: seq<MapFn>)
    ensures |ts| <= |block|
    decreases |block|
  {
    if block == [] then []
    else DeclaredTransforms(block[..|block| - 1])
         + (if block[|block| - 1].Map? then [block[|block| - 1].transform] else [])
  }

  /** A block is the sequence of its calls: the second half of a block
      overrides the first half's single slots where it sets them, and
      appends to its lists. */
  lemma {:induction false} BlockAppend(a: seq<Directive>, b: seq<Directive>)
    ensures LastInputTopic(a + b) == if LastInputTopic(b).Some? then LastInputTopic(b) else LastInputTopic(a)
    ensures LastOutputTopic(a + b) == if LastOutputTopic(b).Some? then LastOutputTopic(b) else LastOutputTopic(a)
    ensures LastHandler(a + b) == if LastHandler(b).Some? then LastHandler(b) else LastHandler(a)
    decreases |b|
  {
    if b == [] {
      assert a + b == a;
    } else {
      var front, d := b[..|b| - 1], b[|b| - 1];
      assert b == front + [d];
      assert a + b == (a + front) + [d];
      AppendOne(a + front, d);
      AppendOne(front, d);
      BlockAppend(a, front);
    }
  }

  /** The filters and the transforms of two blocks run one after the
      other are the first block's followed by the second's. */
  lemma {:induction false} DeclaredAppend(a: seq<Directive>, b: seq<Directive>)
    ensures DeclaredFilters(a + b) == DeclaredFilters(a) + DeclaredFilters(b)
    ensures DeclaredTransforms(a + b) == DeclaredTransforms(a) + DeclaredTransforms(b)
    decreases |b|
  {
    if b == [] {
      assert a + b == a;
    } else {
      var front, d := b[..|b| - 1], b[|b| - 1];
      assert (a + b)[..|a + b| - 1] == a + front;
      assert (a + b)[|a + b| - 1] == d;
      DeclaredAppend(a, front);
      var f := if d.Filter? then [d.test] else [];
      calc {
        DeclaredFilters(a + b);
        DeclaredFilters(a + front) + f;
        (DeclaredFilters(a) + DeclaredFilters(front)) + f;
        DeclaredFilters(a) + (DeclaredFilters(front) + f);
        DeclaredFilters(a) + DeclaredFilters(b);
      }
      var g := if d.Map? then [d.transform] else [];
      calc {
        DeclaredTransforms(a + b);
        DeclaredTransforms(a + front) + g;
        (DeclaredTransforms(a) + DeclaredTransforms(front)) + g;
        DeclaredTransforms(a) + (DeclaredTransforms(front) + g);
        DeclaredTransforms(a) + DeclaredTransforms(b);
      }
    }
  }

  /** The effect of one more call at the end of a block. */
  lemma AppendOne(block: seq<Directive>, d: Directive)
    ensures LastInputTopic(block + [d]) == if d.ConsumeFrom? then Some(d.topic) else LastInputTopic(block)
    ensures LastOutputTopic(block + [d]) == if d.ProduceTo? then Some(d.topic) else LastOutputTopic(block)
    ensures LastHandler(block + [d]) == if d.OnError? then Some(d.handler) else LastHandler(block)
    ensures DeclaredFilters(block + [d]) == DeclaredFilters(block) + if d.Filter? then [d.test] else []
    ensures DeclaredTransforms(block + [d]) == DeclaredTransforms(block) + if d.Map? then [d.transform] else []
  {
    assert (block + [d])[..|block|] == block;
  }

  /** Two blocks that leave a builder with the same settings. */
  ghost predicate SameSettings(a: seq<Directive>, b: seq<Directive>) {
    && LastInputTopic(a) == LastInputTopic(b)
    && DeclaredFilters(a) == DeclaredFilters(b)
    && DeclaredTransforms(a) == DeclaredTransforms(b)
    && LastOutputTopic(a) == LastOutputTopic(b)
    && LastHandler(a) == LastHandler(b)
  }

  lemma SameSettingsInContext(pre: seq<Directive>, a: seq<Directive>, b: seq<Directive>, post: seq<Directive>)
    requires SameSettings(a, b)
    ensures SameSettings(pre + a + post, pre + b + post)
  {
    BlockAppend(pre + a, post);
    BlockAppend(pre, a);
    BlockAppend(pre + b, post);
    BlockAppend(pre, b);
    DeclaredAppend(pre + a, post);
    DeclaredAppend(pre, a);
    DeclaredAppend(pre + b, post);
    DeclaredAppend(pre, b);
  }

  /** The builder keeps filters and transforms in two separate lists, so
      the relative order of a filter and a transform is not kept: swapping
      a transform with the filter declared right after it configures
      exactly the same pipeline, in which the filter runs first. */
  lemma KindsDoNotInterleave(pre: seq<Directive>, g: MapFn, f: FilterFn, post: seq<Directive>)
    ensures SameSettings(pre + [Map(g), Filter(f)] + post, pre + [Filter(f), Map(g)] + post)
  {
    var swapped, declared := [Map(g), Filter(f)], [Filter(f), Map(g)];
    assert swapped[..1] == [Map(g)] && declared[..1] == [Filter(f)];
    assert [Map(g)][..0] == [] && [Filter(f)][..0] == [];
    assert SameSettings(swapped, declared);
    SameSettingsInContext(pre, swapped, declared, post);
  }

  /** Runs the block's calls, in order, on a fresh builder and builds it:
      this fails exactly when the block never calls ConsumeFrom, and
      otherwise gives the last topics and handler the block set and the
      filters and transforms it declared, filters first. */
  method MessagePipeline(block: seq<Directive>) returns (r: Result<Pipeline, ConfigError>)
    ensures r.Failure? <==> forall i | 0 <= i < |block| :: !block[i].ConsumeFrom?
    ensures r.Failure? ==> r.error == IllegalArgument(MissingInputTopic)
    ensures r.Success? ==> r.value == Pipeline(LastInputTopic(block).value,
                                               Chain(DeclaredFilters(block), DeclaredTransforms(block)),
                                               LastOutputTopic(block),
                                               LastHandler(block))
  {
    var builder := new PipelineBuilder();
    for i := 0 to |block|
      invariant builder.inputTopic == LastInputTopic(block[..i])
      invariant builder.filters == DeclaredFilters(block[..i])
      invariant builder.transforms == DeclaredTransforms(block[..i])
      invariant builder.outputTopic == LastOutputTopic(block[..i])
      invariant builder.errorHandler == LastHandler(block[..i])
    {
      Perform(builder, block[i]);
      assert block[..i + 1] == block[..i] + [block[i]];
      AppendOne(block[..i], block[i]);
    }
    assert block[..|block|] == block;
    r := builder.Build();
  }
}
