/** The per-message stage chain: the filter and map steps a pipeline
    applies, in order, to each message it receives
    (pipeline/Pipeline.kt, dsl/PipelineBuilder.kt). */
module Stages {
  import opened Messages

  /** What a thrown exception leaves behind: its message text. */
  datatype Throwable = Throwable(message: string)

  /** The result of calling a user lambda: it returns a value or it throws. */
  datatype Eval<+T> = Returned(value: T) | Raised(failure: Throwable)

  /** A `filter { ... }` lambda: keep the message or not, or throw. */
  type FilterFn = Message -> Eval<bool>

  /** A `map { ... }` lambda: the transformed message, or throw. */
  type MapFn = Message -> Eval<Message>

  /** One operation of a pipeline, restricted to the two per-message
      kinds the builder declares. */
  datatype Stage = Filtering(test: FilterFn) | Mapping(transform: MapFn)

  /** What the chain makes of one message: a surviving (possibly
      transformed) message, a rejection by a filter, or a failure. */
  datatype Outcome = Passed(msg: Message) | Rejected | Failed(failure: Throwable)

  /** One stage applied to one message. */
  function Step(s: Stage, m: Message): Outcome {
    match s
    case Filtering(p) =>
      (match p(m)
       case Returned(keep) => if keep then Passed(m) else Rejected
       case Raised(e) => Failed(e))
    case Mapping(f) =>
      (match f(m)
       case Returned(m') => Passed(m')
       case Raised(e) => Failed(e))
  }

  /** The chain applied to one message: each stage receives the output of
      the one before it, and the first rejection or failure ends the chain. */
  function RunChain(chain: seq<Stage>, m: Message): (o: Outcome)
    ensures chain == [] ==> o == Passed(m)
    ensures (forall i | 0 <= i < |chain| :: chain[i].Mapping?) ==> !o.Rejected?
    ensures (forall i | 0 <= i < |chain| :: chain[i].Filtering?) && o.Passed? ==> o.msg == m
    decreases |chain|
  {
    if chain == [] then Passed(m)
    else
      match Step(chain[0], m)
      case Passed(m') => RunChain(chain[1..], m')
      case Rejected => Rejected
      case Failed(e) => Failed(e)
  }

  /** Continues a partial outcome with the rest of a chain. */
  function Then(o: Outcome, rest: seq<Stage>): Outcome {
    match o
    case Passed(m) => RunChain(rest, m)
    case _ => o
  }

  /** The number of stages of `chain` that are evaluated for `m`. */
  function Invocations(chain: seq<Stage>, m: Message): (n: nat)
    ensures n <= |chain|
    ensures RunChain(chain, m).Passed? ==> n == |chain|
    ensures chain != [] ==> 0 < n
    decreases |chain|
  {
    if chain == [] then 0
    else
      match Step(chain[0], m)
      case Passed(m') => 1 + Invocations(chain[1..], m')
      case _ => 1
  }

  /** Running two chains one after the other is running their
      concatenation. */
  lemma {:induction false} RunChainAppend(a: seq<Stage>, b: seq<Stage>, m: Message)
    ensures RunChain(a + b, m) == Then(RunChain(a, m), b)
    decreases |a|
  {
    if a == [] {
      assert a + b == b;
    } else {
      assert (a + b)[0] == a[0];
      assert (a + b)[1..] == a[1..] + b;
      match Step(a[0], m)
      case Passed(m') => RunChainAppend(a[1..], b, m');
      case Rejected =>
      case Failed(e) =>
    }
  }

  /** The fold of Pipeline.start: appending a stage applies it to whatever
      the chain so far produced, so a chain computes op_n(...op_1(m)). */
  lemma RunChainFold(chain: seq<Stage>, s: Stage, m: Message)
    ensures RunChain(chain + [s], m)
         == match RunChain(chain, m)
            case Passed(m') => Step(s, m')
            case o => o
  {
    RunChainAppend(chain, [s], m);
  }

  /** A stage that rejects or fails ends the chain: the stages after it are
      never evaluated and do not affect the outcome. */
  lemma {:induction false} ShortCircuit(pre: seq<Stage>, s: Stage, post: seq<Stage>, m: Message)
    requires RunChain(pre, m).Passed?
    requires !Step(s, RunChain(pre, m).msg).Passed?
    ensures RunChain(pre + [s] + post, m) == Step(s, RunChain(pre, m).msg)
    ensures Invocations(pre + [s] + post, m) == |pre| + 1
    decreases |pre|
  {
    var chain := pre + [s] + post;
    if pre == [] {
      assert chain == [s] + post;
      assert chain[0] == s;
    } else {
      assert chain[0] == pre[0];
      assert chain[1..] == pre[1..] + [s] + post;
      var m' := Step(pre[0], m).msg;
      ShortCircuit(pre[1..], s, post, m');
    }
  }

  /** The filter stages of a list of filter lambdas, in order. */
  function Filterings(filters: seq<FilterFn>): seq<Stage>
    decreases |filters|
  {
    if filters == [] then [] else [Filtering(filters[0])] + Filterings(filters[1..])
  }

  /** The map stages of a list of transform lambdas, in order. */
  function Mappings(transforms: seq<MapFn>): seq<Stage>
    decreases |transforms|
  {
    if transforms == [] then [] else [Mapping(transforms[0])] + Mappings(transforms[1..])
  }

  /** The one ordered chain built from the builder's two lists: every
      filter in declaration order, then every transform in declaration
      order. */
  function Chain(filters: seq<FilterFn>, transforms: seq<MapFn>): (c: seq<Stage>)
    ensures |c| == |filters| + |transforms|
    ensures forall i | 0 <= i < |c| :: c[i].Filtering? <==> i < |filters|
  {
    FilteringsShape(filters);
    MappingsShape(transforms);
    Filterings(filters) + Mappings(transforms)
  }

  lemma {:induction false} FilteringsShape(filters: seq<FilterFn>)
    ensures |Filterings(filters)| == |filters|
    ensures forall i | 0 <= i < |filters| :: Filterings(filters)[i] == Filtering(filters[i])
    decreases |filters|
  {
    if filters != [] {
      FilteringsShape(filters[1..]);
    }
  }

  lemma {:induction false} MappingsShape(transforms: seq<MapFn>)
    ensures |Mappings(transforms)| == |transforms|
    ensures forall i | 0 <= i < |transforms| :: Mappings(transforms)[i] == Mapping(transforms[i])
    decreases |transforms|
  {
    if transforms != [] {
      MappingsShape(transforms[1..]);
    }
  }

  /** The filter lambdas of a chain, in chain order. */
  function FiltersOf(chain: seq<Stage>): seq<FilterFn>
    decreases |chain|
  {
    if chain == [] then []
    else (if chain[0].Filtering? then [chain[0].test] else []) + FiltersOf(chain[1..])
  }

  /** The transform lambdas of a chain, in chain order. */
  function MapsOf(chain: seq<Stage>): seq<MapFn>
    decreases |chain|
  {
    if chain == [] then []
    else (if chain[0].Mapping? then [chain[0].transform] else []) + MapsOf(chain[1..])
  }

  lemma {:induction false} FiltersOfAppend(a: seq<Stage>, b: seq<Stage>)
    ensures FiltersOf(a + b) == FiltersOf(a) + FiltersOf(b)
    decreases |a|
  {
    if a == [] {
      assert a + b == b;
    } else {
      var head := if a[0].Filtering? then [a[0].test] else [];
      assert (a + b)[0] == a[0];
      assert (a + b)[1..] == a[1..] + b;
      FiltersOfAppend(a[1..], b);
      calc {
        FiltersOf(a + b);
        head + FiltersOf(a[1..] + b);
        head + (FiltersOf(a[1..]) + FiltersOf(b));
        (head + FiltersOf(a[1..])) + FiltersOf(b);
        FiltersOf(a) + FiltersOf(b);
      }
    }
  }

  lemma {:induction false} MapsOfAppend(a: seq<Stage>, b: seq<Stage>)
    ensures MapsOf(a + b) == MapsOf(a) + MapsOf(b)
    decreases |a|
  {
    if a == [] {
      assert a + b == b;
    } else {
      var head := if a[0].Mapping? then [a[0].transform] else [];
      assert (a + b)[0] == a[0];
      assert (a + b)[1..] == a[1..] + b;
      MapsOfAppend(a[1..], b);
      calc {
        MapsOf(a + b);
        head + MapsOf(a[1..] + b);
        head + (MapsOf(a[1..]) + MapsOf(b));
        (head + MapsOf(a[1..])) + MapsOf(b);
        MapsOf(a) + MapsOf(b);
      }
    }
  }

  lemma {:induction false} FilteringsOf(filters: seq<FilterFn>)
    ensures FiltersOf(Filterings(filters)) == filters
    ensures MapsOf(Filterings(filters)) == []
    decreases |filters|
  {
    if filters != [] {
      FilteringsOf(filters[1..]);
      assert filters == [filters[0]] + filters[1..];
    }
  }

  lemma {:induction false} MappingsOf(transforms: seq<MapFn>)
    ensures FiltersOf(Mappings(transforms)) == []
    ensures MapsOf(Mappings(transforms)) == transforms
    decreases |transforms|
  {
    if transforms != [] {
      MappingsOf(transforms[1..]);
      assert transforms == [transforms[0]] + transforms[1..];
    }
  }

  /** Nothing is lost in merging the two lists: both can be read back
      from the chain, in their declaration order. */
  lemma ChainRoundTrip(filters: seq<FilterFn>, transforms: seq<MapFn>)
    ensures FiltersOf(Chain(filters, transforms)) == filters
    ensures MapsOf(Chain(filters, transforms)) == transforms
  {
    FiltersOfAppend(Filterings(filters), Mappings(transforms));
    MapsOfAppend(Filterings(filters), Mappings(transforms));
    FilteringsOf(filters);
    MappingsOf(transforms);
  }

  /** A two-list executor's first phase: every filter, in order, on the
      original message. */
  function RunFilters(filters: seq<FilterFn>, m: Message): (o: Outcome)
    ensures o.Passed? ==> o.msg == m
    decreases |filters|
  {
    if filters == [] then Passed(m)
    else
      match filters[0](m)
      case Returned(keep) => if keep then RunFilters(filters[1..], m) else Rejected
      case Raised(e) => Failed(e)
  }

  /** A two-list executor's second phase: every transform, in order, each
      on the output of the one before. */
  function RunTransforms(transforms: seq<MapFn>, m: Message): (o: Outcome)
    ensures !o.Rejected?
    decreases |transforms|
  {
    if transforms == [] then Passed(m)
    else
      match transforms[0](m)
      case Returned(m') => RunTransforms(transforms[1..], m')
      case Raised(e) => Failed(e)
  }

  lemma {:induction false} FilteringsRun(filters: seq<FilterFn>, m: Message)
    ensures RunChain(Filterings(filters), m) == RunFilters(filters, m)
    decreases |filters|
  {
    if filters != [] {
      FilteringsRun(filters[1..], m);
    }
  }

  lemma {:induction false} MappingsRun(transforms: seq<MapFn>, m: Message)
    ensures RunChain(Mappings(transforms), m) == RunTransforms(transforms, m)
    decreases |transforms|
  {
    if transforms != [] {
      match transforms[0](m)
      case Returned(m') => MappingsRun(transforms[1..], m');
      case Raised(e) =>
    }
  }

  /** The merged chain behaves as an executor that keeps the builder's two
      lists apart: all filters on the original message, then, if none
      rejected or failed, all transforms. */
  lemma ChainIsFiltersThenTransforms(filters: seq<FilterFn>, transforms: seq<MapFn>, m: Message)
    ensures RunChain(Chain(filters, transforms), m)
         == match RunFilters(filters, m)
            case Passed(_) => RunTransforms(transforms, m)
            case o => o
  {
    RunChainAppend(Filterings(filters), Mappings(transforms), m);
    FilteringsRun(filters, m);
    MappingsRun(transforms, m);
  }
}
