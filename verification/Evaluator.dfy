// The policy evaluator: leaves, and/not/drop, the chain, and which trees Build can make.
module Evaluator {
  import opened Bytes
  import opened Records
  import opened Traces
  import opened Sampling
  import opened Latency

  // What Evaluate returns: a decision, or an error (with the decision NotSampled). An error comes
  // from a leaf, or from a compound policy that finds a drop policy inside it.
  datatype Answer = Answer(d: Decision) | LeafError | NestedDrop

  datatype Decision = NotSampled | Sampled | SampledLocal | Dropped

  // The span, resource and OTTL filters are arbitrary conditions, which may fail (None).
  datatype Leaf =
    | AlwaysSample
    | Probabilistic(seed: bv32, threshold: nat)
    | LatencyLeaf(lower: int, upper: int)
    | Filter(cond: Trace -> Condition)

  datatype Condition = Holds | HoldsNot | Fails

  datatype Policy = One(leaf: Leaf) | And(subs: seq<Policy>) | Not(sub: Policy) | Drop(subs: seq<Policy>)

  function EvalLeaf(l: Leaf, t: Trace): Answer
  {
    match l
    case AlwaysSample => Answer(SampledLocal)
    case Probabilistic(seed, threshold) =>
      if t == [] || t[0].scopes == [] || t[0].scopes[0].spans == [] then Answer(NotSampled)
      else if HashTraceId(seed, t[0].scopes[0].spans[0].tid) < threshold then Answer(SampledLocal)
      else Answer(NotSampled)
    case LatencyLeaf(lower, upper) =>
      Answer(if LatencySampled(lower, upper, Spans(t)) then Sampled else NotSampled)
    case Filter(cond) =>
      match cond(t)
      case Holds => Answer(Sampled)
      case HoldsNot => Answer(NotSampled)
      case Fails => LeafError
  }

  function Eval(p: Policy, t: Trace): Answer
    decreases p, 0
  {
    match p
    case One(leaf) => EvalLeaf(leaf, t)
    case And(subs) =>
      var a := AllMatch(subs, 0, t);
      if a.Answer? && a.d != NotSampled then Answer(Sampled) else a
    case Not(sub) =>
      var a := Eval(sub, t);
      if !a.Answer? then a
      else if a.d.NotSampled? then Answer(Sampled)
      else if a.d.Dropped? then NestedDrop
      else Answer(NotSampled)
    case Drop(subs) =>
      var a := AllMatch(subs, 0, t);
      if a.Answer? && a.d != NotSampled then Answer(Dropped) else a
  }

  // Answer(Sampled) when every sub-policy from i on matches, Answer(NotSampled) at the first that
  // does not, an error at the first that fails or drops.
  function AllMatch(subs: seq<Policy>, i: nat, t: Trace): (a: Answer)
    requires i <= |subs|
    ensures a.Answer? ==> a.d.NotSampled? || a.d.Sampled?
    decreases subs, |subs| - i
  {
    if i == |subs| then Answer(Sampled)
    else
      var a := Eval(subs[i], t);
      if !a.Answer? then a
      else if a.d.NotSampled? then a
      else if a.d.Dropped? then NestedDrop
      else AllMatch(subs, i + 1, t)
  }

  // The first answer of the chain that is not NotSampled.
  function EvalChain(chain: seq<Policy>, i: nat, t: Trace): Answer
    requires i <= |chain|
    decreases |chain| - i
  {
    if i == |chain| then Answer(NotSampled)
    else
      var a := Eval(chain[i], t);
      if a == Answer(NotSampled) then EvalChain(chain, i + 1, t) else a
  }

  // ---- Which trees exist ----

  predicate IsLeaf(p: Policy)
  {
    p.One?
  }

  // Compound policies hold leaves only.
  predicate Flat(p: Policy)
  {
    match p
    case One(_) => true
    case And(subs) => forall i :: 0 <= i < |subs| ==> IsLeaf(subs[i])
    case Not(sub) => IsLeaf(sub)
    case Drop(subs) => forall i :: 0 <= i < |subs| ==> IsLeaf(subs[i])
  }

  lemma LeafNeverDrops(p: Policy, t: Trace)
    requires IsLeaf(p)
    ensures Eval(p, t) != Answer(Dropped) && Eval(p, t) != NestedDrop
  {
  }

  lemma {:induction false} FlatMatch(subs: seq<Policy>, i: nat, t: Trace)
    requires i <= |subs| && forall j :: 0 <= j < |subs| ==> IsLeaf(subs[j])
    ensures AllMatch(subs, i, t) != NestedDrop
    decreases |subs| - i
  {
    if i < |subs| {
      LeafNeverDrops(subs[i], t);
      FlatMatch(subs, i + 1, t);
    }
  }

  // In a flat policy the errors about a nested drop policy never occur, and only a drop policy drops.
  lemma FlatNeverNests(p: Policy, t: Trace)
    requires Flat(p)
    ensures Eval(p, t) != NestedDrop
    ensures Eval(p, t) == Answer(Dropped) ==> p.Drop?
    ensures Eval(p, t) == Answer(SampledLocal) ==> p.One? && (p.leaf.AlwaysSample? || p.leaf.Probabilistic?)
  {
    match p
    case One(_) =>
    case And(subs) => FlatMatch(subs, 0, t);
    case Not(sub) => LeafNeverDrops(sub, t);
    case Drop(subs) => FlatMatch(subs, 0, t);
  }

  // ---- Building ----

  datatype Kind =
    | AlwaysSampleKind | LatencyKind | ProbabilisticKind
    | FilterKind                                    // status code, attribute, trace state/flags, OTTL
    | UnsupportedKind                               // span count, rate and byte limiting, composite
    | AndKind | NotKind | DropKind | UnknownKind

  // A policy's settings. `product` is the percentage times the scale factor; `filter` is what the constructor of a filter policy makes of its own
  // settings, None when it reports an error.
  datatype SharedCfg = SharedCfg(kind: Kind, lower: int, upper: int, seed: bv32, product: real, filter: Built<Leaf>)
  datatype PolicyCfg = PolicyCfg(shared: SharedCfg, andSubs: seq<SharedCfg>, notSub: SharedCfg, dropSubs: seq<SharedCfg>)

  datatype Built<T> = Made(value: T) | Error

  function BuildShared(cfg: SharedCfg): Built<Policy>
  {
    match cfg.kind
    case AlwaysSampleKind => Made(One(AlwaysSample))
    case LatencyKind => Made(One(LatencyLeaf(cfg.lower, cfg.upper)))
    case ProbabilisticKind => Made(One(Probabilistic(cfg.seed, Threshold(cfg.product))))
    case FilterKind => if cfg.filter.Made? then Made(One(cfg.filter.value)) else Error
    case _ => Error
  }

  predicate AllShared(cfgs: seq<SharedCfg>)
  {
    forall i :: 0 <= i < |cfgs| ==> BuildShared(cfgs[i]).Made?
  }

  // The loop of the and and drop policies.
  method BuildSubs(cfgs: seq<SharedCfg>) returns (subs: Built<seq<Policy>>)
    ensures subs.Made? <==> AllShared(cfgs)
    ensures subs.Made? ==> |subs.value| == |cfgs| && forall i :: 0 <= i < |cfgs| ==> Made(subs.value[i]) == BuildShared(cfgs[i])
  {
    var list: seq<Policy> := [];
    for i := 0 to |cfgs|
      invariant |list| == i && forall j :: 0 <= j < i ==> Made(list[j]) == BuildShared(cfgs[j])
    {
      var ev := BuildShared(cfgs[i]);
      if ev.Error? {
        return Error;
      }
      list := list + [ev.value];
    }
    subs := Made(list);
  }

  // When buildPolicy succeeds, and what it then makes.
  predicate Buildable(cfg: PolicyCfg)
  {
    match cfg.shared.kind
    case AndKind => AllShared(cfg.andSubs)
    case NotKind => BuildShared(cfg.notSub).Made?
    case DropKind => AllShared(cfg.dropSubs)
    case _ => BuildShared(cfg.shared).Made?
  }

  ghost predicate Makes(cfg: PolicyCfg, p: Policy)
  {
    match cfg.shared.kind
    case AndKind => p.And? && MadeFrom(cfg.andSubs, p.subs)
    case NotKind => p.Not? && Made(p.sub) == BuildShared(cfg.notSub)
    case DropKind => p.Drop? && MadeFrom(cfg.dropSubs, p.subs)
    case _ => Made(p) == BuildShared(cfg.shared)
  }

  ghost predicate MadeFrom(cfgs: seq<SharedCfg>, subs: seq<Policy>)
  {
    |subs| == |cfgs| && forall i :: 0 <= i < |cfgs| ==> Made(subs[i]) == BuildShared(cfgs[i])
  }

  method BuildPolicy(cfg: PolicyCfg) returns (p: Built<Policy>)
    ensures p.Made? <==> Buildable(cfg)
    ensures p.Made? ==> Makes(cfg, p.value) && Flat(p.value)
  {
    match cfg.shared.kind
    case AndKind =>
      var subs := BuildSubs(cfg.andSubs);
      p := if subs.Made? then Made(And(subs.value)) else Error;
    case NotKind =>
      var sub := BuildShared(cfg.notSub);
      p := if sub.Made? then Made(Not(sub.value)) else Error;
    case DropKind =>
      var subs := BuildSubs(cfg.dropSubs);
      p := if subs.Made? then Made(Drop(subs.value)) else Error;
    case _ =>
      p := BuildShared(cfg.shared);
  }

  predicate AllFlat(chain: seq<Policy>)
  {
    forall i :: 0 <= i < |chain| ==> Flat(chain[i])
  }

  // Build succeeds exactly when every policy can be built, keeps their order, and makes flat
  // policies only: a compound policy inside another is an error here, not at evaluation.
  method Build(cfgs: seq<PolicyCfg>) returns (chain: Built<seq<Policy>>)
    ensures chain.Made? <==> forall i :: 0 <= i < |cfgs| ==> Buildable(cfgs[i])
    ensures chain.Made? ==> |chain.value| == |cfgs| && AllFlat(chain.value)
    ensures chain.Made? ==> forall i :: 0 <= i < |cfgs| ==> Makes(cfgs[i], chain.value[i])
  {
    hide Buildable, Makes, Flat;
    var list: seq<Policy> := [];
    for i := 0 to |cfgs|
      invariant |list| == i && AllFlat(list) && forall j :: 0 <= j < i ==> Buildable(cfgs[j]) && Makes(cfgs[j], list[j])
    {
      var p := BuildPolicy(cfgs[i]);
      if p.Error? {
        return Error;
      }
      list := list + [p.value];
    }
    chain := Made(list);
  }

  // No chain that Build makes ever reports a nested drop policy.
  lemma {:induction false} BuiltNeverNests(chain: seq<Policy>, i: nat, t: Trace)
    requires i <= |chain| && AllFlat(chain)
    ensures EvalChain(chain, i, t) != NestedDrop
    decreases |chain| - i
  {
    if i < |chain| {
      FlatNeverNests(chain[i], t);
      BuiltNeverNests(chain, i + 1, t);
    }
  }

  // Where it could occur: a drop policy inside an and policy, which Build refuses.
  lemma NestingIsRefused(t: Trace)
    ensures exists p :: !Flat(p) && Eval(p, t) == NestedDrop
  {
    var inner := Drop([One(AlwaysSample)]);
    var p := And([inner]);
    assert AllMatch([One(AlwaysSample)], 1, t) == Answer(Sampled);
    assert Eval(inner, t) == Answer(Dropped);
    assert AllMatch([inner], 0, t) == NestedDrop;
    assert !Flat(p);
  }

  // ---- SampledLocal needs no broadcast ----

  // A part of trace tid that one collector holds: not empty, and its first span is of that trace.
  predicate PartOf(t: Trace, tid: TraceId)
  {
    t != [] && t[0].scopes != [] && t[0].scopes[0].spans != [] && t[0].scopes[0].spans[0].tid == tid
  }

  predicate DropFree(chain: seq<Policy>, n: nat)
  {
    n <= |chain| && forall i :: 0 <= i < n ==> !chain[i].Drop?
  }

  // Index of the policy that decides.
  function Decider(chain: seq<Policy>, i: nat, t: Trace): (k: nat)
    requires i <= |chain|
    ensures i <= k <= |chain|
    ensures EvalChain(chain, i, t) == if k < |chain| then Eval(chain[k], t) else Answer(NotSampled)
    ensures k < |chain| ==> Eval(chain[k], t) != Answer(NotSampled)
    ensures forall j :: i <= j < k ==> Eval(chain[j], t) == Answer(NotSampled)
    decreases |chain| - i
  {
    if i == |chain| || Eval(chain[i], t) != Answer(NotSampled) then i else Decider(chain, i + 1, t)
  }

  // Among the first n policies, the first to say anything about u drops it or fails.
  ghost predicate StoppedBefore(chain: seq<Policy>, n: nat, u: Trace)
    requires n <= |chain|
  {
    exists i :: 0 <= i < n && (Eval(chain[i], u) == Answer(Dropped) || !Eval(chain[i], u).Answer?)
                && forall j :: 0 <= j < i ==> Eval(chain[j], u) == Answer(NotSampled)
  }

  // If one collector gets SampledLocal for a part of a trace, from policy k, any other collector
  // gets Sampled or SampledLocal for its own part exactly when nothing before policy k drops that
  // part or fails on it. Without drop policies before k, and without errors, all agree.
  lemma LocalDecisionsAgree(chain: seq<Policy>, tid: TraceId, t: Trace, u: Trace)
    requires AllFlat(chain) && PartOf(t, tid) && PartOf(u, tid) && EvalChain(chain, 0, t) == Answer(SampledLocal)
    ensures var k := Decider(chain, 0, t); var a := EvalChain(chain, 0, u);
            && k < |chain|
            && (a == Answer(Sampled) || a == Answer(SampledLocal) <==> !StoppedBefore(chain, k, u))
            && (DropFree(chain, k) && (forall i :: 0 <= i < k ==> Eval(chain[i], u).Answer?) ==> !StoppedBefore(chain, k, u))
  {
    var k := Decider(chain, 0, t);
    FlatNeverNests(chain[k], t);
    assert Eval(chain[k], u) == Answer(SampledLocal);
    var j := Decider(chain, 0, u);
    assert j <= k;
    FlatNeverNests(chain[j], u);
    forall i | 0 <= i < k ensures Eval(chain[i], u) == Answer(Dropped) ==> chain[i].Drop? {
      FlatNeverNests(chain[i], u);
    }
    if StoppedBefore(chain, k, u) {
      var i :| 0 <= i < k && (Eval(chain[i], u) == Answer(Dropped) || !Eval(chain[i], u).Answer?)
               && forall j :: 0 <= j < i ==> Eval(chain[j], u) == Answer(NotSampled);
      assert j == i;
    }
  }

  // With a drop policy in front, one collector can drop what another samples locally: a chain that
  // Build makes from two settings, a short and a long span of one trace.
  lemma DropBreaksAgreement(tid: TraceId, short: Span, long: Span, cfgs: seq<PolicyCfg>)
    returns (chain: seq<Policy>, t: Trace, u: Trace)
    requires short.tid == long.tid == tid && short.start == long.start == 1_000_000_000
    requires short.end == 2_000_000_000 && long.end == 7_000_000_000
    requires |cfgs| == 2 && cfgs[0].shared.kind == DropKind && |cfgs[0].dropSubs| == 1 && cfgs[1].shared.kind == AlwaysSampleKind
    requires var sub := cfgs[0].dropSubs[0]; sub.kind == LatencyKind && sub.lower == 5000 && sub.upper == 0
    ensures |chain| == 2 && forall i :: 0 <= i < 2 ==> Buildable(cfgs[i]) && Makes(cfgs[i], chain[i]) && Flat(chain[i])
    ensures PartOf(t, tid) && PartOf(u, tid)
    ensures EvalChain(chain, 0, t) == Answer(SampledLocal) && EvalChain(chain, 0, u) == Answer(Dropped)
  {
    t := [ResourceSpans(map[], "", [ScopeSpans(map[], "", [short])])];
    u := [ResourceSpans(map[], "", [ScopeSpans(map[], "", [long])])];
    var slow := One(LatencyLeaf(5000, 0));
    chain := [Drop([slow]), One(AlwaysSample)];
    OneSpan(t, short);
    OneSpan(u, long);
    OneLatency(short, 1000);
    OneLatency(long, 6000);
    assert Eval(slow, u) == Answer(Sampled) && Eval(slow, t) == Answer(NotSampled);
    assert AllMatch([slow], 1, u) == Answer(Sampled);
    assert AllMatch([slow], 0, u) == Answer(Sampled);
    assert Eval(chain[0], u) == Answer(Dropped);
    assert AllMatch([slow], 0, t) == Answer(NotSampled);
    assert Eval(chain[0], t) == Answer(NotSampled);
    assert Eval(chain[1], t) == Answer(SampledLocal);
    assert EvalChain(chain, 1, t) == Answer(SampledLocal);
  }

  lemma OneSpan(t: Trace, s: Span)
    requires t == [ResourceSpans(map[], "", [ScopeSpans(map[], "", [s])])]
    ensures Spans(t) == [s]
  {
    assert t[..0] == [] && t[0].scopes[..0] == [];
    assert SpansOfScopes(t[0].scopes) == SpansOfScopes(t[0].scopes[..0]) + [s];
  }

  lemma OneLatency(s: Span, ms: int)
    requires 0 <= s.start < TWO63 && 0 <= s.end < TWO63 && Ms(s.end, s.start) == ms
    ensures LatencySampled(5000, 0, [s]) <==> ms >= 5000
  {
    hide Ms;
    var spans := [s];
    assert Extend(Window(0, 0), s) == Window(s.start, s.end);
    assert !SampledFrom(5000, 0, spans, 1, Window(s.start, s.end));
  }

  // The groups that groupByTrace makes are parts of their trace.
  lemma GroupIsPart(td: Trace, tid: TraceId)
    requires Only(td, tid) != []
    ensures PartOf(Only(td, tid), tid)
  {
    OnlyNodesFull(td, tid);
  }

  lemma {:induction false} OnlyNodesFull(td: Trace, tid: TraceId)
    ensures forall i :: 0 <= i < |Only(td, tid)| ==>
              Only(td, tid)[i].scopes != [] && forall j :: 0 <= j < |Only(td, tid)[i].scopes| ==>
                Only(td, tid)[i].scopes[j].spans != [] && AllOf(Only(td, tid)[i].scopes[j].spans, tid)
  {
    if td != [] {
      OnlyNodesFull(td[..|td| - 1], tid);
      OnlyScopesFull(td[|td| - 1].scopes, tid);
    }
  }

  predicate AllOf(spans: seq<Span>, tid: TraceId)
  {
    forall k :: 0 <= k < |spans| ==> spans[k].tid == tid
  }

  lemma {:induction false} OnlyScopesFull(scopes: seq<ScopeSpans>, tid: TraceId)
    ensures forall j :: 0 <= j < |OnlyScopes(scopes, tid)| ==>
              OnlyScopes(scopes, tid)[j].spans != [] && AllOf(OnlyScopes(scopes, tid)[j].spans, tid)
  {
    if scopes != [] {
      OnlyScopesFull(scopes[..|scopes| - 1], tid);
      OnlySpansAre(scopes[|scopes| - 1].spans, tid);
    }
  }

  lemma {:induction false} OnlySpansAre(spans: seq<Span>, tid: TraceId)
    ensures AllOf(OnlySpans(spans, tid), tid)
  {
    if spans != [] {
      OnlySpansAre(spans[..|spans| - 1], tid);
    }
  }
}
