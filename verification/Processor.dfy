// processTraces: where the spans of one call go, and what reaches the next consumer over many
// calls and the buffer's callbacks (processor.go).
module Processor {
  import opened Bytes
  import opened Records
  import opened Traces
  import opened Interest
  import opened Split
  import opened Evaluator
  import opened BufferMachine

  // Protobuf encoding and decoding, of which only this is assumed: what is encoded decodes back.
  datatype Codec = Codec(marshal: Trace -> Option<seq<byte>>, unmarshal: seq<byte> -> Option<Trace>)

  ghost predicate Inverse(k: Codec)
  {
    forall t :: k.marshal(t).Some? ==> k.unmarshal(k.marshal(t).value) == Some(t)
  }

  // The trees of the given traces, one after the other.
  function Join(td: Trace, ids: seq<TraceId>): Trace
  {
    if ids == [] then [] else Join(td, ids[..|ids| - 1]) + Only(td, ids[|ids| - 1])
  }

  // Each trace of td is listed exactly once.
  ghost predicate ListsAll(td: Trace, ids: seq<TraceId>)
  {
    && (forall i, j :: 0 <= i < j < |ids| ==> ids[i] != ids[j])
    && (forall tid :: tid in ids <==> Only(td, tid) != [])
  }

  lemma {:induction false} SpansAppend(a: Trace, b: Trace)
    ensures Spans(a + b) == Spans(a) + Spans(b)
  {
    if b == [] {
      assert a + b == a;
    } else {
      var n := |b| - 1;
      SpansAppend(a, b[..n]);
      assert (a + b)[..|a| + n] == a + b[..n];
    }
  }

  lemma {:induction false} JoinCount(td: Trace, ids: seq<TraceId>, s: Span)
    requires forall i, j :: 0 <= i < j < |ids| ==> ids[i] != ids[j]
    ensures multiset(Spans(Join(td, ids)))[s] == if s.tid in ids then multiset(Spans(td))[s] else 0
  {
    hide Spans, Only;
    if ids == [] {
      assert Spans([]) == [] by { SpansAppend([], []); NoSpans(); }
    } else {
      var n := |ids| - 1;
      JoinCount(td, ids[..n], s);
      SpansAppend(Join(td, ids[..n]), Only(td, ids[n]));
      GroupsPartitionSpans(td, ids[n], s);
      assert ids == ids[..n] + [ids[n]];
      assert s.tid in ids <==> s.tid in ids[..n] || s.tid == ids[n];
      if s.tid == ids[n] {
        assert s.tid !in ids[..n];
      }
    }
  }

  lemma NoSpans()
    ensures Spans([]) == []
  {
  }

  // The trees of all traces hold exactly the spans of the input.
  lemma JoinAll(td: Trace, ids: seq<TraceId>)
    requires ListsAll(td, ids)
    ensures multiset(Spans(Join(td, ids))) == multiset(Spans(td))
  {
    forall s ensures multiset(Spans(Join(td, ids)))[s] == multiset(Spans(td))[s] {
      JoinCount(td, ids, s);
      GroupsPartitionSpans(td, s.tid, s);
      if s in Spans(td) {
        assert Only(td, s.tid) != [];
      }
    }
  }

  // ---- The processor ----

  datatype Fate = Forwarded | Buffered | Lost

  class Processor {
    const index: InterestIndex<TraceId>
    const chain: seq<Policy>
    const coordinated: bool      // is there a coordinator to notify?
    const codec: Codec
    const config: Config
    var accepted: seq<Record>    // records the buffer took
    var refusals: nat            // how often Write returned ErrFull
    var lost: seq<TraceId>       // groups logged as dropped
    var notified: seq<TraceId>   // IDs handed to the coordinator client
    var consumed: seq<Trace>     // trees handed to the next consumer by callbacks

    constructor (index: InterestIndex<TraceId>, chain: seq<Policy>, coordinated: bool, codec: Codec, config: Config)
      requires index.Valid() && BufferMachine.Valid(config)
      ensures Ready() && this.index == index && this.chain == chain && this.codec == codec
      ensures accepted == [] && lost == [] && notified == [] && consumed == []
    {
      this.index, this.chain, this.coordinated, this.codec, this.config := index, chain, coordinated, codec, config;
      accepted, refusals, lost, notified, consumed := [], 0, [], [], [];
    }

    ghost predicate Ready()
      reads this, index, index.clock, index.list
    {
      index.Valid() && BufferMachine.Valid(config)
    }

    // Buffer.Write: refused when the record needs more pages than there are, or the channel is full.
    method Store(r: Record) returns (ok: bool)
      requires BufferMachine.Valid(config)
      modifies this`accepted, this`refusals
      ensures !Fits(config, r) ==> !ok
      ensures accepted == if ok then old(accepted) + [r] else old(accepted)
      ensures refusals == if ok then old(refusals) else old(refusals) + 1
    {
      var full: bool := *;
      ok := Fits(config, r) && !full;
      if ok {
        accepted := accepted + [r];
      } else {
        refusals := refusals + 1;
      }
    }

    // What one group comes to, with the record it becomes if it is buffered.
    ghost predicate Result(tid: TraceId, group: Trace, now: int, fate: Fate, before: seq<Record>, after: seq<Record>)
      reads this
    {
      match fate
      case Forwarded => after == before
      case Lost => after == before
      case Buffered => codec.marshal(group).Some? && after == before + [Record(tid, now, codec.marshal(group).value)]
    }

    // One group. A trace with a standing decision goes on at once; a sampled one goes on and is
    // remembered, and is announced unless the decision is local; anything else, including a
    // dropped trace and one whose evaluation failed, is buffered.
    method HandleGroup(tid: TraceId, group: Trace, now: int) returns (fate: Fate)
      requires Ready()
      modifies this`accepted, this`refusals, this`lost, this`notified, index, index.list, index.clock
      ensures Ready() && forall e :: e in index.list ==> e in old(index.list) || fresh(e)
      ensures old(index.clock.now) <= index.clock.now
      ensures Result(tid, group, now, fate, old(accepted), accepted)
      ensures lost == if fate.Lost? then old(lost) + [tid] else old(lost)
      ensures var a := EvalChain(chain, 0, group);
              && (a == Answer(Sampled) || a == Answer(SampledLocal) ==> fate.Forwarded?)
              && (notified != old(notified) ==> coordinated && a == Answer(Sampled) && notified == old(notified) + [tid])
      ensures var a := EvalChain(chain, 0, group);
              && (!Has(old(index.times), tid, old(index.clock.now), index.wait) && coordinated && a == Answer(Sampled) ==>
                    notified == old(notified) + [tid])
              && (fate.Forwarded? && a != Answer(Sampled) && a != Answer(SampledLocal) ==>
                    Has(old(index.times), tid, old(index.clock.now), index.wait))
      ensures Has(old(index.times), tid, index.clock.now, index.wait) ==> fate.Forwarded? && index.times == old(index.times)
      ensures if fate.Forwarded? then tid in index.times else index.times == old(index.times)
      ensures fate.Forwarded? && !Has(old(index.times), tid, old(index.clock.now), index.wait) ==>
                index.times[tid] == index.clock.now
      ensures fate.Lost? ==> codec.marshal(group).None? || refusals == old(refusals) + 1
      ensures !fate.Lost? ==> refusals == old(refusals)
    {
      hide Listed, EvalChain;
      var known := index.HasInterest(tid);
      if known {
        return Forwarded;
      }
      var answer := EvalChain(chain, 0, group);
      if answer == Answer(Sampled) {
        ghost var t := index.AddInterest(tid);
        if coordinated {
          notified := notified + [tid];
        }
        return Forwarded;
      }
      if answer == Answer(SampledLocal) {
        ghost var t := index.AddInterest(tid);
        return Forwarded;
      }
      var data := codec.marshal(group);
      if data.None? {
        lost := lost + [tid];
        return Lost;
      }
      var ok := Store(Record(tid, now, data.value));
      if ok {
        return Buffered;
      }
      lost := lost + [tid];
      fate := Lost;
    }

    // One call so far: `out` is what is forwarded, in the order the groups were taken, and the
    // records accepted are those of the buffered groups, in that order.
    ghost predicate Routed(td: Trace, out: Trace, r: Routing, now: int, accepted0: seq<Record>, lost0: seq<TraceId>)
      reads this`accepted, this`lost
    {
      && out == Join(td, r.forwarded) && lost == lost0 + r.dropped
      && Encodable(codec, td, r.buffered) && accepted == accepted0 + RecordsOf(codec, td, r.buffered, now)
    }

    method RouteGroup(ghost td: Trace, tid: TraceId, group: Trace, now: int, out0: Trace, r0: Routing,
                      ghost accepted0: seq<Record>, ghost lost0: seq<TraceId>)
      returns (out: Trace, r: Routing)
      requires Ready() && group == Only(td, tid) && Routed(td, out0, r0, now, accepted0, lost0)
      modifies this`accepted, this`refusals, this`lost, this`notified, index, index.list, index.clock
      ensures Ready() && old(index.clock.now) <= index.clock.now
      ensures forall e :: e in index.list ==> e in old(index.list) || fresh(e)
      ensures Routed(td, out, r, now, accepted0, lost0) && Added(r0, r, tid)
    {
      hide Listed, EvalChain, Only, Spans, BufferMachine.Valid;
      var fate := HandleGroup(tid, group, now);
      match fate
      case Forwarded =>
        JoinMore(td, r0.forwarded, tid);
        out, r := out0 + group, r0.(forwarded := r0.forwarded + [tid]);
      case Buffered =>
        RecordsMore(codec, td, r0.buffered, tid, now);
        out, r := out0, r0.(buffered := r0.buffered + [tid]);
      case Lost =>
        out, r := out0, r0.(dropped := r0.dropped + [tid]);
    }

    // The loop over the groups, in any order.
    method RouteAll(ghost td: Trace, trees: map<TraceId, Trace>, now: int) returns (out: Trace, r: Routing)
      requires Ready() && forall tid :: tid in trees ==> trees[tid] == Only(td, tid)
      modifies this`accepted, this`refusals, this`lost, this`notified, index, index.list, index.clock
      ensures Ready() && old(index.clock.now) <= index.clock.now
      ensures ListsOnly(trees.Keys, r.All()) && Routed(td, out, r, now, old(accepted), old(lost))
    {
      hide Ready, Only, Routed, ListsOnly, Added;
      out, r := [], Routing([], [], []);
      RoutedNone(td, now);
      var rest := trees.Keys;
      NoIds(trees.Keys);
      while rest != {}
        invariant Ready() && old(index.clock.now) <= index.clock.now
        invariant forall e :: e in index.list ==> e in old(index.list) || fresh(e)
        invariant rest <= trees.Keys && ListsOnly(trees.Keys - rest, r.All())
        invariant Routed(td, out, r, now, old(accepted), old(lost))
        decreases rest
      {
        var tid :| tid in rest;
        ghost var before := r;
        assert forall k :: 0 <= k < |index.list| ==> fresh(index.list[k]) || index.list[k] in old(index.list);
        out, r := RouteGroup(td, tid, trees[tid], now, out, r, old(accepted), old(lost));
        ListsMore(trees.Keys, rest, tid, before, r);
        rest := rest - {tid};
      }
      assert trees.Keys - {} == trees.Keys;
    }

    // One call: every group goes to exactly one place.
    method ProcessTraces(td: Trace) returns (out: Trace, skip: bool, now: int, r: Routing)
      requires Ready()
      modifies this`accepted, this`refusals, this`lost, this`notified, index, index.list, index.clock
      ensures Ready() && old(index.clock.now) <= now <= index.clock.now
      ensures ListsAll(td, r.All())
      ensures Routed(td, out, r, now, old(accepted), old(lost))
      ensures skip <==> r.forwarded == []
    {
      hide Listed, Only, Spans, BufferMachine.Valid, Routed, ListsOnly;
      var groups := Split.GroupByTrace(td);
      var trees := map tid | tid in groups :: groups[tid].View();
      now := index.clock.Read();
      out, r := RouteAll(td, trees, now);
      AllListed(td, trees.Keys, r);
      skip := |Spans(out)| == 0;
      JoinEmpty(td, r.forwarded);
      JoinedOut(td, out, r, now, old(accepted), old(lost));
    }

    // The buffer's callback: what decodes goes on, anything else is only logged.
    method OnMatch(data: seq<byte>)
      modifies this`consumed
      ensures consumed == old(consumed) + (if codec.unmarshal(data).Some? then [codec.unmarshal(data).value] else [])
    {
      var t := codec.unmarshal(data);
      if t.Some? {
        consumed := consumed + [t.value];
      }
    }

    // The coordinator's decision: remembered as of now, so that the trace is known until a window later.
    method OnDecision(tid: TraceId)
      requires Ready()
      modifies index, index.list, index.clock
      ensures Ready() && old(index.clock.now) <= index.clock.now
      ensures Has(index.times, tid, index.clock.now, index.wait)
      ensures HasForSpan(index.times, tid, old(index.clock.now), index.wait) <==> index.clock.now < old(index.clock.now) + index.wait
    {
      hide Listed;
      ghost var t := index.AddInterest(tid);
    }

    lemma RoutedNone(td: Trace, now: int)
      ensures Routed(td, [], Routing([], [], []), now, accepted, lost)
    {
      assert accepted + [] == accepted && lost + [] == lost;
    }

    lemma JoinedOut(td: Trace, out: Trace, r: Routing, now: int, accepted0: seq<Record>, lost0: seq<TraceId>)
      requires Routed(td, out, r, now, accepted0, lost0)
      ensures out == Join(td, r.forwarded)
    {
    }
  }

  // Which groups of a call went where, in the order they were taken.
  datatype Routing = Routing(forwarded: seq<TraceId>, buffered: seq<TraceId>, dropped: seq<TraceId>) {
    function All(): seq<TraceId>
    {
      forwarded + buffered + dropped
    }
  }

  predicate Added(r: Routing, r': Routing, tid: TraceId)
  {
    || r' == r.(forwarded := r.forwarded + [tid])
    || r' == r.(buffered := r.buffered + [tid])
    || r' == r.(dropped := r.dropped + [tid])
  }

  // ---- Lists of trace IDs ----

  ghost predicate ListsOnly(all: set<TraceId>, ids: seq<TraceId>)
  {
    && (forall i, j :: 0 <= i < j < |ids| ==> ids[i] != ids[j])
    && (forall tid :: tid in ids <==> tid in all)
  }

  lemma NoIds(keys: set<TraceId>)
    ensures ListsOnly(keys - keys, Routing([], [], []).All())
  {
  }

  lemma ListsMore(keys: set<TraceId>, rest: set<TraceId>, tid: TraceId, r: Routing, r': Routing)
    requires rest <= keys && tid in rest && ListsOnly(keys - rest, r.All()) && Added(r, r', tid)
    ensures ListsOnly(keys - (rest - {tid}), r'.All())
  {
    var a, b, c := r.forwarded, r.buffered, r.dropped;
    assert a + (b + c) == a + b + c;
    assert a + b + c + [] == a + b + c;
    InsertId(keys - rest, a, b + c, tid);
    InsertId(keys - rest, a + b, c, tid);
    InsertId(keys - rest, a + b + c, [], tid);
    hide ListsOnly;
    assert keys - (rest - {tid}) == keys - rest + {tid};
    assert a + [tid] + (b + c) == a + [tid] + b + c;
    assert a + b + [tid] + c == a + (b + [tid]) + c;
    assert a + b + c + [tid] + [] == a + b + (c + [tid]);
  }

  lemma AllListed(td: Trace, keys: set<TraceId>, r: Routing)
    requires ListsOnly(keys, r.All()) && forall tid :: tid in keys <==> Only(td, tid) != []
    ensures ListsAll(td, r.All())
    ensures forall tid :: tid in r.forwarded ==> Only(td, tid) != []
  {
    hide Only;
    forall tid | tid in r.forwarded ensures Only(td, tid) != [] {
      assert tid in r.All();
    }
  }

  lemma InsertId(all: set<TraceId>, x: seq<TraceId>, y: seq<TraceId>, tid: TraceId)
    requires ListsOnly(all, x + y) && tid !in all
    ensures ListsOnly(all + {tid}, x + [tid] + y)
  {
    var s, s' := x + y, x + [tid] + y;
    forall i | 0 <= i < |s'| ensures s'[i] == if i < |x| then s[i] else if i == |x| then tid else s[i - 1] {
    }
    forall i, j | 0 <= i < j < |s'| ensures s'[i] != s'[j] {
      if i == |x| {
        assert s'[j] == s[j - 1] && s[j - 1] in s;
      } else if j == |x| {
        assert s'[i] == s[i] && s[i] in s;
      } else {
        var m, n := if i < |x| then i else i - 1, if j < |x| then j else j - 1;
        assert s'[i] == s[m] && s'[j] == s[n] && m < n;
      }
    }
    forall u ensures u in s' <==> u in s || u == tid {
      assert u in s <==> u in x || u in y;
    }
  }

  lemma JoinMore(td: Trace, ids: seq<TraceId>, tid: TraceId)
    ensures Join(td, ids + [tid]) == Join(td, ids) + Only(td, tid)
  {
    assert (ids + [tid])[..|ids|] == ids;
  }

  lemma JoinEmpty(td: Trace, ids: seq<TraceId>)
    requires forall tid :: tid in ids ==> Only(td, tid) != []
    ensures |Spans(Join(td, ids))| == 0 <==> ids == []
  {
    if ids == [] {
      NoSpans();
    } else {
      var n := |ids| - 1;
      SpansAppend(Join(td, ids[..n]), Only(td, ids[n]));
      assert ids[n] in ids;
      SpansOfOnly(td, ids[n]);
    }
  }

  // ---- The records of buffered groups ----

  ghost predicate Encodable(k: Codec, td: Trace, ids: seq<TraceId>)
  {
    forall tid :: tid in ids ==> k.marshal(Only(td, tid)).Some?
  }

  function RecordOf(k: Codec, td: Trace, tid: TraceId, now: int): Record
  {
    var data := k.marshal(Only(td, tid));
    Record(tid, now, if data.Some? then data.value else [])
  }

  function RecordsOf(k: Codec, td: Trace, ids: seq<TraceId>, now: int): seq<Record>
  {
    if ids == [] then [] else RecordsOf(k, td, ids[..|ids| - 1], now) + [RecordOf(k, td, ids[|ids| - 1], now)]
  }

  lemma RecordsMore(k: Codec, td: Trace, ids: seq<TraceId>, tid: TraceId, now: int)
    ensures RecordsOf(k, td, ids + [tid], now) == RecordsOf(k, td, ids, now) + [RecordOf(k, td, tid, now)]
  {
    assert (ids + [tid])[..|ids|] == ids;
  }
}
