// From the receiver to the next consumer: processTraces and the buffer together.
module EndToEnd {
  import opened Records
  import opened Traces
  import opened BufferMachine
  import opened BufferRing
  import opened BufferInvariant
  import opened BufferAccounts
  import opened BufferOrder
  import opened BufferEvidence
  import opened BufferWakeups
  import opened BufferTheorems
  import opened Processor

  // The spans that a buffered record decodes to.
  function SpansOfRecord(k: Codec, r: Record): seq<Span>
  {
    var t := k.unmarshal(r.data);
    if t.Some? then Spans(t.value) else []
  }

  function SpansOfRecords(k: Codec, rs: seq<Record>): seq<Span>
  {
    if rs == [] then [] else SpansOfRecords(k, rs[..|rs| - 1]) + SpansOfRecord(k, rs[|rs| - 1])
  }

  lemma {:induction false} JoinAppend(td: Trace, a: seq<TraceId>, b: seq<TraceId>)
    ensures Spans(Join(td, a + b)) == Spans(Join(td, a)) + Spans(Join(td, b))
  {
    hide Spans, Only;
    if b == [] {
      assert a + b == a;
      NoSpans();
    } else {
      var n := |b| - 1;
      JoinAppend(td, a, b[..n]);
      assert (a + b)[..|a| + n] == a + b[..n];
      SpansAppend(Join(td, a + b[..n]), Only(td, b[n]));
      SpansAppend(Join(td, b[..n]), Only(td, b[n]));
    }
  }

  // Buffered records decode to the spans of their groups.
  lemma {:induction false} RecordsDecode(k: Codec, td: Trace, ids: seq<TraceId>, now: int)
    requires Inverse(k) && Encodable(k, td, ids)
    ensures SpansOfRecords(k, RecordsOf(k, td, ids, now)) == Spans(Join(td, ids))
  {
    hide Spans, Only;
    if ids == [] {
      NoSpans();
    } else {
      var n := |ids| - 1;
      assert ids[n] in ids;
      assert forall tid :: tid in ids[..n] ==> tid in ids;
      RecordsDecode(k, td, ids[..n], now);
      SpansAppend(Join(td, ids[..n]), Only(td, ids[n]));
      var rs := RecordsOf(k, td, ids, now);
      assert rs[..|rs| - 1] == RecordsOf(k, td, ids[..n], now);
      assert k.marshal(Only(td, ids[n])).Some?;
    }
  }

  // Every input span of a call is in exactly one of: the forwarded tree, one accepted record, or
  // a group logged as lost.
  lemma CallConserves(k: Codec, td: Trace, r: Routing, now: int)
    requires Inverse(k) && ListsAll(td, r.All()) && Encodable(k, td, r.buffered)
    ensures multiset(Spans(Join(td, r.forwarded))) + multiset(SpansOfRecords(k, RecordsOf(k, td, r.buffered, now)))
            + multiset(Spans(Join(td, r.dropped))) == multiset(Spans(td))
  {
    hide Spans, Only, Join, RecordsOf, SpansOfRecords;
    JoinAll(td, r.All());
    JoinAppend(td, r.forwarded + r.buffered, r.dropped);
    JoinAppend(td, r.forwarded, r.buffered);
    RecordsDecode(k, td, r.buffered, now);
  }

  // ---- Many calls ----

  datatype Call = Call(td: Trace, r: Routing, now: int)

  ghost predicate GoodCall(k: Codec, call: Call)
  {
    ListsAll(call.td, call.r.All()) && Encodable(k, call.td, call.r.buffered)
  }

  function Input(calls: seq<Call>): seq<Span>
  {
    if calls == [] then [] else Input(calls[..|calls| - 1]) + Spans(calls[|calls| - 1].td)
  }

  // What processTraces hands to the next consumer.
  function Forwards(calls: seq<Call>): seq<Span>
  {
    if calls == [] then []
    else
      var call := calls[|calls| - 1];
      Forwards(calls[..|calls| - 1]) + Spans(Join(call.td, call.r.forwarded))
  }

  // What processTraces puts into the buffer.
  function Stored(k: Codec, calls: seq<Call>): seq<Record>
  {
    if calls == [] then []
    else
      var call := calls[|calls| - 1];
      Stored(k, calls[..|calls| - 1]) + RecordsOf(k, call.td, call.r.buffered, call.now)
  }

  lemma {:induction false} SpansOfRecordsAppend(k: Codec, a: seq<Record>, b: seq<Record>)
    ensures SpansOfRecords(k, a + b) == SpansOfRecords(k, a) + SpansOfRecords(k, b)
  {
    hide SpansOfRecord;
    if b == [] {
      assert a + b == a;
    } else {
      var n := |b| - 1;
      SpansOfRecordsAppend(k, a, b[..n]);
      assert (a + b)[..|a| + n] == a + b[..n];
    }
  }

  lemma AddUp(a: multiset<Span>, b: multiset<Span>, i: multiset<Span>,
              f: multiset<Span>, x: multiset<Span>, d: multiset<Span>, t: multiset<Span>)
    requires a + b <= i && f + x + d == t
    ensures (a + f) + (b + x) <= i + t
  {
  }

  lemma LastCall(k: Codec, calls: seq<Call>)
    requires calls != []
    ensures var n := |calls| - 1; var call := calls[n];
            && Forwards(calls) == Forwards(calls[..n]) + Spans(Join(call.td, call.r.forwarded))
            && Stored(k, calls) == Stored(k, calls[..n]) + RecordsOf(k, call.td, call.r.buffered, call.now)
            && Input(calls) == Input(calls[..n]) + Spans(call.td)
  {
    hide Spans, Join, RecordsOf;
  }

  lemma {:induction false} CallsConserve(k: Codec, calls: seq<Call>)
    requires Inverse(k) && forall i :: 0 <= i < |calls| ==> GoodCall(k, calls[i])
    ensures multiset(Forwards(calls)) + multiset(SpansOfRecords(k, Stored(k, calls))) <= multiset(Input(calls))
  {
    if calls != [] {
      hide *;
      var n := |calls| - 1;
      CallsConserve(k, calls[..n]);
      LastCall(k, calls);
      OneMoreCall(k, calls[n], Forwards(calls[..n]), Stored(k, calls[..n]), Input(calls[..n]));
    }
  }

  lemma OneMoreCall(k: Codec, call: Call, forwards: seq<Span>, stored: seq<Record>, input: seq<Span>)
    requires Inverse(k) && GoodCall(k, call)
    requires multiset(forwards) + multiset(SpansOfRecords(k, stored)) <= multiset(input)
    ensures multiset(forwards + Spans(Join(call.td, call.r.forwarded)))
            + multiset(SpansOfRecords(k, stored + RecordsOf(k, call.td, call.r.buffered, call.now)))
         <= multiset(input + Spans(call.td))
  {
    hide Spans, Join, RecordsOf, SpansOfRecords, ListsAll, Encodable, Inverse;
    CallConserves(k, call.td, call.r, call.now);
    var records := RecordsOf(k, call.td, call.r.buffered, call.now);
    SpansOfRecordsAppend(k, stored, records);
    AddUp(multiset(forwards), multiset(SpansOfRecords(k, stored)), multiset(input),
          multiset(Spans(Join(call.td, call.r.forwarded))), multiset(SpansOfRecords(k, records)),
          multiset(Spans(Join(call.td, call.r.dropped))), multiset(Spans(call.td)));
  }

  // ---- What the buffer's callbacks hand to the next consumer ----

  function Deliveries(k: Codec, resolved: seq<Resolution>): seq<Span>
  {
    if resolved == [] then []
    else
      var x := resolved[|resolved| - 1];
      Deliveries(k, resolved[..|resolved| - 1])
      + (if x.out.Delivered? then
           var t := k.unmarshal(x.out.payload);
           if t.Some? then Spans(t.value) else []
         else [])
  }

  function DeliveredTags(resolved: seq<Resolution>): seq<Tagged>
  {
    if resolved == [] then []
    else
      var x := resolved[|resolved| - 1];
      DeliveredTags(resolved[..|resolved| - 1]) + (if x.out.Delivered? then [x.rec] else [])
  }

  lemma {:induction false} DeliveriesDecode(k: Codec, resolved: seq<Resolution>)
    requires forall i :: 0 <= i < |resolved| && resolved[i].out.Delivered? ==> resolved[i].out.payload == resolved[i].rec.rec.data
    ensures Deliveries(k, resolved) == SpansOfRecords(k, Recs(DeliveredTags(resolved)))
  {
    hide Spans;
    if resolved != [] {
      var n := |resolved| - 1;
      DeliveriesDecode(k, resolved[..n]);
      var front, x := DeliveredTags(resolved[..n]), resolved[n];
      if x.out.Delivered? {
        assert Recs(front + [x.rec]) == Recs(front) + [x.rec.rec];
        SpansOfRecordsAppend(k, Recs(front), [x.rec.rec]);
        assert SpansOfRecords(k, [x.rec.rec]) == SpansOfRecords(k, []) + SpansOfRecord(k, x.rec.rec);
      } else {
        assert front + [] == front;
      }
    }
  }

  lemma {:induction false} DeliveredWithin(resolved: seq<Resolution>)
    ensures multiset(DeliveredTags(resolved)) <= multiset(Tags(resolved))
  {
    if resolved != [] {
      var n := |resolved| - 1;
      DeliveredWithin(resolved[..n]);
      assert Tags(resolved) == Tags(resolved[..n]) + [resolved[n].rec];
    }
  }

  // Fewer records decode to fewer spans.
  lemma {:induction false} FewerSpans(k: Codec, rs: seq<Record>, us: seq<Record>)
    requires multiset(rs) <= multiset(us)
    ensures multiset(SpansOfRecords(k, rs)) <= multiset(SpansOfRecords(k, us))
  {
    hide SpansOfRecord;
    if rs != [] {
      var n := |rs| - 1;
      assert rs == rs[..n] + [rs[n]];
      assert rs[n] in multiset(us);
      var i :| 0 <= i < |us| && us[i] == rs[n];
      WithoutOne(rs[..n], us, i);
      FewerSpans(k, rs[..n], us[..i] + us[i + 1..]);
      TakeOut(k, us, i);
      TakeOut(k, rs, n);
      assert rs[..n] + rs[n + 1..] == rs[..n];
    }
  }

  lemma WithoutOne<T>(a: seq<T>, us: seq<T>, i: nat)
    requires i < |us| && multiset(a) + multiset{us[i]} <= multiset(us)
    ensures multiset(a) <= multiset(us[..i] + us[i + 1..])
  {
    var rest := us[..i] + us[i + 1..];
    assert us == us[..i] + [us[i]] + us[i + 1..];
    assert multiset(us) == multiset(rest) + multiset{us[i]};
    forall y ensures multiset(a)[y] <= multiset(rest)[y] {
      assert (multiset(a) + multiset{us[i]})[y] <= (multiset(rest) + multiset{us[i]})[y];
    }
  }

  lemma TakeOut(k: Codec, us: seq<Record>, i: nat)
    requires i < |us|
    ensures multiset(SpansOfRecords(k, us))
         == multiset(SpansOfRecords(k, us[..i] + us[i + 1..])) + multiset(SpansOfRecord(k, us[i]))
  {
    hide SpansOfRecord;
    var a, b, r := us[..i], us[i + 1..], us[i];
    assert us == a + [r] + b;
    SpansOfRecordsAppend(k, a + [r], b);
    SpansOfRecordsAppend(k, a, [r]);
    SpansOfRecordsAppend(k, a, b);
    assert SpansOfRecords(k, [r]) == SpansOfRecords(k, []) + SpansOfRecord(k, r);
  }

  lemma {:induction false} FewerRecords(ts: seq<Tagged>, us: seq<Tagged>)
    requires multiset(ts) <= multiset(us)
    ensures multiset(Recs(ts)) <= multiset(Recs(us))
  {
    hide Recs;
    if ts != [] {
      var n := |ts| - 1;
      assert ts == ts[..n] + [ts[n]];
      assert ts[n] in multiset(us);
      var i :| 0 <= i < |us| && us[i] == ts[n];
      WithoutOne(ts[..n], us, i);
      FewerRecords(ts[..n], us[..i] + us[i + 1..]);
      RecsWithout(us, i);
      RecsWithout(ts, n);
      assert ts[..n] + ts[n + 1..] == ts[..n];
    }
  }

  lemma RecsWithout(us: seq<Tagged>, i: nat)
    requires i < |us|
    ensures multiset(Recs(us)) == multiset(Recs(us[..i] + us[i + 1..])) + multiset{us[i].rec}
  {
    var a, b := Recs(us[..i]), Recs(us[i + 1..]);
    assert Recs(us) == a + [us[i].rec] + b;
    assert Recs(us[..i] + us[i + 1..]) == a + b;
  }

  // No span reaches the next consumer twice: over any number of calls, running one after another
  // or at the same time, so that their records mix in the buffer's channel, any interleaving of
  // writer and sweeper, and whatever decisions arrive, what is forwarded at once and what the
  // buffer's callbacks deliver are together at most the input.
  lemma NoSpanTwice(c: Config, s: State, k: Codec, calls: seq<Call>)
    requires BufferMachine.Valid(c) && Reachable(c, s) && Inverse(k)
    requires forall i :: 0 <= i < |calls| ==> GoodCall(k, calls[i])
    requires multiset(Recs(s.h.accepted)) <= multiset(Stored(k, calls))
    ensures multiset(Forwards(calls)) + multiset(Deliveries(k, s.h.resolved)) <= multiset(Input(calls))
  {
    hide Core, Evidence, Wakes, Order, Deliveries, DeliveredTags, SpansOfRecords, Stored, Tags, Forwards, Input, Recs, LiveInGroups, View, AtHand;
    ReachableInv(c, s);
    forall i | 0 <= i < |s.h.resolved| && s.h.resolved[i].out.Delivered?
      ensures s.h.resolved[i].out.payload == s.h.resolved[i].rec.rec.data
    {
      CallbacksAreFaithful(c, s, i);
    }
    DeliveriesDecode(k, s.h.resolved);
    DeliveredWithin(s.h.resolved);
    ResolvedWithin(c, s);
    FewerRecords(DeliveredTags(s.h.resolved), s.h.accepted);
    FewerSpans(k, Recs(DeliveredTags(s.h.resolved)), Stored(k, calls));
    CallsConserve(k, calls);
  }

  // A call of processTraces is one of those: it hands on the forwarded tree, and puts the records
  // of the buffered groups, in order, into the buffer.
  method OneCall(p: Processor, td: Trace) returns (out: Trace, call: Call)
    requires p.Ready()
    modifies p, p.index, p.index.list, p.index.clock
    ensures p.Ready() && call.td == td && GoodCall(p.codec, call)
    ensures Spans(out) == Forwards([call]) && p.accepted == old(p.accepted) + Stored(p.codec, [call])
  {
    hide ListsAll, Encodable, Spans, Join, Only, RecordsOf;
    var skip, now, r;
    out, skip, now, r := p.ProcessTraces(td);
    call := Call(td, r, now);
    assert [call][..0] == [];
  }

  lemma ResolvedWithin(c: Config, s: State)
    requires BufferMachine.Valid(c) && Reachable(c, s)
    ensures multiset(Tags(s.h.resolved)) <= multiset(s.h.accepted)
  {
    hide Core, Evidence, Wakes, Order, Tags, LiveInGroups, View, AtHand;
    ReachableInv(c, s);
  }
}
