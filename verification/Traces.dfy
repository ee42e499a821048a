// Trace data as a tree of resources, scopes and spans, and its restriction to one trace ID.
module Traces {
  import opened Records

  datatype Span = Span(tid: TraceId, spanId: nat, start: int, end: int, attributes: map<string, string>)
  datatype ScopeSpans = ScopeSpans(scope: map<string, string>, schema: string, spans: seq<Span>)
  datatype ResourceSpans = ResourceSpans(resource: map<string, string>, schema: string, scopes: seq<ScopeSpans>)
  type Trace = seq<ResourceSpans>

  function OnlySpans(spans: seq<Span>, tid: TraceId): seq<Span>
  {
    if spans == [] then []
    else
      var s := spans[|spans| - 1];
      OnlySpans(spans[..|spans| - 1], tid) + (if s.tid == tid then [s] else [])
  }

  // Scopes restricted to one trace, without those that keep no span.
  function OnlyScopes(scopes: seq<ScopeSpans>, tid: TraceId): seq<ScopeSpans>
  {
    if scopes == [] then []
    else
      var ss := scopes[|scopes| - 1];
      var kept := OnlySpans(ss.spans, tid);
      OnlyScopes(scopes[..|scopes| - 1], tid) + (if kept == [] then [] else [ss.(spans := kept)])
  }

  // A trace tree restricted to one trace ID: same order, resources, scopes and schema URLs,
  // without the nodes that keep nothing.
  function Only(td: Trace, tid: TraceId): Trace
  {
    if td == [] then []
    else
      var rs := td[|td| - 1];
      var kept := OnlyScopes(rs.scopes, tid);
      Only(td[..|td| - 1], tid) + (if kept == [] then [] else [rs.(scopes := kept)])
  }

  function SpansOfScopes(scopes: seq<ScopeSpans>): seq<Span>
  {
    if scopes == [] then []
    else SpansOfScopes(scopes[..|scopes| - 1]) + scopes[|scopes| - 1].spans
  }

  // All spans of a tree, in order.
  function Spans(td: Trace): seq<Span>
  {
    if td == [] then [] else Spans(td[..|td| - 1]) + SpansOfScopes(td[|td| - 1].scopes)
  }

  lemma {:induction false} OnlySpansAppend(a: seq<Span>, b: seq<Span>, tid: TraceId)
    ensures OnlySpans(a + b, tid) == OnlySpans(a, tid) + OnlySpans(b, tid)
  {
    if b == [] {
      assert a + b == a;
    } else {
      var n := |b| - 1;
      OnlySpansAppend(a, b[..n], tid);
      assert (a + b)[..|a| + n] == a + b[..n];
    }
  }

  lemma {:induction false} SpansOfOnlyScopes(scopes: seq<ScopeSpans>, tid: TraceId)
    ensures SpansOfScopes(OnlyScopes(scopes, tid)) == OnlySpans(SpansOfScopes(scopes), tid)
    ensures OnlyScopes(scopes, tid) == [] <==> OnlySpans(SpansOfScopes(scopes), tid) == []
  {
    if scopes != [] {
      var n := |scopes| - 1;
      SpansOfOnlyScopes(scopes[..n], tid);
      OnlySpansAppend(SpansOfScopes(scopes[..n]), scopes[n].spans, tid);
      var kept := OnlySpans(scopes[n].spans, tid);
      var front := OnlyScopes(scopes[..n], tid);
      if kept != [] {
        assert (front + [scopes[n].(spans := kept)])[..|front|] == front;
      } else {
        assert front + [] == front;
      }
    }
  }

  // Restricting a tree restricts its span sequence and loses nothing else; it is empty exactly
  // when no span has the trace ID.
  lemma {:induction false} SpansOfOnly(td: Trace, tid: TraceId)
    ensures Spans(Only(td, tid)) == OnlySpans(Spans(td), tid)
    ensures Only(td, tid) == [] <==> OnlySpans(Spans(td), tid) == []
  {
    if td != [] {
      var n := |td| - 1;
      SpansOfOnly(td[..n], tid);
      SpansOfOnlyScopes(td[n].scopes, tid);
      OnlySpansAppend(Spans(td[..n]), SpansOfScopes(td[n].scopes), tid);
      var kept := OnlyScopes(td[n].scopes, tid);
      var front := Only(td[..n], tid);
      if kept != [] {
        assert (front + [td[n].(scopes := kept)])[..|front|] == front;
      } else {
        assert front + [] == front;
      }
    }
  }

  lemma {:induction false} OnlySpansCount(spans: seq<Span>, tid: TraceId, s: Span)
    ensures multiset(OnlySpans(spans, tid))[s] == if s.tid == tid then multiset(spans)[s] else 0
  {
    if spans != [] {
      var n := |spans| - 1;
      OnlySpansCount(spans[..n], tid, s);
      assert spans == spans[..n] + [spans[n]];
    }
  }

  // The restrictions to all trace IDs partition the multiset of spans: a span occurs in the tree
  // of its own trace as often as in the input, and in no other.
  lemma GroupsPartitionSpans(td: Trace, tid: TraceId, s: Span)
    ensures multiset(Spans(Only(td, tid)))[s] == if s.tid == tid then multiset(Spans(td))[s] else 0
    ensures Only(td, tid) != [] <==> exists t :: t in Spans(td) && t.tid == tid
  {
    SpansOfOnly(td, tid);
    OnlySpansCount(Spans(td), tid, s);
    OnlyNonempty(Spans(td), tid);
  }

  lemma {:induction false} OnlyNonempty(spans: seq<Span>, tid: TraceId)
    ensures OnlySpans(spans, tid) != [] <==> exists t :: t in spans && t.tid == tid
  {
    if spans != [] {
      var n := |spans| - 1;
      OnlyNonempty(spans[..n], tid);
      assert spans == spans[..n] + [spans[n]];
      if spans[n].tid == tid {
        assert spans[n] in spans;
      } else if t :| t in spans && t.tid == tid {
        assert t in spans[..n];
      }
      if OnlySpans(spans[..n], tid) != [] {
        var t :| t in spans[..n] && t.tid == tid;
        assert t in spans;
      }
    }
  }
}
