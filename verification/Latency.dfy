// The streaming latency filter: a running window over the spans, with an early exit (latency.go).
module Latency {
  import opened Bytes
  import opened Traces

  // Timestamps are uint64 nanoseconds; AsTime takes them as int64.
  predicate IsStamp(t: int)
  {
    0 <= t < TWO64
  }

  function AsTime(t: int): int
    requires IsStamp(t)
  {
    FromU64(t)
  }

  // Sub saturates to int64 nanoseconds; Milliseconds truncates towards zero.
  function Ms(end: int, start: int): int
    requires IsStamp(end) && IsStamp(start)
  {
    var d := AsTime(end) - AsTime(start);
    var s := if d > TWO63 - 1 then TWO63 - 1 else if d < -TWO63 then -TWO63 else d;
    if s >= 0 then s / 1_000_000 else -((-s) / 1_000_000)
  }

  predicate Stamped(spans: seq<Span>)
  {
    forall i :: 0 <= i < |spans| ==> IsStamp(spans[i].start) && IsStamp(spans[i].end)
  }

  datatype Window = Window(start: int, end: int)

  function Min(a: int, b: int): int
  {
    if a <= b then a else b
  }

  function Max(a: int, b: int): int
  {
    if a >= b then a else b
  }

  // The closure's two variables after one more span; start 0 means that nothing was seen yet.
  function Extend(w: Window, s: Span): Window
  {
    if w.start == 0 then Window(s.start, s.end) else Window(Min(w.start, s.start), Max(w.end, s.end))
  }

  predicate Matches(lower: int, upper: int, ms: int)
  {
    if upper == 0 then ms >= lower else lower < ms <= upper
  }

  predicate StampedWindow(w: Window)
  {
    IsStamp(w.start) && IsStamp(w.end)
  }

  // Does the filter match at some span from i on, with window w so far?
  predicate SampledFrom(lower: int, upper: int, spans: seq<Span>, i: nat, w: Window)
    requires i <= |spans| && Stamped(spans) && StampedWindow(w)
    decreases |spans| - i
  {
    if i == |spans| then false
    else
      var w' := Extend(w, spans[i]);
      Matches(lower, upper, Ms(w'.end, w'.start)) || SampledFrom(lower, upper, spans, i + 1, w')
  }

  // Timestamps are uint64 by their type, so that Stamped always holds.
  predicate LatencySampled(lower: int, upper: int, spans: seq<Span>)
  {
    Stamped(spans) && SampledFrom(lower, upper, spans, 0, Window(0, 0))
  }

  // Position of span k of scope (i, j) among all spans.
  function Index(td: Trace, i: nat, j: nat, k: nat): nat
    requires i <= |td| && (i < |td| ==> j <= |td[i].scopes|)
  {
    |Spans(td[..i])| + (if i < |td| then |SpansOfScopes(td[i].scopes[..j])| else 0) + k
  }

  lemma {:induction false} SpansPrefix(td: Trace, i: nat)
    requires i <= |td|
    ensures Spans(td[..i]) <= Spans(td)
    ensures i < |td| ==> Spans(td[..i]) + SpansOfScopes(td[i].scopes) <= Spans(td)
    decreases |td|
  {
    if i < |td| {
      var n := |td| - 1;
      SpansPrefix(td[..n], i);
      assert td[..n][..i] == td[..i];
    } else {
      assert td[..i] == td;
    }
  }

  lemma {:induction false} ScopesPrefix(scopes: seq<ScopeSpans>, j: nat)
    requires j <= |scopes|
    ensures SpansOfScopes(scopes[..j]) <= SpansOfScopes(scopes)
    ensures j < |scopes| ==> SpansOfScopes(scopes[..j]) + scopes[j].spans <= SpansOfScopes(scopes)
    decreases |scopes|
  {
    if j < |scopes| {
      var n := |scopes| - 1;
      ScopesPrefix(scopes[..n], j);
      assert scopes[..n][..j] == scopes[..j];
    } else {
      assert scopes[..j] == scopes;
    }
  }

  // The nested loops visit the spans in the order of Spans.
  lemma VisitsInOrder(td: Trace, i: nat, j: nat)
    requires i < |td| && j < |td[i].scopes|
    ensures var n := |td[i].scopes[j].spans|;
            && Index(td, i, j, n) <= |Spans(td)|
            && (forall k :: 0 <= k < n ==> Spans(td)[Index(td, i, j, k)] == td[i].scopes[j].spans[k])
            && Index(td, i, j, n) == Index(td, i, j + 1, 0)
  {
    var scopes := td[i].scopes;
    SpansPrefix(td, i);
    ScopesPrefix(scopes, j);
    assert scopes[..j + 1][..j] == scopes[..j];
    assert SpansOfScopes(scopes[..j + 1]) == SpansOfScopes(scopes[..j]) + scopes[j].spans;
    hide Spans, SpansOfScopes;
    Slot(Spans(td), Spans(td[..i]), SpansOfScopes(scopes[..j]), scopes[j].spans, SpansOfScopes(scopes));
  }

  lemma Slot(all: seq<Span>, front: seq<Span>, mid: seq<Span>, here: seq<Span>, whole: seq<Span>)
    requires front + whole <= all && mid + here <= whole
    ensures |front| + |mid| + |here| <= |all|
    ensures forall k :: 0 <= k < |here| ==> all[|front| + |mid| + k] == here[k]
  {
    forall k | 0 <= k < |here| ensures all[|front| + |mid| + k] == here[k] {
      assert (front + whole)[|front| + |mid| + k] == whole[|mid| + k] == (mid + here)[|mid| + k];
    }
  }

  lemma NextTree(td: Trace, i: nat)
    requires i < |td|
    ensures Index(td, i, |td[i].scopes|, 0) == Index(td, i + 1, 0, 0)
  {
    assert td[..i + 1][..i] == td[..i];
    assert td[i].scopes[..|td[i].scopes|] == td[i].scopes;
  }

  lemma StampedHere(td: Trace, i: nat, j: nat)
    requires Stamped(Spans(td)) && i < |td| && j < |td[i].scopes|
    ensures Stamped(td[i].scopes[j].spans)
  {
    VisitsInOrder(td, i, j);
    var spans, all := td[i].scopes[j].spans, Spans(td);
    forall k | 0 <= k < |spans| ensures IsStamp(spans[k].start) && IsStamp(spans[k].end) {
      assert all[Index(td, i, j, k)] == spans[k];
    }
  }

  // The loops themselves, with the two variables that the closure updates.
  method Evaluate(lower: int, upper: int, td: Trace) returns (sampled: bool)
    requires Stamped(Spans(td))
    ensures sampled == LatencySampled(lower, upper, Spans(td))
  {
    hide Ms, Matches, Spans, SpansOfScopes, Index, Stamped;
    ghost var all := Spans(td);
    ghost var goal := SampledFrom(lower, upper, all, 0, Window(0, 0));
    var minTime, maxTime := 0, 0;
    StartOfAll(td);
    for i := 0 to |td|
      invariant StampedWindow(Window(minTime, maxTime)) && Index(td, i, 0, 0) <= |all|
      invariant goal == SampledFrom(lower, upper, all, Index(td, i, 0, 0), Window(minTime, maxTime))
    {
      for j := 0 to |td[i].scopes|
        invariant StampedWindow(Window(minTime, maxTime)) && Index(td, i, j, 0) <= |all|
        invariant goal == SampledFrom(lower, upper, all, Index(td, i, j, 0), Window(minTime, maxTime))
      {
        var found;
        found, minTime, maxTime := EvaluateScope(lower, upper, td, i, j, minTime, maxTime);
        if found {
          return true;
        }
      }
      NextTree(td, i);
    }
    EndOfAll(td);
    sampled := false;
  }

  lemma StartOfAll(td: Trace)
    ensures Index(td, 0, 0, 0) == 0
  {
  }

  lemma EndOfAll(td: Trace)
    ensures Index(td, |td|, 0, 0) == |Spans(td)|
  {
    assert td[..|td|] == td;
  }

  method EvaluateScope(lower: int, upper: int, td: Trace, i: nat, j: nat, minTime0: int, maxTime0: int)
    returns (found: bool, minTime: int, maxTime: int)
    requires Stamped(Spans(td)) && i < |td| && j < |td[i].scopes| && StampedWindow(Window(minTime0, maxTime0))
    requires Index(td, i, j, 0) <= |Spans(td)|
    ensures StampedWindow(Window(minTime, maxTime)) && Index(td, i, j + 1, 0) <= |Spans(td)|
    ensures SampledFrom(lower, upper, Spans(td), Index(td, i, j, 0), Window(minTime0, maxTime0))
         == (found || SampledFrom(lower, upper, Spans(td), Index(td, i, j + 1, 0), Window(minTime, maxTime)))
  {
    hide Ms, Matches, Spans, SpansOfScopes, SampledFrom;
    StampedHere(td, i, j);
    VisitsInOrder(td, i, j);
    ghost var all, base := Spans(td), Index(td, i, j, 0);
    ghost var goal := SampledFrom(lower, upper, all, base, Window(minTime0, maxTime0));
    var spans := td[i].scopes[j].spans;
    minTime, maxTime := minTime0, maxTime0;
    assert Index(td, i, j, |spans|) == base + |spans|;
    for k := 0 to |spans|
      invariant StampedWindow(Window(minTime, maxTime))
      invariant goal == SampledFrom(lower, upper, all, base + k, Window(minTime, maxTime))
    {
      assert Index(td, i, j, k) == base + k;
      OneMore(lower, upper, all, base + k, Window(minTime, maxTime));
      if minTime == 0 {
        minTime, maxTime := spans[k].start, spans[k].end;
      } else {
        minTime, maxTime := Min(minTime, spans[k].start), Max(maxTime, spans[k].end);
      }
      if Matches(lower, upper, Ms(maxTime, minTime)) {
        found := true;
        return;
      }
    }
    found := false;
  }

  lemma OneMore(lower: int, upper: int, spans: seq<Span>, i: nat, w: Window)
    requires i < |spans| && Stamped(spans) && StampedWindow(w)
    ensures var w' := Extend(w, spans[i]);
            && StampedWindow(w')
            && SampledFrom(lower, upper, spans, i, w)
            == (Matches(lower, upper, Ms(w'.end, w'.start)) || SampledFrom(lower, upper, spans, i + 1, w'))
  {
    hide Ms, Matches;
  }

  // ---- The window of a stretch of spans, and of the whole trace ----

  function WindowOf(spans: seq<Span>, a: nat, b: nat): (w: Window)
    requires a < b <= |spans|
    ensures forall i :: a <= i < b ==> w.start <= spans[i].start && spans[i].end <= w.end
    ensures exists i :: a <= i < b && w.start == spans[i].start
    ensures exists i :: a <= i < b && w.end == spans[i].end
    decreases b - a
  {
    if b == a + 1 then Window(spans[a].start, spans[a].end)
    else
      var w := WindowOf(spans, a, b - 1);
      Window(Min(w.start, spans[b - 1].start), Max(w.end, spans[b - 1].end))
  }

  // Where the running window of the first b spans begins: behind the last span before the newest
  // that starts at time 0.
  function Reset(spans: seq<Span>, b: nat): (a: nat)
    requires 0 < b <= |spans|
    ensures a < b
    ensures a > 0 ==> spans[a - 1].start == 0
    ensures forall i :: a <= i < b - 1 ==> spans[i].start != 0
  {
    if b == 1 then 0 else if spans[b - 2].start == 0 then b - 1 else Reset(spans, b - 1)
  }

  lemma StampedWindowOf(spans: seq<Span>, a: nat, b: nat)
    requires a < b <= |spans| && Stamped(spans)
    ensures StampedWindow(WindowOf(spans, a, b))
  {
  }

  function Running(spans: seq<Span>, b: nat): Window
    requires 0 < b <= |spans|
  {
    WindowOf(spans, Reset(spans, b), b)
  }

  lemma RunningNext(spans: seq<Span>, b: nat)
    requires 0 < b < |spans| && Stamped(spans)
    ensures Extend(Running(spans, b), spans[b]) == Running(spans, b + 1)
  {
    var w := Running(spans, b);
    if spans[b - 1].start == 0 {
      assert w.start == 0;
    } else {
      assert w.start != 0;
    }
  }

  ghost predicate SomeWindow(lower: int, upper: int, spans: seq<Span>, i: nat)
    requires Stamped(spans)
  {
    exists b :: i < b <= |spans| && MatchesAt(lower, upper, spans, b)
  }

  predicate MatchesAt(lower: int, upper: int, spans: seq<Span>, b: nat)
    requires 0 < b <= |spans| && Stamped(spans)
  {
    StampedWindowOf(spans, Reset(spans, b), b);
    Matches(lower, upper, Ms(Running(spans, b).end, Running(spans, b).start))
  }

  lemma {:induction false} SampledMeans(lower: int, upper: int, spans: seq<Span>, i: nat)
    requires Stamped(spans) && 0 < i <= |spans|
    ensures StampedWindow(Running(spans, i))
    ensures SampledFrom(lower, upper, spans, i, Running(spans, i)) <==> SomeWindow(lower, upper, spans, i)
    decreases |spans| - i
  {
    hide Ms, Matches, WindowOf;
    StampedWindowOf(spans, Reset(spans, i), i);
    if i < |spans| {
      RunningNext(spans, i);
      SampledMeans(lower, upper, spans, i + 1);
      if SomeWindow(lower, upper, spans, i) {
        var b :| i < b <= |spans| && MatchesAt(lower, upper, spans, b);
        assert b == i + 1 || SomeWindow(lower, upper, spans, i + 1);
      }
      if MatchesAt(lower, upper, spans, i + 1) {
        assert SomeWindow(lower, upper, spans, i);
      }
    }
  }

  // What the filter computes, for all inputs: it samples when for some b the window of the first b
  // spans matches, where a span that starts at time 0 makes the window begin anew behind it.
  lemma SampledIffSomeWindow(lower: int, upper: int, spans: seq<Span>)
    requires Stamped(spans)
    ensures SampledFrom(lower, upper, spans, 0, Window(0, 0)) <==> SomeWindow(lower, upper, spans, 0)
  {
    hide Ms, Matches;
    if spans != [] {
      SampledMeans(lower, upper, spans, 1);
      assert Extend(Window(0, 0), spans[0]) == Running(spans, 1);
      if SomeWindow(lower, upper, spans, 0) {
        var b :| 0 < b <= |spans| && MatchesAt(lower, upper, spans, b);
        assert b == 1 || SomeWindow(lower, upper, spans, 1);
      }
      if MatchesAt(lower, upper, spans, 1) {
        assert SomeWindow(lower, upper, spans, 0);
      }
    }
  }

  // ---- When the filter agrees with the whole trace ----

  // No span but possibly the last starts at time 0, and no timestamp is beyond int64.
  predicate Sane(spans: seq<Span>)
  {
    && (forall i :: 0 <= i < |spans| ==> 0 <= spans[i].start < TWO63 && 0 <= spans[i].end < TWO63)
    && (forall i :: 0 <= i < |spans| - 1 ==> spans[i].start != 0)
  }

  predicate InInt64(spans: seq<Span>)
  {
    forall i :: 0 <= i < |spans| ==> 0 <= spans[i].start < TWO63 && 0 <= spans[i].end < TWO63
  }

  lemma AsTimeIs(t: int)
    requires 0 <= t < TWO63
    ensures AsTime(t) == t
  {
  }

  lemma MsMonotone(end: int, start: int, end': int, start': int)
    requires 0 <= start' <= start < TWO63 && 0 <= end <= end' < TWO63
    ensures Ms(end, start) <= Ms(end', start')
  {
    AsTimeIs(end);
    AsTimeIs(start);
    AsTimeIs(end');
    AsTimeIs(start');
    hide AsTime;
    var d, d' := end - start, end' - start';
    if d >= 0 {
      assert d / 1_000_000 <= d' / 1_000_000;
    } else if d' < 0 {
      assert (-d') / 1_000_000 <= (-d) / 1_000_000;
    }
  }

  // Every running window lies inside the window of the whole trace.
  lemma WithinWhole(spans: seq<Span>, b: nat)
    requires InInt64(spans) && 0 < b <= |spans|
    ensures StampedWindow(Running(spans, b)) && StampedWindow(WindowOf(spans, 0, |spans|))
    ensures var w, all := Running(spans, b), WindowOf(spans, 0, |spans|); Ms(w.end, w.start) <= Ms(all.end, all.start)
  {
    hide Ms, Reset;
    var w, all := Running(spans, b), WindowOf(spans, 0, |spans|);
    MsMonotone(w.end, w.start, all.end, all.start);
  }

  // Without an upper threshold: the filter agrees with the whole trace at every threshold exactly
  // when some running window is as long, in milliseconds, as the window of the whole trace.
  lemma AgreesIff(spans: seq<Span>)
    requires InInt64(spans) && spans != []
    ensures StampedWindow(WindowOf(spans, 0, |spans|))
    ensures (forall threshold {:trigger LatencySampled(threshold, 0, spans)} ::
               LatencySampled(threshold, 0, spans) <==> MsOf(WindowOf(spans, 0, |spans|)) >= threshold)
       <==> (exists b :: 0 < b <= |spans| && MsOf(Running(spans, b)) == MsOf(WindowOf(spans, 0, |spans|)))
  {
    hide Ms, WindowOf, Reset, SampledFrom, Running;
    var n := |spans|;
    WithinWhole(spans, n);
    var whole := MsOf(WindowOf(spans, 0, n));
    forall b | 0 < b <= n ensures MsOf(Running(spans, b)) <= whole {
      WithinWhole(spans, b);
    }
    forall threshold ensures LatencySampled(threshold, 0, spans) <==> exists b :: 0 < b <= n && MsOf(Running(spans, b)) >= threshold {
      SampledByLength(threshold, spans);
    }
    if forall threshold {:trigger LatencySampled(threshold, 0, spans)} :: LatencySampled(threshold, 0, spans) <==> whole >= threshold {
      assert LatencySampled(whole, 0, spans);
    }
  }

  function MsOf(w: Window): int
  {
    if StampedWindow(w) then Ms(w.end, w.start) else 0
  }

  lemma SampledByLength(threshold: int, spans: seq<Span>)
    requires InInt64(spans)
    ensures LatencySampled(threshold, 0, spans) <==> exists b :: 0 < b <= |spans| && MsOf(Running(spans, b)) >= threshold
  {
    hide Ms, WindowOf, Reset, SampledFrom;
    SampledIffSomeWindow(threshold, 0, spans);
    forall b | 0 < b <= |spans| ensures MatchesAt(threshold, 0, spans, b) <==> MsOf(Running(spans, b)) >= threshold {
      StampedWindowOf(spans, Reset(spans, b), b);
    }
  }

  // With real start times and no upper threshold the order of the spans does not matter: the trace
  // is sampled iff some span ends at least the threshold after some span starts.
  lemma WholeTraceLatency(threshold: int, spans: seq<Span>)
    requires Sane(spans)
    ensures LatencySampled(threshold, 0, spans)
       <==> exists i, j :: 0 <= i < |spans| && 0 <= j < |spans| && Ms(spans[j].end, spans[i].start) >= threshold
  {
    hide Ms, SampledFrom;
    var n := |spans|;
    SampledByLength(threshold, spans);
    if n > 0 {
      NoReset(spans, n);
      var whole := WindowOf(spans, 0, n);
      WithinWhole(spans, n);
      forall b | 0 < b <= n ensures MsOf(Running(spans, b)) <= MsOf(whole) {
        WithinWhole(spans, b);
      }
      assert MsOf(Running(spans, n)) == MsOf(whole);
      forall i, j | 0 <= i < n && 0 <= j < n ensures Ms(spans[j].end, spans[i].start) <= MsOf(whole) {
        MsMonotone(spans[j].end, spans[i].start, whole.end, whole.start);
      }
    }
  }

  lemma NoReset(spans: seq<Span>, b: nat)
    requires 0 < b <= |spans| && forall i :: 0 <= i < b - 1 ==> spans[i].start != 0
    ensures Reset(spans, b) == 0
  {
  }

  lemma MatchesPrefix(lower: int, upper: int, spans: seq<Span>, b: nat)
    requires Sane(spans) && upper != 0 && 0 < b <= |spans|
    ensures MatchesAt(lower, upper, spans, b) <==> lower < MsOf(WindowOf(spans, 0, b)) <= upper
  {
    hide Ms, WindowOf;
    NoReset(spans, b);
    StampedWindowOf(spans, 0, b);
  }

  // With an upper threshold: sampled iff the window of some non-empty prefix lies in (lower, upper].
  lemma PrefixLatency(lower: int, upper: int, spans: seq<Span>)
    requires Sane(spans) && upper != 0
    ensures LatencySampled(lower, upper, spans)
       <==> exists b :: 0 < b <= |spans| && lower < MsOf(WindowOf(spans, 0, b)) <= upper
  {
    hide SampledFrom, WindowOf, MatchesAt, MsOf;
    SampledIffSomeWindow(lower, upper, spans);
    if SomeWindow(lower, upper, spans, 0) {
      var b :| 0 < b <= |spans| && MatchesAt(lower, upper, spans, b);
      MatchesPrefix(lower, upper, spans, b);
    }
    if b :| 0 < b <= |spans| && lower < MsOf(WindowOf(spans, 0, b)) <= upper {
      MatchesPrefix(lower, upper, spans, b);
    }
  }

  // A span without a start time makes the decision depend on the order of the spans.
  lemma ZeroStartBreaksOrder(a: Span, b: Span)
    requires a.start == 0 && a.end == 0 && b.start == 20_000_000_000 && b.end == 21_000_000_000
    ensures !LatencySampled(5000, 0, [a, b]) && LatencySampled(5000, 0, [b, a])
  {
    var s1, s2 := [a, b], [b, a];
    assert Extend(Window(0, 0), a) == Window(0, 0) && Extend(Window(0, 0), b) == Window(b.start, b.end);
    assert Ms(0, 0) == 0 && Ms(b.end, b.start) == 1000 && Ms(b.end, 0) == 21000;
    assert !SampledFrom(5000, 0, s1, 2, Window(b.start, b.end));
    assert !SampledFrom(5000, 0, s1, 1, Window(0, 0));
    assert SampledFrom(5000, 0, s2, 1, Window(b.start, b.end));
  }

  // ---- When the order of the spans matters ----

  predicate Reorders(us: seq<Span>, spans: seq<Span>)
  {
    multiset(us) == multiset(spans)
  }

  lemma ReordersEach(us: seq<Span>, spans: seq<Span>)
    requires Reorders(us, spans)
    ensures |us| == |spans| && (InInt64(spans) ==> InInt64(us))
    ensures forall i :: 0 <= i < |us| ==> us[i] in spans
    ensures forall i :: 0 <= i < |spans| ==> spans[i] in us
  {
    assert |multiset(us)| == |us| && |multiset(spans)| == |spans|;
    forall i | 0 <= i < |us| ensures us[i] in spans {
      assert us[i] in multiset(us);
    }
    forall i | 0 <= i < |spans| ensures spans[i] in us {
      assert spans[i] in multiset(spans);
    }
  }

  function Whole(spans: seq<Span>): Window
    requires spans != []
  {
    WindowOf(spans, 0, |spans|)
  }

  lemma WholeReordered(us: seq<Span>, spans: seq<Span>)
    requires Reorders(us, spans) && spans != []
    ensures us != [] && Whole(us) == Whole(spans)
  {
    ReordersEach(us, spans);
    hide WindowOf;
    var i :| 0 <= i < |us| && Whole(us).start == us[i].start;
    var j :| 0 <= j < |us| && Whole(us).end == us[j].end;
    var k :| 0 <= k < |spans| && Whole(spans).start == spans[k].start;
    var l :| 0 <= l < |spans| && Whole(spans).end == spans[l].end;
    assert us[i] in spans && us[j] in spans && spans[k] in us && spans[l] in us;
  }

  // The filter gives the answer of the whole trace at every threshold.
  ghost predicate Agrees(spans: seq<Span>)
    requires spans != []
  {
    forall threshold {:trigger LatencySampled(threshold, 0, spans)} ::
      LatencySampled(threshold, 0, spans) <==> MsOf(Whole(spans)) >= threshold
  }

  // The span ends in the same millisecond as the latest of all.
  predicate EndsLast(s: Span, end: int)
    requires IsStamp(s.end) && IsStamp(end)
  {
    Ms(s.end, 0) == Ms(end, 0)
  }

  // Every span has a start time; or one that ends in the last millisecond makes the trace as long
  // as counted from time 0.
  ghost predicate OrderFree(spans: seq<Span>)
    requires InInt64(spans) && spans != []
  {
    WithinWhole(spans, |spans|);
    var end := Whole(spans).end;
    || (forall i :: 0 <= i < |spans| ==> spans[i].start != 0)
    || exists i :: 0 <= i < |spans| && EndsLast(spans[i], end) && Ms(end, spans[i].start) == Ms(end, 0)
  }

  lemma OrderFreeReordered(us: seq<Span>, spans: seq<Span>)
    requires Reorders(us, spans) && spans != [] && InInt64(spans)
    ensures us != [] && InInt64(us) && (OrderFree(us) <==> OrderFree(spans))
  {
    hide Ms, WindowOf;
    ReordersEach(us, spans);
    WholeReordered(us, spans);
  }

  // From the window of a span at or before a span without start time.
  lemma ZeroBehind(us: seq<Span>, j: nat, z: nat) returns (b: nat)
    requires InInt64(us) && j <= z < |us| && us[z].start == 0 && EndsLast(us[j], Whole(us).end)
    ensures 0 < b <= |us| && MsOf(Running(us, b)) == Ms(Whole(us).end, 0)
    decreases z - j
  {
    hide Ms, WindowOf;
    var i := j;
    while us[i].start != 0
      invariant j <= i <= z && forall k :: j <= k < i ==> us[k].start != 0
      decreases z - i
    {
      i := i + 1;
    }
    b := i + 1;
    var w, end := Running(us, b), Whole(us).end;
    assert Reset(us, b) <= j;
    WithinWhole(us, b);
    assert w.start == 0 && us[j].end <= w.end <= end;
    MsMonotone(us[j].end, 0, w.end, 0);
    MsMonotone(w.end, 0, end, 0);
  }

  // Whatever the order, some running window is as long as the whole trace.
  lemma FreeAgrees(us: seq<Span>) returns (b: nat)
    requires InInt64(us) && us != [] && OrderFree(us)
    ensures 0 < b <= |us| && MsOf(Running(us, b)) == MsOf(Whole(us))
  {
    hide Ms, WindowOf, EndsLast;
    var n, end := |us|, Whole(us).end;
    WithinWhole(us, n);
    if forall i :: 0 <= i < n ==> us[i].start != 0 {
      NoReset(us, n);
      return n;
    }
    var z0 :| 0 <= z0 < n && us[z0].start == 0;
    assert Whole(us).start == 0;
    var j :| 0 <= j < n && EndsLast(us[j], end) && Ms(end, us[j].start) == Ms(end, 0);
    var e :| 0 <= e < n && us[e].end == end;
    assert EndsLast(us[e], end) by { LastEndsLast(us[e]); }
    if z :| e <= z < n && us[z].start == 0 {
      b := ZeroBehind(us, e, z);
    } else if z :| j <= z < n && us[z].start == 0 {
      b := ZeroBehind(us, j, z);
    } else {
      b := n;
      var w := Running(us, n);
      assert Reset(us, n) <= j && Reset(us, n) <= e;
      assert w.end == end && 0 <= w.start <= us[j].start;
      MsMonotone(end, us[j].start, end, w.start);
      MsMonotone(end, w.start, end, 0);
    }
  }

  lemma LastEndsLast(s: Span)
    requires IsStamp(s.end)
    ensures EndsLast(s, s.end)
  {
  }

  lemma AgreesByWindow(spans: seq<Span>)
    requires InInt64(spans) && spans != []
    ensures Agrees(spans) <==> exists b :: 0 < b <= |spans| && MsOf(Running(spans, b)) == MsOf(Whole(spans))
  {
    hide Ms, WindowOf, Reset, LatencySampled;
    AgreesIff(spans);
  }

  // The spans for which a condition has the given value, in order.
  function Where(spans: seq<Span>, cond: Span -> bool, value: bool): (r: seq<Span>)
    ensures forall i :: 0 <= i < |r| ==> cond(r[i]) == value
  {
    if spans == [] then []
    else (if cond(spans[0]) == value then [spans[0]] else []) + Where(spans[1..], cond, value)
  }

  lemma {:induction false} WhereParts(spans: seq<Span>, cond: Span -> bool)
    ensures multiset(Where(spans, cond, true)) + multiset(Where(spans, cond, false)) == multiset(spans)
  {
    if spans != [] {
      WhereParts(spans[1..], cond);
      assert spans == [spans[0]] + spans[1..];
    }
  }

  // The last spans behind one without start time: the running window has begun anew among them.
  lemma AnewBehind(front: seq<Span>, back: seq<Span>, b: nat)
    requires front != [] && front[|front| - 1].start == 0 && |front| < b <= |front + back|
    ensures Reset(front + back, b) >= |front|
  {
    var us := front + back;
    assert us[|front| - 1].start == 0;
  }

  // In this order no running window is long enough: the spans that end last come behind one
  // without start time, and everything else comes before.
  lemma BadOrder(front: seq<Span>, back: seq<Span>, end: int, b: nat)
    requires InInt64(front + back) && front != [] && front[|front| - 1].start == 0 && 0 < b <= |front + back|
    requires end == Whole(front + back).end && 0 <= end < TWO63
    requires forall i :: 0 <= i < |front| ==> 0 <= front[i].end < TWO63 && !EndsLast(front[i], end)
    requires forall i :: 0 <= i < |back| ==> 0 <= back[i].start < TWO63 && Ms(end, back[i].start) != Ms(end, 0)
    ensures MsOf(Running(front + back, b)) < Ms(end, 0)
  {
    hide Ms, WindowOf;
    var us := front + back;
    var w := Running(us, b);
    WithinWhole(us, b);
    if b <= |front| {
      var i :| Reset(us, b) <= i < b && w.end == us[i].end;
      assert us[i] == front[i];
      MsMonotone(w.end, w.start, w.end, 0);
      MsMonotone(w.end, 0, end, 0);
    } else {
      AnewBehind(front, back, b);
      var i :| Reset(us, b) <= i < b && w.start == us[i].start;
      assert us[i] == back[i - |front|];
      MsMonotone(w.end, w.start, end, w.start);
      MsMonotone(end, w.start, end, 0);
    }
  }

  predicate Last(s: Span, end: int)
  {
    IsStamp(s.end) && IsStamp(end) && EndsLast(s, end)
  }

  lemma Sorted(spans: seq<Span>, end: int) returns (plain: seq<Span>, zeros: seq<Span>, back: seq<Span>)
    ensures multiset(spans) == multiset(plain + zeros) + multiset(back)
    ensures forall i :: 0 <= i < |plain| ==> plain[i].start != 0 && !Last(plain[i], end)
    ensures forall i :: 0 <= i < |zeros| ==> zeros[i].start == 0 && !Last(zeros[i], end)
    ensures forall i :: 0 <= i < |back| ==> Last(back[i], end)
  {
    hide Last, Where;
    var last, timed := (s: Span) => Last(s, end), (s: Span) => s.start != 0;
    var others := Where(spans, last, false);
    back := Where(spans, last, true);
    WhereParts(spans, last);
    plain, zeros := Where(others, timed, true), Where(others, timed, false);
    WhereParts(others, timed);
    forall i | 0 <= i < |plain| ensures !Last(plain[i], end) {
      assert plain[i] in multiset(others);
    }
    forall i | 0 <= i < |zeros| ensures !Last(zeros[i], end) {
      assert zeros[i] in multiset(others);
    }
  }

  // With the order that the filter takes worst, whatever the given order was.
  lemma WorstOrder(spans: seq<Span>) returns (us: seq<Span>)
    requires InInt64(spans) && spans != [] && !OrderFree(spans)
    ensures Reorders(us, spans) && us != [] && !Agrees(us)
  {
    hide Ms, WindowOf, Agrees, Reset, MsOf, Running, OrderFree, Last, InInt64;
    var end := Whole(spans).end;
    var plain, zeros, back := Sorted(spans, end);
    SomeZero(spans, plain, zeros, back, end);
    PartsOf(spans, plain + zeros, back, end);
    us := plain + zeros + back;
    assert Reorders(us, spans);
    ReordersEach(us, spans);
    WholeReordered(us, spans);
    WholeFromZero(spans);
    forall b | 0 < b <= |us| ensures MsOf(Running(us, b)) != MsOf(Whole(us)) {
      BadOrder(plain + zeros, back, end, b);
    }
    AgreesByWindow(us);
  }

  lemma PartsOf(spans: seq<Span>, front: seq<Span>, back: seq<Span>, end: int)
    requires InInt64(spans) && spans != [] && !OrderFree(spans) && end == Whole(spans).end
    requires multiset(spans) == multiset(front) + multiset(back)
    requires forall i :: 0 <= i < |front| ==> !Last(front[i], end)
    requires forall i :: 0 <= i < |back| ==> Last(back[i], end)
    ensures 0 <= end < TWO63
    ensures forall i :: 0 <= i < |front| ==> 0 <= front[i].end < TWO63 && !EndsLast(front[i], end)
    ensures forall i :: 0 <= i < |back| ==> 0 <= back[i].start < TWO63 && Ms(end, back[i].start) != Ms(end, 0)
  {
    hide Ms, WindowOf;
    WithinWhole(spans, |spans|);
    forall i | 0 <= i < |front| ensures 0 <= front[i].end < TWO63 && !EndsLast(front[i], end) {
      assert front[i] in multiset(spans);
    }
    forall i | 0 <= i < |back| ensures 0 <= back[i].start < TWO63 && Ms(end, back[i].start) != Ms(end, 0) {
      assert back[i] in multiset(spans);
    }
  }

  // A span without start time does not end in the last millisecond, so it is among the others.
  lemma SomeZero(spans: seq<Span>, plain: seq<Span>, zeros: seq<Span>, back: seq<Span>, end: int)
    requires InInt64(spans) && spans != [] && !OrderFree(spans) && end == Whole(spans).end
    requires multiset(spans) == multiset(plain + zeros) + multiset(back)
    requires forall i :: 0 <= i < |plain| ==> plain[i].start != 0
    requires forall i :: 0 <= i < |zeros| ==> zeros[i].start == 0
    requires forall i :: 0 <= i < |back| ==> Last(back[i], end)
    ensures zeros != [] && (plain + zeros)[|plain + zeros| - 1].start == 0
  {
    hide Ms, WindowOf;
    var z :| 0 <= z < |spans| && spans[z].start == 0;
    var s := spans[z];
    assert s in multiset(spans);
    assert s !in back;
    assert s in plain + zeros;
  }

  lemma WholeFromZero(spans: seq<Span>)
    requires InInt64(spans) && spans != [] && !OrderFree(spans)
    ensures MsOf(Whole(spans)) == Ms(Whole(spans).end, 0)
  {
    hide Ms, WindowOf;
    WithinWhole(spans, |spans|);
  }

  // Without an upper threshold, for all timestamps within int64: the filter gives the answer of
  // the whole trace in every order of the spans exactly when they are free of order.
  lemma AgreesInEveryOrderIff(spans: seq<Span>)
    requires InInt64(spans) && spans != []
    ensures (forall us :: Reorders(us, spans) && us != [] ==> Agrees(us)) <==> OrderFree(spans)
  {
    hide Agrees, OrderFree, WindowOf, Reorders;
    if OrderFree(spans) {
      forall us | Reorders(us, spans) && us != [] ensures Agrees(us) {
        OrderFreeReordered(us, spans);
        var b := FreeAgrees(us);
        AgreesByWindow(us);
      }
    } else {
      var us := WorstOrder(spans);
    }
  }

  // The answer is the same in every order, at every threshold, when every span has a start time.
  lemma SameInEveryOrder(us: seq<Span>, spans: seq<Span>, threshold: int)
    requires InInt64(spans) && spans != [] && Reorders(us, spans)
    requires forall i :: 0 <= i < |spans| ==> spans[i].start != 0
    ensures LatencySampled(threshold, 0, us) <==> LatencySampled(threshold, 0, spans)
  {
    hide LatencySampled, WindowOf;
    WholeReordered(us, spans);
    assert OrderFree(spans);
    AgreesInEveryOrderIff(spans);
    assert Reorders(spans, spans);
    assert Agrees(us) && Agrees(spans);
  }
}
