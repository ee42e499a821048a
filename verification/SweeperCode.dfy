// The sweeper goroutine as it runs: a page buffer rewritten in place, a read head, callbacks.
module SweeperCode {
  import opened Bytes
  import opened Records
  import opened PageCodec
  import opened Ring
  import opened SweepPage
  import opened Interest
  import opened BufferMachine
  import opened BufferRing
  import opened BufferShared

  // ---- What one call of processPage does, on values ----

  // The pages of a large record as the sweeper gathers them: the one in hand, then the file's.
  function GatheredPages(c: Config, file: seq<byte>, head: nat, page: Page, n: nat): (s: seq<Page>)
    requires Valid(c) && |page| == c.p
    ensures |s| == n
    ensures forall i :: 0 <= i < n ==> |s[i]| == c.p
  {
    seq(n, i requires 0 <= i < n => if i == 0 then page else ReadAt(file, Moved(c, head, i), c.p))
  }

  function PassLarge(c: Config, file: seq<byte>, head: nat, page: Page, n: nat, w: Watch): (Scan, seq<Outcome>)
    requires Valid(c) && |page| == c.p && n > 0
  {
    var v := Judge(w.wait, w.pressure, w.look(0));
    if v.Keep? then (Start(page).(fully := false, minRem := Smaller(0, w.wait - w.look(0).age)), [])
    else
      var payload := Gather(c.p, GatheredPages(c, file, head, page, n), LenAt(page, 0), n);
      (Start(page).(page := Overwrite(page, 0, TOMBSTONE), dirty := true, chunks := n),
       OutcomeOf(v, TidAt(page, 0), payload, w.look(0).age))
  }

  function Pass(c: Config, file: seq<byte>, head: nat, page: Page, used: int, w: Watch): (Scan, seq<Outcome>)
    requires Valid(c) && |page| == c.p
  {
    match Classify(c.p, page, 0, used)
    case LargeFinished(n) => (Start(page).(chunks := n), [])
    case LargeEarly => (Start(page).(fully := false), [])
    case Large(n) => if n > 0 then PassLarge(c, file, head, page, n, w) else (Start(page), [])
    case _ => PassSmall(c.p, Start(page), used, w)
  }

  // What a pass between two times can have observed on a page.
  ghost predicate Observed(page: Page, w: Watch, times: Index<TraceId>, t0: int, t1: int)
  {
    forall q: nat {:trigger w.look(q)} :: q + HDR <= |page| ==>
      && w.look(q).interesting == HasForSpan(times, TidAt(page, q), TimeAt(page, q), w.wait)
      && t0 <= TimeAt(page, q) + w.look(q).age <= t1
  }

  function Unseen(page: Page, times: Index<TraceId>, wait: int, pressure: bool, t0: int): (w: Watch)
    ensures w.wait == wait && w.pressure == pressure
  {
    Watch(wait, pressure, (q: nat) => if q + HDR <= |page|
                               then Look(HasForSpan(times, TidAt(page, q), TimeAt(page, q), wait), t0 - TimeAt(page, q))
                               else Look(false, 0))
  }

  function Seeing(w: Watch, pos: nat, look: Look): (r: Watch)
    ensures r.wait == w.wait && r.pressure == w.pressure
  {
    w.(look := (q: nat) => if q == pos then look else w.look(q))
  }

  predicate SameBelow(w: Watch, w': Watch, pos: nat)
  {
    w'.wait == w.wait && w'.pressure == w.pressure && forall q: nat :: q < pos ==> w'.look(q) == w.look(q)
  }

  // The pass so far has reached sc and reported `done`, whatever is observed from pos on.
  ghost predicate Reached(p: nat, page: Page, used: int, w: Watch, sc: Scan, done: seq<Outcome>)
    requires p > HDR && |page| == p
  {
    && |sc.page| == p
    && forall w' :: SameBelow(w, w', sc.pos) ==>
         var all, rest := PassSmall(p, Start(page), used, w'), PassSmall(p, sc, used, w');
         all.0 == rest.0 && all.1 == done + rest.1
  }

  lemma ReachedStart(p: nat, page: Page, used: int, w: Watch)
    requires p > HDR && |page| == p
    ensures Reached(p, page, used, w, Start(page), [])
  {
  }

  lemma ReachedFinished(p: nat, page: Page, used: int, w: Watch, sc: Scan, done: seq<Outcome>, size: nat)
    requires p > HDR && |page| == p && Reached(p, page, used, w, sc, done)
    requires Classify(p, sc.page, sc.pos, used) == Finished(size)
    ensures Reached(p, page, used, w, sc.(pos := sc.pos + size), done)
  {
    hide PassSmall, Classify;
    forall w' | SameBelow(w, w', sc.pos + size)
      ensures PassSmall(p, sc, used, w') == PassSmall(p, sc.(pos := sc.pos + size), used, w')
    {
      UnfoldFinished(p, sc, size, used, w');
      assert SameBelow(w, w', sc.pos);
    }
  }

  // What a verdict on the record at the position reports.
  function Told(sc: Scan, size: nat, look: Look, v: Verdict): seq<Outcome>
    requires sc.pos + size <= |sc.page| && size >= HDR
  {
    OutcomeOf(v, TidAt(sc.page, sc.pos), PayloadAt(sc.page, sc.pos, size - HDR), look.age)
  }

  lemma UnfoldAt(p: nat, sc: Scan, size: nat, used: int, w: Watch, look: Look)
    requires p > HDR && |sc.page| == p && Classify(p, sc.page, sc.pos, used) == Small(size) && w.look(sc.pos) == look
    ensures sc.pos + size <= p && size >= HDR
    ensures var v := Judge(w.wait, w.pressure, look);
            var rest := PassSmall(p, Settle(sc, size, v, look, w.wait), used, w);
            && PassSmall(p, sc, used, w).0 == rest.0
            && PassSmall(p, sc, used, w).1 == Told(sc, size, look, v) + rest.1
  {
    hide PassSmall, Classify, Settle, OutcomeOf, Judge, TidAt, PayloadAt;
    UnfoldSmall(p, sc, size, used, w);
  }

  lemma SeeingBelow(w: Watch, pos: nat, look: Look, w': Watch, next: nat)
    requires pos < next && SameBelow(Seeing(w, pos, look), w', next)
    ensures w'.look(pos) == look && SameBelow(w, w', pos)
  {
    var w1 := Seeing(w, pos, look);
    assert w'.look(pos) == w1.look(pos);
    assert forall q: nat :: q < pos ==> w'.look(q) == w1.look(q) == w.look(q);
  }

  lemma ReachedAt(p: nat, page: Page, used: int, w: Watch, sc: Scan, done: seq<Outcome>, w': Watch)
    requires p > HDR && |page| == p && Reached(p, page, used, w, sc, done) && SameBelow(w, w', sc.pos)
    ensures |sc.page| == p
    ensures PassSmall(p, Start(page), used, w').0 == PassSmall(p, sc, used, w').0
    ensures PassSmall(p, Start(page), used, w').1 == done + PassSmall(p, sc, used, w').1
  {
    hide PassSmall, SameBelow;
  }

  lemma Chain(a: seq<Outcome>, b: seq<Outcome>, c: seq<Outcome>)
    ensures a + (b + c) == a + b + c
  {
  }

  lemma ReachedSmallFor(p: nat, page: Page, used: int, w: Watch, sc: Scan, done: seq<Outcome>, size: nat, look: Look, w': Watch)
    requires p > HDR && |page| == p && Reached(p, page, used, w, sc, done)
    requires Classify(p, sc.page, sc.pos, used) == Small(size)
    requires SameBelow(Seeing(w, sc.pos, look), w', sc.pos + size)
    ensures sc.pos + size <= p && size >= HDR
    ensures var v := Judge(w.wait, w.pressure, look);
            var all, rest := PassSmall(p, Start(page), used, w'), PassSmall(p, Settle(sc, size, v, look, w.wait), used, w');
            all.0 == rest.0 && all.1 == done + Told(sc, size, look, v) + rest.1
  {
    assert sc.pos + size <= p && size >= HDR;
    hide PassSmall, Classify, Settle, Told, Judge, SameBelow, Seeing, Reached;
    SeeingBelow(w, sc.pos, look, w', sc.pos + size);
    SameJudge(w, w', sc.pos);
    UnfoldAt(p, sc, size, used, w', look);
    ReachedAt(p, page, used, w, sc, done, w');
    var v := Judge(w.wait, w.pressure, look);
    Chain(done, Told(sc, size, look, v), PassSmall(p, Settle(sc, size, v, look, w.wait), used, w').1);
  }

  lemma ReachedSmall(p: nat, page: Page, used: int, w: Watch, sc: Scan, done: seq<Outcome>, size: nat, look: Look)
    requires p > HDR && |page| == p && Reached(p, page, used, w, sc, done)
    requires Classify(p, sc.page, sc.pos, used) == Small(size)
    ensures sc.pos + size <= p && size >= HDR
    ensures var v := Judge(w.wait, w.pressure, look);
            Reached(p, page, used, Seeing(w, sc.pos, look), Settle(sc, size, v, look, w.wait), done + Told(sc, size, look, v))
  {
    assert sc.pos + size <= p && size >= HDR;
    var v := Judge(w.wait, w.pressure, look);
    var sc1 := Settle(sc, size, v, look, w.wait);
    hide PassSmall, Classify, Settle, Told, Judge, SameBelow, Seeing;
    forall w' | SameBelow(Seeing(w, sc.pos, look), w', sc1.pos)
      ensures PassSmall(p, Start(page), used, w').0 == PassSmall(p, sc1, used, w').0
      ensures PassSmall(p, Start(page), used, w').1 == done + Told(sc, size, look, v) + PassSmall(p, sc1, used, w').1
    {
      ReachedSmallFor(p, page, used, w, sc, done, size, look, w');
    }
  }

  lemma SameJudge(w: Watch, w': Watch, pos: nat)
    requires SameBelow(w, w', pos)
    ensures w'.wait == w.wait && w'.pressure == w.pressure
  {
  }

  lemma ReachedEnd(p: nat, page: Page, used: int, w: Watch, sc: Scan, done: seq<Outcome>)
    requires p > HDR && |page| == p && Reached(p, page, used, w, sc, done)
    requires Classify(p, sc.page, sc.pos, used).Stop?
    ensures PassSmall(p, Start(page), used, w) == (sc, done)
  {
    assert SameBelow(w, w, sc.pos);
    assert done + [] == done;
  }

  // The bytes ahead of the pass are still those of the page it started on.
  ghost predicate Untouched(page: Page, sc: Scan)
  {
    |sc.page| == |page| && sc.pos <= |page| && sc.page[sc.pos..] == page[sc.pos..]
  }

  lemma UntouchedHeader(page: Page, sc: Scan)
    requires Untouched(page, sc) && sc.pos + HDR <= |page|
    ensures TidAt(sc.page, sc.pos) == TidAt(page, sc.pos) && TimeAt(sc.page, sc.pos) == TimeAt(page, sc.pos)
  {
    var a, b := sc.page[sc.pos..], page[sc.pos..];
    assert sc.page[sc.pos..sc.pos + 16] == a[..16] && page[sc.pos..sc.pos + 16] == b[..16];
    assert sc.page[sc.pos + 16..sc.pos + 24] == a[16..24] && page[sc.pos + 16..sc.pos + 24] == b[16..24];
  }

  lemma ObservedMore(page: Page, w: Watch, times: Index<TraceId>, t0: int, t1: int, sc: Scan, look: Look, now: int)
    requires Observed(page, w, times, t0, t1) && t0 <= t1 <= now
    requires Untouched(page, sc) && sc.pos + HDR <= |page|
    requires look.interesting == HasForSpan(times, TidAt(sc.page, sc.pos), TimeAt(sc.page, sc.pos), w.wait)
    requires look.age == now - TimeAt(sc.page, sc.pos)
    ensures Observed(page, Seeing(w, sc.pos, look), times, t0, now)
  {
    UntouchedHeader(page, sc);
    hide TidAt, TimeAt;
  }

  // Everything the loop knows between two records.
  ghost predicate Midway(p: nat, page: Page, used: int, w: Watch, sc: Scan, done: seq<Outcome>,
                         times: Index<TraceId>, t0: int, now: int)
  {
    && p > HDR && |page| == p && t0 <= now
    && Untouched(page, sc) && Observed(page, w, times, t0, now) && Reached(p, page, used, w, sc, done)
  }

  lemma MidwayStart(p: nat, page: Page, used: int, wait: int, pressure: bool, times: Index<TraceId>, t0: int)
    requires p > HDR && |page| == p
    ensures Midway(p, page, used, Unseen(page, times, wait, pressure, t0), Start(page), [], times, t0, t0)
  {
    hide PassSmall;
    ReachedStart(p, page, used, Unseen(page, times, wait, pressure, t0));
    hide TidAt, TimeAt;
  }

  lemma MidwayFinished(p: nat, page: Page, used: int, w: Watch, sc: Scan, done: seq<Outcome>,
                       times: Index<TraceId>, t0: int, now: int, size: nat)
    requires Midway(p, page, used, w, sc, done, times, t0, now)
    requires Classify(p, sc.page, sc.pos, used) == Finished(size)
    ensures Midway(p, page, used, w, sc.(pos := sc.pos + size), done, times, t0, now)
  {
    ReachedFinished(p, page, used, w, sc, done, size);
    hide PassSmall, Observed, Reached, TidAt;
    assert sc.page[sc.pos..][size..] == page[sc.pos..][size..];
  }

  lemma MidwaySmall(p: nat, page: Page, used: int, w: Watch, sc: Scan, done: seq<Outcome>,
                    times: Index<TraceId>, t0: int, now: int, size: nat, look: Look, later: int)
    requires Midway(p, page, used, w, sc, done, times, t0, now) && now <= later
    requires Classify(p, sc.page, sc.pos, used) == Small(size)
    requires sc.pos + HDR <= p && look.interesting == HasForSpan(times, TidAt(sc.page, sc.pos), TimeAt(sc.page, sc.pos), w.wait)
    requires look.age == later - TimeAt(sc.page, sc.pos)
    ensures sc.pos + size <= p && size >= HDR
    ensures var v := Judge(w.wait, w.pressure, look);
            Midway(p, page, used, Seeing(w, sc.pos, look), Settle(sc, size, v, look, w.wait),
                   done + Told(sc, size, look, v), times, t0, later)
  {
    hide Reached, Told, Judge, Observed, Seeing;
    ReachedSmall(p, page, used, w, sc, done, size, look);
    ObservedMore(page, w, times, t0, now, sc, look, later);
    UntouchedNext(page, sc, size, Judge(w.wait, w.pressure, look), look, w.wait);
  }

  lemma UntouchedNext(page: Page, sc: Scan, size: nat, v: Verdict, look: Look, wait: int)
    requires Untouched(page, sc) && sc.pos + size <= |page| && size >= HDR
    ensures Untouched(page, Settle(sc, size, v, look, wait))
  {
    var sc1 := Settle(sc, size, v, look, wait);
    forall i | sc1.pos <= i < |page| ensures sc1.page[i] == page[i] {
      assert sc.page[i] == sc.page[sc.pos..][i - sc.pos] == page[sc.pos..][i - sc.pos];
    }
  }

  lemma PageOver(p: nat, page: Page, pos: nat, used: int)
    requires p > HDR && |page| == p && pos + HDR > p
    ensures Classify(p, page, pos, used) == Stop
  {
  }

  lemma MidwayEnd(p: nat, page: Page, used: int, w: Watch, sc: Scan, done: seq<Outcome>,
                  times: Index<TraceId>, t0: int, now: int)
    requires Midway(p, page, used, w, sc, done, times, t0, now)
    requires Classify(p, sc.page, sc.pos, used).Stop?
    ensures PassSmall(p, Start(page), used, w) == (sc, done)
    ensures Observed(page, w, times, t0, now) && t0 <= now
  {
    ReachedEnd(p, page, used, w, sc, done);
  }

  // Payload bytes of a record of n bytes that its first i pages hold.
  function Held(p: nat, len: nat, i: nat): int
  {
    Min(len, i * p - HDR)
  }

  lemma {:induction false} GatherLen(p: nat, pages: seq<Page>, len: nat, i: nat)
    requires p > HDR && HDR + len > p && 1 <= i <= |pages|
    requires forall j :: 0 <= j < |pages| ==> |pages[j]| == p
    ensures |Gather(p, pages, len, i)| == Held(p, len, i)
  {
    if i > 1 {
      GatherLen(p, pages, len, i - 1);
      assert i * p == (i - 1) * p + p;
    }
  }

  // One more continuation page: how much of it is payload, and where it lies in the file.
  lemma NextHeld(p: nat, len: nat, i: nat)
    requires p > HDR && HDR + len > p && i >= 1
    ensures 0 <= Held(p, len, i) <= len
    ensures Held(p, len, i + 1) == Held(p, len, i) + Min(len - Held(p, len, i), p)
  {
    TimesMonotone(1, i, p);
    assert (i + 1) * p == i * p + p;
  }

  lemma AllHeld(p: nat, len: nat)
    requires p > HDR && HDR + len > p
    ensures Held(p, len, NumChunks(p, HDR + len)) == len && NumChunks(p, HDR + len) > 1
  {
    NumChunksBounds(p, HDR + len);
  }

  lemma PageInRing(c: Config, at: nat, i: nat)
    requires Valid(c) && at < c.m && i <= c.m
    ensures Moved(c, HeadOf(c, at), i) + c.p <= MaxBytes(c)
  {
    MovedIsWrap(c, at, i);
    PageInFile(Wrap(at, i, c.m), c.m, c.p);
  }

  lemma GatherNext(c: Config, file: seq<byte>, head: nat, page: Page, n: nat, len: nat, i: nat)
    requires Valid(c) && |page| == c.p && 1 <= i < n && Moved(c, head, i) + c.p <= |file|
    requires HDR + len > c.p
    ensures var pages := GatheredPages(c, file, head, page, n); var off := Held(c.p, len, i); var k := Min(len - off, c.p);
            && 0 <= k <= c.p && |Gather(c.p, pages, len, i)| == off
            && Gather(c.p, pages, len, i + 1) == Gather(c.p, pages, len, i) + file[Moved(c, head, i)..Moved(c, head, i) + k]
  {
    hide Moved, Held;
    var pages := GatheredPages(c, file, head, page, n);
    GatherLen(c.p, pages, len, i);
    NextHeld(c.p, len, i);
    assert pages[i] == file[Moved(c, head, i)..Moved(c, head, i) + c.p];
  }

  // ---- A pass over the head group ----

  function AfterGroup(g: seq<Tagged>, w: Watch): (r: seq<Tagged>)
    ensures |r| == |g|
  {
    seq(|g|, k requires 0 <= k < |g| => g[k].(rec := AfterPass(Recs(g), w)[k]))
  }

  // The file holds the pages of g from `head` on, `page` being the first.
  predicate HoldsGroup(c: Config, file: seq<byte>, head: nat, g: seq<Tagged>, page: Page)
    requires Valid(c)
  {
    var pages := GroupPages(c, g);
    |page| == c.p && GatheredPages(c, file, head, page, |pages|) == pages
  }

  // A call of processPage on the first page of a committed group: which records it reports and
  // in which order, what the group holds afterwards, and when the group is released.
  ghost predicate PassEffect(c: Config, g: seq<Tagged>, page: Page, sc: Scan, log: seq<Outcome>, w: Watch)
    requires Valid(c)
  {
    var g' := AfterGroup(g, w);
    && log == Reports(Recs(g), 0, w)
    && GroupOk(c, g') && |GroupPages(c, g)| > 0 && |sc.page| == c.p
    && GroupPages(c, g') == GroupPages(c, g)[0 := sc.page]
    && (sc.fully <==> AllFinished(Recs(g')))
    && (sc.fully ==> sc.chunks == |GroupPages(c, g)|)
    && (!sc.dirty ==> g' == g)
    && sc.minRem == MinRemaining(Recs(g), 0, 0, w)
  }

  lemma HoldsFirst(c: Config, file: seq<byte>, head: nat, g: seq<Tagged>, page: Page)
    requires Valid(c) && HoldsGroup(c, file, head, g, page) && |GroupPages(c, g)| > 0
    ensures page == GroupPages(c, g)[0]
  {
    hide GroupPages, ReadAt, Moved;
    assert GatheredPages(c, file, head, page, |GroupPages(c, g)|)[0] == page;
  }

  lemma {:induction false} PassClean(p: nat, sc: Scan, used: int, w: Watch)
    requires p > HDR && |sc.page| == p
    ensures !PassSmall(p, sc, used, w).0.dirty ==> PassSmall(p, sc, used, w).0.page == sc.page && !sc.dirty
    decreases p - sc.pos
  {
    hide OutcomeOf, Judge;
    var k := Classify(p, sc.page, sc.pos, used);
    if k.Finished? {
      UnfoldFinished(p, sc, k.size, used, w);
      PassClean(p, sc.(pos := sc.pos + k.size), used, w);
    } else if k.Small? {
      UnfoldSmall(p, sc, k.size, used, w);
      var v := Judge(w.wait, w.pressure, w.look(sc.pos));
      PassClean(p, Settle(sc, k.size, v, w.look(sc.pos), w.wait), used, w);
    }
  }

  lemma PassOnSmall(c: Config, file: seq<byte>, head: nat, g: seq<Tagged>, page: Page, used: int, w: Watch)
    requires Valid(c) && GroupOk(c, g) && !IsLargeGroup(c, g) && HoldsGroup(c, file, head, g, page)
    ensures var k := Classify(c.p, page, 0, used); k.Stop? || k.Small? || k.Finished?
    ensures var (sc, log) := Pass(c, file, head, page, used, w); PassEffect(c, g, page, sc, log, w)
  {
    hide PassSmall, EncodePage, Classify, RecordsLen;
    var rs := Recs(g);
    HoldsFirst(c, file, head, g, page);
    ClassifySmall(c.p, rs, 0, used);
    PassRefinesAll(c.p, rs, used, w);
    PassClean(c.p, Start(page), used, w);
    SmallAfter(c, g, w);
    if !Pass(c, file, head, page, used, w).0.dirty {
      SamePage(c.p, g, AfterGroup(g, w));
    }
  }

  // A page determines its records.
  lemma SamePage(p: nat, g: seq<Tagged>, g': seq<Tagged>)
    requires |g| == |g'| && AllRepresentable(Recs(g)) && AllRepresentable(Recs(g')) && RealIds(Recs(g)) && RealIds(Recs(g'))
    requires RecordsLen(Recs(g)) <= p && RecordsLen(Recs(g')) <= p && EncodePage(p, Recs(g)) == EncodePage(p, Recs(g'))
    requires forall k :: 0 <= k < |g| ==> g'[k].id == g[k].id
    ensures g == g'
  {
    hide EncodePage, RecordsLen, Parse, Representable;
    PageRoundTrip(p, Recs(g));
    PageRoundTrip(p, Recs(g'));
    assert Recs(g) == Recs(g');
    forall k | 0 <= k < |g| ensures g[k] == g'[k] {
      assert Recs(g)[k] == Recs(g')[k];
    }
  }

  lemma SmallAfter(c: Config, g: seq<Tagged>, w: Watch)
    requires Valid(c) && GroupOk(c, g) && !IsLargeGroup(c, g) && RecordsLen(AfterPass(Recs(g), w)) == RecordsLen(Recs(g))
    requires RealIds(AfterPass(Recs(g), w)) && AllRepresentable(AfterPass(Recs(g), w))
    requires forall k :: 0 <= k < |g| ==> Size(AfterPass(Recs(g), w)[k]) == Size(Recs(g)[k])
    ensures Recs(AfterGroup(g, w)) == AfterPass(Recs(g), w)
    ensures GroupOk(c, AfterGroup(g, w)) && !IsLargeGroup(c, AfterGroup(g, w))
    ensures GroupPages(c, AfterGroup(g, w)) == [EncodePage(c.p, AfterPass(Recs(g), w))]
  {
    hide EncodePage, VerdictOn, RecordsLen, Representable;
    assert Recs(AfterGroup(g, w)) == AfterPass(Recs(g), w);
  }

  // What Classify sees at the first page of a large record that is fully committed.
  lemma ClassifyLarge(c: Config, g: seq<Tagged>, used: int)
    requires Valid(c) && GroupOk(c, g) && IsLargeGroup(c, g) && |GroupPages(c, g)| * c.p <= used
    ensures GroupPages(c, g) == Chunks(c.p, g[0].rec) && |GroupPages(c, g)| > 1
    ensures Classify(c.p, Chunk(c.p, g[0].rec, 0), 0, used)
         == if Live(g[0].rec) then Large(|GroupPages(c, g)|) else LargeFinished(|GroupPages(c, g)|)
  {
    hide Classify, Chunk, NumChunks;
    ClassifyFirstPage(c.p, g[0].rec, used);
  }

  lemma PassOnLarge(c: Config, file: seq<byte>, head: nat, g: seq<Tagged>, page: Page, used: int, w: Watch)
    requires Valid(c) && GroupOk(c, g) && IsLargeGroup(c, g) && HoldsGroup(c, file, head, g, page)
    requires |GroupPages(c, g)| * c.p <= used
    ensures var (sc, log) := Pass(c, file, head, page, used, w); PassEffect(c, g, page, sc, log, w)
  {
    hide Classify, Chunk, TidAt, LenAt, NumChunks, Gather, ReadAt, Moved, Overwrite, Judge;
    var r, n := g[0].rec, |GroupPages(c, g)|;
    ClassifyLarge(c, g, used);
    HoldsFirst(c, file, head, g, page);
    LargeRecordRoundTrip(c.p, r);
    RenameLarge(c.p, r, TOMBSTONE);
    FirstChunk(c.p, r);
    IdsDiffer();
    OneReport(g, w);
  }

  // Round trip of a large record through processPage, whatever its trace ID: with its pages in the
  // file and committed, and the trace interesting, it is handed over under its own ID with its own
  // payload exactly when the ID is neither all-zero nor the tombstone. With the tombstone all its
  // pages are skipped in silence; with an all-zero ID one page is, and the rest is left behind.
  lemma LargeDeliveredIff(c: Config, file: seq<byte>, head: nat, r: Record, used: int, w: Watch)
    requires Valid(c) && Representable(r) && Size(r) > c.p && NumChunks(c.p, Size(r)) * c.p <= used
    requires GatheredPages(c, file, head, Chunk(c.p, r, 0), NumChunks(c.p, Size(r))) == Chunks(c.p, r)
    requires w.look(0).interesting
    ensures var n, (sc, log) := NumChunks(c.p, Size(r)), Pass(c, file, head, Chunk(c.p, r, 0), used, w);
            && (log == [Delivered(r.tid, r.data)] <==> r.tid != ZERO_ID && r.tid != TOMBSTONE)
            && sc.fully && (r.tid == ZERO_ID ==> sc.chunks == 1 && log == []) && (r.tid != ZERO_ID ==> sc.chunks == n)
            && (r.tid == TOMBSTONE ==> log == [])
  {
    hide Classify, Chunk, TidAt, LenAt, NumChunks, Gather, GatheredPages, ReadAt, Moved, Overwrite;
    IdsDiffer();
    ClassifyFirstPage(c.p, r, used);
    FirstChunk(c.p, r);
    LargeRecordRoundTrip(c.p, r);
    if r.tid == ZERO_ID {
      PassStopped(c.p, Start(Chunk(c.p, r, 0)), used, w);
    }
  }

  lemma OneReport(g: seq<Tagged>, w: Watch)
    requires |g| == 1
    ensures MinRemaining(Recs(g), 0, 0, w) ==
              if Live(g[0].rec) && VerdictOn(Recs(g), 0, w).Keep? then Smaller(0, w.wait - w.look(0).age) else 0
    ensures Reports(Recs(g), 0, w) == OutcomeOf(VerdictOn(Recs(g), 0, w), g[0].rec.tid, g[0].rec.data, w.look(0).age)
    ensures VerdictOn(Recs(g), 0, w) == if Live(g[0].rec) then Judge(w.wait, w.pressure, w.look(0)) else Keep
    ensures AfterGroup(g, w) == if VerdictOn(Recs(g), 0, w).Keep? then g else [g[0].(rec := g[0].rec.(tid := TOMBSTONE))]
  {
    hide Judge, OutcomeOf;
    assert Reports(Recs(g), 1, w) == [] && Offset(Recs(g), 0) == 0;
  }

  lemma PassOnGroup(c: Config, file: seq<byte>, head: nat, g: seq<Tagged>, page: Page, used: int, w: Watch)
    requires Valid(c) && GroupOk(c, g) && HoldsGroup(c, file, head, g, page) && |GroupPages(c, g)| * c.p <= used
    ensures var (sc, log) := Pass(c, file, head, page, used, w); PassEffect(c, g, page, sc, log, w)
  {
    hide Pass, PassEffect, HoldsGroup, GroupOk, GroupPages;
    if IsLargeGroup(c, g) {
      PassOnLarge(c, file, head, g, page, used, w);
    } else {
      PassOnSmall(c, file, head, g, page, used, w);
    }
  }

  // What was observed of each live record, in terms of the records.
  ghost predicate ObservedRecs(rs: seq<Record>, w: Watch, times: Index<TraceId>, t0: int, t1: int)
  {
    forall k :: 0 <= k < |rs| && Live(rs[k]) ==>
      && w.look(Offset(rs, k)).interesting == HasForSpan(times, rs[k].tid, rs[k].at, w.wait)
      && t0 <= rs[k].at + w.look(Offset(rs, k)).age <= t1
  }

  lemma ObservedOnGroup(c: Config, g: seq<Tagged>, page: Page, w: Watch, times: Index<TraceId>, t0: int, t1: int)
    requires Valid(c) && GroupOk(c, g) && |GroupPages(c, g)| > 0 && page == GroupPages(c, g)[0] && |page| == c.p
    requires Observed(page, w, times, t0, t1)
    ensures ObservedRecs(Recs(g), w, times, t0, t1)
  {
    hide EncodePage, Chunk, TidAt, TimeAt, NumChunks;
    var rs := Recs(g);
    forall k | 0 <= k < |rs| && Live(rs[k])
      ensures w.look(Offset(rs, k)).interesting == HasForSpan(times, rs[k].tid, rs[k].at, w.wait)
      ensures t0 <= rs[k].at + w.look(Offset(rs, k)).age <= t1
    {
      if IsLargeGroup(c, g) {
        FirstChunk(c.p, g[0].rec);
        assert Offset(rs, 0) == 0;
      } else {
        RecordAtOffset(c.p, rs, k);
      }
    }
  }

  // The head group, read from the file wherever the ring wraps.
  lemma HeadFacts(c: Config, file: seq<byte>, used: int, at: nat, wHead: nat, groups: seq<Group>, inflight: seq<Page>)
    requires Valid(c) && OwnedBy(c, file, used, at, wHead, groups, inflight) && groups != []
    ensures at < c.m && |file| == MaxBytes(c) && HeadOf(c, at) + c.p <= |file| && used <= MaxBytes(c)
    ensures var g := groups[0].recs;
            && GroupOk(c, g) && 0 < |GroupPages(c, g)| && |GroupPages(c, g)| * c.p <= used
            && file[HeadOf(c, at)..HeadOf(c, at) + c.p] == GroupPages(c, g)[0]
            && HoldsGroup(c, file, HeadOf(c, at), g, file[HeadOf(c, at)..HeadOf(c, at) + c.p])
  {
    hide GroupPages, Region, Flat, Moved, GroupOk;
    var g := groups[0].recs;
    RoomForHead(c, file, used, at, wHead, groups, inflight);
    RingRoom(c, file, used, at, HeadOf(c, at), wHead, groups, inflight, 0);
    PageInFile(at, c.m, c.p);
    GroupHasPages(c, g);
    forall i | 0 <= i < |GroupPages(c, g)| ensures ReadAt(file, Moved(c, HeadOf(c, at), i), c.p) == GroupPages(c, g)[i] {
      RingRead(c, file, used, at, HeadOf(c, at), wHead, groups, inflight, i);
    }
    RingRead(c, file, used, at, HeadOf(c, at), wHead, groups, inflight, 0);
    var page := file[HeadOf(c, at)..HeadOf(c, at) + c.p];
    assert GatheredPages(c, file, HeadOf(c, at), page, |GroupPages(c, g)|) == GroupPages(c, g);
  }

  lemma GroupHasPages(c: Config, g: seq<Tagged>)
    requires Valid(c) && GroupOk(c, g)
    ensures |GroupPages(c, g)| > 0
  {
    hide NumChunks;
    if IsLargeGroup(c, g) {
      NumChunksBounds(c.p, Size(g[0].rec));
    }
  }

  // The parts of a pass's effect that the main loop acts on.
  lemma EffectFacts(c: Config, g: seq<Tagged>, page: Page, sc: Scan, log: seq<Outcome>, w: Watch)
    requires Valid(c) && PassEffect(c, g, page, sc, log, w)
    ensures log == Reports(Recs(g), 0, w) && sc.minRem == MinRemaining(Recs(g), 0, 0, w)
    ensures sc.fully <==> AllFinished(AfterPass(Recs(g), w))
    ensures sc.fully ==> sc.chunks == |GroupPages(c, AfterGroup(g, w))|
    ensures !sc.dirty ==> AfterGroup(g, w) == g
    ensures GroupOk(c, AfterGroup(g, w)) && GroupPages(c, AfterGroup(g, w)) == GroupPages(c, g)[0 := sc.page]
  {
    hide GroupPages, GroupOk, Reports, VerdictOn, MinRemaining;
    assert Recs(AfterGroup(g, w)) == AfterPass(Recs(g), w);
  }

  // ---- Counting what has an outcome and what has none yet ----

  function LivesIn(groups: seq<Group>): seq<Record>
  {
    if groups == [] then [] else Lives(Recs(groups[0].recs), 0) + LivesIn(groups[1..])
  }

  // The live records from k on that a pass delivers or evicts.
  function Taken(rs: seq<Record>, k: nat, w: Watch): seq<Record>
    requires k <= |rs|
    decreases |rs| - k
  {
    if k == |rs| then []
    else (if Live(rs[k]) && !VerdictOn(rs, k, w).Keep? then [rs[k]] else []) + Taken(rs, k + 1, w)
  }

  // A pass answers the records it takes out, in order, and leaves the others live.
  lemma {:induction false} TakenAnswered(rs: seq<Record>, k: nat, w: Watch)
    requires k <= |rs|
    ensures Answers(Taken(rs, k, w), Reports(rs, k, w))
    ensures multiset(Taken(rs, k, w)) + multiset(Lives(AfterPass(rs, w), k)) == multiset(Lives(rs, k))
    decreases |rs| - k
  {
    hide Judge, Offset, Answers, VerdictOn, Reports, AfterPass, Live;
    if k == |rs| {
      NothingTaken(rs, w);
    } else {
      TakenAnswered(rs, k + 1, w);
      TakenFirst(rs, k, w);
      var v := VerdictOn(rs, k, w);
      var heard := if Live(rs[k]) && !v.Keep? then [rs[k]] else [];
      var said := if Live(rs[k]) then OutcomeOf(v, rs[k].tid, rs[k].data, w.look(Offset(rs, k)).age) else [];
      AnswersAppend(heard, said, Taken(rs, k + 1, w), Reports(rs, k + 1, w));
    }
  }

  lemma NothingTaken(rs: seq<Record>, w: Watch)
    ensures Reports(rs, |rs|, w) == [] && Answers([], [])
  {
  }

  lemma TakenFirst(rs: seq<Record>, k: nat, w: Watch)
    requires k < |rs|
    ensures var v := VerdictOn(rs, k, w);
            var heard := if Live(rs[k]) && !v.Keep? then [rs[k]] else [];
            var said := if Live(rs[k]) then OutcomeOf(v, rs[k].tid, rs[k].data, w.look(Offset(rs, k)).age) else [];
            && Answers(heard, said) && Reports(rs, k, w) == said + Reports(rs, k + 1, w)
            && (Live(AfterPass(rs, w)[k]) <==> Live(rs[k]) && v.Keep?)
            && (Live(AfterPass(rs, w)[k]) ==> AfterPass(rs, w)[k] == rs[k])
  {
    hide Judge, Offset;
  }

  lemma {:induction false} FinishedHasNoLives(rs: seq<Record>, k: nat)
    requires AllFinished(rs) && k <= |rs|
    ensures Lives(rs, k) == []
    decreases |rs| - k
  {
    if k < |rs| {
      FinishedHasNoLives(rs, k + 1);
    }
  }

  lemma {:induction false} LivesAppend(a: seq<Group>, b: seq<Group>)
    ensures LivesIn(a + b) == LivesIn(a) + LivesIn(b)
  {
    hide Lives;
    if a == [] {
      assert a + b == b;
    } else {
      LivesAppend(a[1..], b);
      assert (a + b)[1..] == a[1..] + b;
    }
  }

  // The head group before and after a pass over it.
  lemma HeadTaken(groups: seq<Group>, w: Watch, groups': seq<Group>)
    requires groups != []
    requires var g := groups[0].recs;
             groups' == if AllFinished(AfterPass(Recs(g), w)) then groups[1..] else groups[0 := groups[0].(recs := AfterGroup(g, w))]
    ensures Answers(Taken(Recs(groups[0].recs), 0, w), Reports(Recs(groups[0].recs), 0, w))
    ensures multiset(Taken(Recs(groups[0].recs), 0, w)) + multiset(LivesIn(groups')) == multiset(LivesIn(groups))
  {
    hide Lives, Reports, Taken, AfterPass, Judge, AllFinished, Answers;
    var g := groups[0].recs;
    TakenAnswered(Recs(g), 0, w);
    assert Recs(AfterGroup(g, w)) == AfterPass(Recs(g), w);
    if AllFinished(AfterPass(Recs(g), w)) {
      FinishedHasNoLives(AfterPass(Recs(g), w), 0);
    }
  }

  lemma EmptyRing(c: Config, file: seq<byte>, used: int, at: nat, wHead: nat, groups: seq<Group>, inflight: seq<Page>)
    requires Valid(c) && OwnedBy(c, file, used, at, wHead, groups, inflight)
    ensures used == 0 <==> groups == []
  {
    hide GroupPages, Region, GroupOk;
    RingRoom(c, file, used, at, HeadOf(c, at), wHead, groups, inflight, 0);
    if groups != [] {
      FlatHead(c, groups);
      GroupHasPages(c, groups[0].recs);
    }
  }

  class SweeperLoop {
    const ring: SharedRing
    const index: InterestIndex<TraceId>
    const scratch: array<byte>
    var rHead: nat
    var calls: seq<Outcome>  // the onMatch and evictObs callbacks made, in order

    ghost predicate Ready()
      reads this, ring, index, index.clock, index.list
    {
      && Valid(ring.c) && index.Valid() && index.wait == ring.c.wait
      && scratch != ring.file && scratch.Length == ring.c.p
      && ring.file.Length == MaxBytes(ring.c)
    }

    constructor (ring: SharedRing, index: InterestIndex<TraceId>)
      requires Valid(ring.c) && index.Valid() && index.wait == ring.c.wait && ring.file.Length == MaxBytes(ring.c)
      ensures Ready() && this.ring == ring && this.index == index && fresh(scratch) && rHead == 0 && calls == []
    {
      this.ring, this.index := ring, index;
      scratch := new byte[ring.c.p](_ => 0);
      rHead, calls := 0, [];
    }

    // The loop over a page of small records, tombstoning in place.
    method ScanSmall(used: int, pressure: bool) returns (fully: bool, minRem: int, dirty: bool, ghost w: Watch)
      requires Ready()
      requires var k := Classify(ring.c.p, scratch[..], 0, used); k.Stop? || k.Small? || k.Finished?
      modifies scratch, this`calls, index.clock
      ensures Ready() && old(index.clock.now) <= index.clock.now
      ensures w.wait == ring.c.wait && w.pressure == pressure
      ensures Observed(old(scratch[..]), w, index.times, old(index.clock.now), index.clock.now)
      ensures PassSmall(ring.c.p, Start(old(scratch[..])), used, w).0.page == scratch[..]
      ensures PassSmall(ring.c.p, Start(old(scratch[..])), used, w).0.fully == fully
      ensures PassSmall(ring.c.p, Start(old(scratch[..])), used, w).0.minRem == minRem
      ensures PassSmall(ring.c.p, Start(old(scratch[..])), used, w).0.dirty == dirty
      ensures calls == old(calls) + PassSmall(ring.c.p, Start(old(scratch[..])), used, w).1
    {
      hide Midway, PassSmall, TidAt, LenAt, Observed, Classify, Settle, Told, Judge, Seeing, Unseen, Listed;
      ghost var page, t0, p := scratch[..], index.clock.now, ring.c.p;
      fully, minRem, dirty := true, 0, false;
      var pos := 0;
      w := Unseen(page, index.times, ring.c.wait, pressure, t0);
      ghost var done: seq<Outcome> := [];
      MidwayStart(p, page, used, ring.c.wait, pressure, index.times, t0);
      while pos + HDR <= ring.c.p
        invariant Ready() && pos <= p && (pos == 0 ==> scratch[..] == page)
        invariant w.wait == ring.c.wait && w.pressure == pressure
        invariant Midway(p, page, used, w, Scan(scratch[..], pos, fully, 1, minRem, dirty), done,
                         index.times, t0, index.clock.now)
        invariant calls == old(calls) + done
        decreases ring.c.p - pos
      {
        var size := NextSmall(pos, used);
        if size == 0 {
          break;
        }
        ghost var sc, now := Scan(scratch[..], pos, fully, 1, minRem, dirty), index.clock.now;
        if scratch[pos..pos + 16] == TOMBSTONE {
          MidwayFinished(p, page, used, w, sc, done, index.times, t0, now, size);
        } else {
          var look := LookAtRecord(pos);
          MidwaySmall(p, page, used, w, sc, done, index.times, t0, now, size, look, index.clock.now);
          done := done + Told(sc, size, look, Judge(ring.c.wait, pressure, look));
          fully, minRem, dirty := JudgeRecord(pos, size, pressure, look, fully, minRem, dirty);
          w := Seeing(w, pos, look);
        }
        pos := pos + size;
      }
      if pos + HDR > p {
        PageOver(p, scratch[..], pos, used);
      }
      MidwayEnd(p, page, used, w, Scan(scratch[..], pos, fully, 1, minRem, dirty), done, index.times, t0, index.clock.now);
    }

    // Size of the small record at pos, or 0 at the end of the page.
    method NextSmall(pos: nat, used: int) returns (size: nat)
      requires Ready() && pos + HDR <= ring.c.p
      requires pos == 0 ==> var k := Classify(ring.c.p, scratch[..], 0, used); k.Stop? || k.Small? || k.Finished?
      ensures size == 0 ==> Classify(ring.c.p, scratch[..], pos, used).Stop?
      ensures size > 0 ==> size >= HDR && pos + size <= ring.c.p
      ensures size > 0 ==>
                Classify(ring.c.p, scratch[..], pos, used) == if scratch[pos..pos + 16] == TOMBSTONE then Finished(size) else Small(size)
    {
      hide NumChunks;
      assert scratch[..][pos..pos + 16] == scratch[pos..pos + 16];
      assert scratch[..][pos + 24..pos + 28] == scratch[pos + 24..pos + 28];
      var tid := scratch[pos..pos + 16];
      if tid == ZERO_ID {
        return 0;
      }
      size := HDR + GetBE(scratch[pos + 24..pos + 28]);
      if pos + size > ring.c.p {
        size := 0;
      }
    }

    // Deliver, evict or keep one small record: the callback, then the tombstone.
    method JudgeRecord(pos: nat, size: nat, pressure: bool, look: Look, fully0: bool, minRem0: int, dirty0: bool)
      returns (fully: bool, minRem: int, dirty: bool)
      requires Ready() && size >= HDR && pos + size <= ring.c.p
      modifies scratch, this`calls
      ensures Ready()
      ensures var sc, v := Scan(old(scratch[..]), pos, fully0, 1, minRem0, dirty0), Judge(ring.c.wait, pressure, look);
              && Scan(scratch[..], pos + size, fully, 1, minRem, dirty) == Settle(sc, size, v, look, ring.c.wait)
              && calls == old(calls) + Told(sc, size, look, v)
    {
      hide Listed;
      fully, minRem, dirty := fully0, minRem0, dirty0;
      var v := Judge(ring.c.wait, pressure, look);
      assert scratch[..][pos..pos + 16] == scratch[pos..pos + 16];
      assert scratch[..][pos + HDR..pos + size] == scratch[pos + HDR..pos + size];
      calls := calls + OutcomeOf(v, scratch[pos..pos + 16], scratch[pos + HDR..pos + size], look.age);
      if v.Keep? {
        minRem := Smaller(minRem, ring.c.wait - look.age);
        fully := false;
      } else {
        var n := Copy(scratch, pos, TOMBSTONE);
        assert TOMBSTONE[..n] == TOMBSTONE;
        dirty := true;
      }
    }

    // Interest first, then the age, as the loop observes them.
    method LookAtRecord(pos: nat) returns (look: Look)
      requires Ready() && pos + HDR <= scratch.Length
      modifies index.clock
      ensures Ready() && old(index.clock.now) <= index.clock.now
      ensures look.interesting == HasForSpan(index.times, TidAt(scratch[..], pos), TimeAt(scratch[..], pos), ring.c.wait)
      ensures look.age == index.clock.now - TimeAt(scratch[..], pos)
    {
      hide Listed;
      assert scratch[..][pos..pos + 16] == scratch[pos..pos + 16];
      assert scratch[..][pos + 16..pos + 24] == scratch[pos + 16..pos + 24];
      var at := FromU64(GetBE(scratch[pos + 16..pos + 24]));
      var yes := index.HasInterestForSpan(scratch[pos..pos + 16], at);
      var now := index.clock.Read();
      look := Look(yes, now - at);
    }

    // Reassembles a large record: the rest of the page in hand, then the continuation pages,
    // wrapping round the end of the file.
    method GatherPayload(n: nat, len: nat) returns (data: seq<byte>)
      requires Ready() && HDR + len > ring.c.p && n == NumChunks(ring.c.p, HDR + len) <= ring.c.m
      requires ring.at < ring.c.m && rHead == HeadOf(ring.c, ring.at)
      ensures n > 1 && data == Gather(ring.c.p, GatheredPages(ring.c, ring.file[..], rHead, scratch[..], n), len, n)
    {
      hide Moved, NumChunks, Gather, GatheredPages, Listed, HeadOf, Held;
      AllHeld(ring.c.p, len);
      ghost var pages := GatheredPages(ring.c, ring.file[..], rHead, scratch[..], n);
      var payload := new byte[len](_ => 0);
      var off := Copy(payload, 0, scratch[HDR..ring.c.p]);
      FirstHeld(ring.c, ring.file[..], rHead, scratch[..], n, len);
      assert payload[..off] == Gather(ring.c.p, pages, len, 1);
      for i := 1 to n
        invariant 0 <= off == Held(ring.c.p, len, i) <= payload.Length
        invariant payload[..off] == Gather(ring.c.p, pages, len, i)
      {
        PageInRing(ring.c, ring.at, i);
        NextHeld(ring.c.p, len, i);
        GatherNext(ring.c, ring.file[..], rHead, scratch[..], n, len, i);
        var remaining := if len - off < ring.c.p then len - off else ring.c.p;
        ring.ReadFrom(payload, off, Moved(ring.c, rHead, i), remaining);
        off := off + remaining;
      }
      data := payload[..];
    }

    // The sweeper's head is the shared one, and `used` counts no more than the file.
    ghost predicate Sound(wHead: nat, inflight: seq<Page>)
      reads this, ring, ring.file, index, index.clock, index.list
    {
      Ready() && ring.Owned(wHead, inflight) && rHead == HeadOf(ring.c, ring.at)
    }

    // processPage up to the write-back: the page in hand is scanned and tombstoned in place.
    method ScanPage(used: int, closing: bool)
      returns (fully: bool, chunks: nat, minRem: int, dirty: bool, ghost w: Watch)
      requires Ready() && ring.at < ring.c.m && rHead == HeadOf(ring.c, ring.at) && used <= MaxBytes(ring.c)
      modifies scratch, this`calls, index.clock
      ensures Ready() && old(index.clock.now) <= index.clock.now
      ensures w.wait == ring.c.wait && w.pressure == Pressure(ring.c, used, closing)
      ensures Observed(old(scratch[..]), w, index.times, old(index.clock.now), index.clock.now)
      ensures var (sc, log) := Pass(ring.c, ring.file[..], rHead, old(scratch[..]), used, w);
              && scratch[..] == sc.page && fully == sc.fully && chunks == sc.chunks && minRem == sc.minRem && dirty == sc.dirty
              && calls == old(calls) + log
    {
      hide PassSmall, Observed, NumChunks, Gather, GatheredPages, Listed, HeadOf;
      var pressure := used > MaxBytes(ring.c) * 3 / 4 || closing;
      var kind := Classify(ring.c.p, scratch[..], 0, used);
      LargeKind(ring.c.p, scratch[..], used);
      if kind.Large? {
        fully, chunks, minRem, dirty, w := ScanLarge(kind.chunks, pressure);
      } else if kind.LargeFinished? || kind.LargeEarly? {
        w := Unseen(scratch[..], index.times, ring.c.wait, pressure, index.clock.now);
        UnseenObserved(scratch[..], index.times, ring.c.wait, pressure, index.clock.now);
        fully, chunks, minRem, dirty := kind.LargeFinished?, if kind.LargeFinished? then kind.chunks else 1, 0, false;
        assert calls + [] == calls;
      } else {
        fully, minRem, dirty, w := ScanSmall(used, pressure);
        chunks := 1;
        ChunksKept(ring.c.p, Start(old(scratch[..])), used, w);
      }
    }

    // A live large record at the front of the page.
    method ScanLarge(n: nat, pressure: bool)
      returns (fully: bool, chunks: nat, minRem: int, dirty: bool, ghost w: Watch)
      requires Ready() && ring.at < ring.c.m && rHead == HeadOf(ring.c, ring.at)
      requires n == NumChunks(ring.c.p, HDR + LenAt(scratch[..], 0)) && n * ring.c.p <= MaxBytes(ring.c)
      requires HDR + LenAt(scratch[..], 0) > ring.c.p
      modifies scratch, this`calls, index.clock
      ensures Ready() && old(index.clock.now) <= index.clock.now && n > 0
      ensures w.wait == ring.c.wait && w.pressure == pressure
      ensures Observed(old(scratch[..]), w, index.times, old(index.clock.now), index.clock.now)
      ensures var (sc, log) := PassLarge(ring.c, ring.file[..], rHead, old(scratch[..]), n, w);
              && scratch[..] == sc.page && fully == sc.fully && chunks == sc.chunks && minRem == sc.minRem && dirty == sc.dirty
              && calls == old(calls) + log
    {
      hide Observed, NumChunks, Gather, GatheredPages, Listed, HeadOf, TidAt, TimeAt;
      ghost var page, t0 := scratch[..], index.clock.now;
      w := Unseen(page, index.times, ring.c.wait, pressure, t0);
      UnseenObserved(page, index.times, ring.c.wait, pressure, t0);
      AllHeld(ring.c.p, LenAt(page, 0));
      FewPages(ring.c, n);
      var look := LookAtRecord(0);
      ObservedMore(page, w, index.times, t0, t0, Start(page), look, index.clock.now);
      w := Seeing(w, 0, look);
      assert w.look(0) == look;
      var v := Judge(ring.c.wait, pressure, look);
      if v.Keep? {
        fully, chunks, minRem, dirty := false, 1, Smaller(0, ring.c.wait - look.age), false;
        assert calls + [] == calls;
      } else {
        var data := GatherPayload(n, LenAt(scratch[..], 0));
        calls := calls + OutcomeOf(v, TidAt(scratch[..], 0), data, look.age);
        var k := Copy(scratch, 0, TOMBSTONE);
        assert TOMBSTONE[..k] == TOMBSTONE;
        fully, chunks, minRem, dirty := true, n, 0, true;
      }
    }

    // One turn of the main loop: read the head page, pass over it, write it back if it changed,
    // and release the group if nothing in it is left.
    method Iterate(closing: bool, ghost wHead: nat, ghost inflight: seq<Page>)
      returns (fully: bool, minRem: int, ghost w: Watch)
      requires Sound(wHead, inflight) && ring.groups != []
      modifies this, scratch, ring, ring.file, index.clock
      ensures Sound(wHead, inflight) && old(index.clock.now) <= index.clock.now
      ensures w.wait == ring.c.wait && w.pressure == Pressure(ring.c, old(ring.used), closing)
      ensures ObservedRecs(Recs(old(ring.groups)[0].recs), w, index.times, old(index.clock.now), index.clock.now)
      ensures calls == old(calls) + Reports(Recs(old(ring.groups)[0].recs), 0, w)
      ensures fully <==> AllFinished(AfterPass(Recs(old(ring.groups)[0].recs), w))
      ensures minRem == MinRemaining(Recs(old(ring.groups)[0].recs), 0, 0, w) && (fully ==> ring.pageFreed)
      ensures ring.groups == if fully then old(ring.groups)[1..]
                             else old(ring.groups)[0 := old(ring.groups)[0].(recs := AfterGroup(old(ring.groups)[0].recs, w))]
    {
      hide OwnedBy, Listed, GroupPages, GroupOk, HeadOf, Moved, Pass, MinRemaining, Observed, ObservedRecs, AfterGroup, Reports, AllFinished, PassEffect, HoldsGroup, Pressure, Put;
      ghost var g := ring.groups[0].recs;
      HeadFacts(ring.c, ring.file[..], ring.used, ring.at, wHead, ring.groups, inflight);
      ring.ReadFrom(scratch, 0, rHead, ring.c.p);
      ghost var page := scratch[..];
      assert page == ring.file[..][rHead..rHead + ring.c.p];
      ghost var file := ring.file[..];
      var used := ring.used;
      var chunks, dirty;
      fully, chunks, minRem, dirty, w := ScanPage(used, closing);
      PassOnGroup(ring.c, file, rHead, g, page, used, w);
      ObservedOnGroup(ring.c, g, page, w, index.times, old(index.clock.now), index.clock.now);
      ghost var done := Pass(ring.c, file, rHead, page, used, w);
      EffectFacts(ring.c, g, page, done.0, done.1, w);
      if dirty {
        ring.WriteBack(scratch, rHead, AfterGroup(g, w), wHead, inflight);
      }
      if fully {
        ring.Release(chunks, wHead, inflight);
        rHead := Moved(ring.c, rHead, chunks);
      }
    }

    // After the writer is done: the main loop empties the ring without ever parking, and makes
    // exactly one callback per live record, in order.
    method Drain(ghost wHead: nat)
      requires Sound(wHead, [])
      modifies this, scratch, ring, ring.file, index.clock
      ensures Sound(wHead, []) && ring.used == 0 && ring.groups == []
      ensures |calls| >= |old(calls)| && calls[..|old(calls)|] == old(calls)
      ensures Answers(LivesIn(old(ring.groups)), calls[|old(calls)|..])
    {
      hide *;
      ghost var done: seq<Outcome>, before: seq<Record> := [], [];
      AnswersNone();
      RingEmptyIff(wHead, []);
      while ring.used != 0
        invariant Sound(wHead, []) && (ring.used == 0 <==> ring.groups == [])
        invariant calls == old(calls) + done && Answers(before, done)
        invariant before + LivesIn(ring.groups) == LivesIn(old(ring.groups))
        decreases |ring.groups|
      {
        ghost var g, groups, used := Recs(ring.groups[0].recs), ring.groups, ring.used;
        var fully, minRem, w := Iterate(true, wHead, []);
        ClosingIsPressure(ring.c, used);
        DrainStep(groups, w, before, done);
        done, before := done + Reports(g, 0, w), before + Lives(g, 0);
        RingEmptyIff(wHead, []);
      }
      NoLives();
      assert before + [] == before;
      assert calls[|old(calls)|..] == done;
    }

    lemma RingEmptyIff(wHead: nat, inflight: seq<Page>)
      requires Sound(wHead, inflight)
      ensures ring.used == 0 <==> ring.groups == []
    {
      EmptyRing(ring.c, ring.file[..], ring.used, ring.at, wHead, ring.groups, inflight);
    }

    // The main loop: it parks on an empty ring or an unfinished page, is woken `wakeups` times,
    // and then finds the writer done. The writer may commit groups while the sweeper is parked and,
    // `bursts` times, between any two turns. In the end every record that was there or arrived
    // has been answered by one callback, which carries its own ID and payload if it delivers.
    method RunSweeper(wakeups: nat, bursts: nat, ghost wHead0: nat, ghost inflight0: seq<Page>)
      returns (ghost arrived: seq<Group>, ghost answered: seq<Record>)
      requires Sound(wHead0, inflight0)
      modifies this, scratch, ring, ring.file, index.clock
      ensures ring.used == 0 && ring.groups == []
      ensures |calls| >= |old(calls)| && calls[..|old(calls)|] == old(calls)
      ensures Answers(answered, calls[|old(calls)|..])
      ensures multiset(answered) == multiset(LivesIn(old(ring.groups))) + multiset(LivesIn(arrived))
    {
      hide *;
      var left, more, closing := wakeups, bursts, false;
      ghost var wHead, inflight := wHead0, inflight0;
      ghost var made: seq<Outcome> := [];
      arrived, answered := [], [];
      NoLives();
      AnswersNone();
      while true
        invariant Sound(wHead, inflight)
        invariant calls == old(calls) + made && Answers(answered, made)
        invariant multiset(answered) + multiset(LivesIn(ring.groups)) == multiset(LivesIn(old(ring.groups))) + multiset(LivesIn(arrived))
        decreases left + more, if closing then 0 else 1, |ring.groups|
      {
        var busy := *;
        if busy && more > 0 && !closing {
          more := more - 1;
          ghost var before, came := LivesIn(ring.groups), LivesIn(arrived);
          wHead, inflight, arrived := Woken(wHead, inflight, arrived);
          SameArrivals(multiset(answered), multiset(before), multiset(LivesIn(old(ring.groups))), multiset(came),
                       multiset(LivesIn(ring.groups)), multiset(LivesIn(arrived)));
          continue;
        }
        RingEmptyIff(wHead, inflight);
        var parked := true;
        if ring.used != 0 {
          ghost var said, heard;
          parked, said, heard := Turn(closing, wHead, inflight);
          AnswersAppend(answered, made, heard, said);
          assert multiset(answered + heard) == multiset(answered) + multiset(heard);
          made, answered := made + said, answered + heard;
        } else if closing {
          NoLives();
          assert calls[|old(calls)|..] == made;
          return;
        }
        if parked {
          if left == 0 {
            closing := true;
          } else {
            left := left - 1;
            ghost var before, came := LivesIn(ring.groups), LivesIn(arrived);
            wHead, inflight, arrived := Woken(wHead, inflight, arrived);
            SameArrivals(multiset(answered), multiset(before), multiset(LivesIn(old(ring.groups))), multiset(came),
                         multiset(LivesIn(ring.groups)), multiset(LivesIn(arrived)));
          }
        }
      }
    }

    method Turn(closing: bool, ghost wHead: nat, ghost inflight: seq<Page>)
      returns (parked: bool, ghost said: seq<Outcome>, ghost heard: seq<Record>)
      requires Sound(wHead, inflight) && ring.groups != []
      modifies this, scratch, ring, ring.file, index.clock
      ensures Sound(wHead, inflight)
      ensures calls == old(calls) + said && Answers(heard, said)
      ensures multiset(heard) + multiset(LivesIn(ring.groups)) == multiset(LivesIn(old(ring.groups)))
      ensures !parked ==> |ring.groups| < |old(ring.groups)|
      ensures closing ==> !parked
    {
      hide Ready, OwnedBy, Lives, Reports, Taken, Answers, AfterPass, AfterGroup, LivesIn;
      ghost var groups := ring.groups;
      var fully, minRem, w := Iterate(closing, wHead, inflight);
      HeadTaken(groups, w, ring.groups);
      said, heard := Reports(Recs(groups[0].recs), 0, w), Taken(Recs(groups[0].recs), 0, w);
      if closing {
        PressureSettlesAll(Recs(groups[0].recs), 0, w);
      }
      parked := !fully;
    }

    method Woken(ghost wHead: nat, ghost inflight: seq<Page>, ghost arrived: seq<Group>)
      returns (ghost wHead': nat, ghost inflight': seq<Page>, ghost arrived': seq<Group>)
      requires Sound(wHead, inflight)
      modifies ring, ring.file
      ensures Sound(wHead', inflight')
      ensures multiset(LivesIn(ring.groups)) + multiset(LivesIn(arrived))
           == multiset(LivesIn(old(ring.groups))) + multiset(LivesIn(arrived'))
    {
      hide OwnedBy, Listed, LivesIn;
      ghost var added;
      wHead', inflight', added := ring.WriterRuns(wHead, inflight);
      arrived' := arrived + added;
      LivesAppend(old(ring.groups), added);
      LivesAppend(arrived, added);
    }
  }

  // What comes into the ring has arrived, and the balance stays.
  lemma SameArrivals<T>(a: multiset<T>, g: multiset<T>, o: multiset<T>, r: multiset<T>, g': multiset<T>, r': multiset<T>)
    requires a + g == o + r && g' + r == g + r'
    ensures a + g' == o + r'
  {
    forall x ensures (a + g')[x] == (o + r')[x] {
      assert (a + g)[x] == (o + r)[x] && (g' + r)[x] == (g + r')[x];
    }
  }

  lemma AnswersNone()
    ensures Answers([], [])
  {
  }

  lemma NoLives()
    ensures LivesIn([]) == []
  {
  }

  lemma ClosingIsPressure(c: Config, used: int)
    ensures Pressure(c, used, true)
  {
  }

  lemma AnswersAppend(a: seq<Record>, x: seq<Outcome>, b: seq<Record>, y: seq<Outcome>)
    requires Answers(a, x) && Answers(b, y)
    ensures Answers(a + b, x + y)
  {
  }

  lemma DrainStep(groups: seq<Group>, w: Watch, before: seq<Record>, done: seq<Outcome>)
    requires groups != [] && w.pressure && Answers(before, done)
    ensures var g := Recs(groups[0].recs);
            && AllFinished(AfterPass(g, w))
            && Answers(before + Lives(g, 0), done + Reports(g, 0, w))
            && before + LivesIn(groups) == before + Lives(g, 0) + LivesIn(groups[1..])
  {
    hide Lives, Reports, AfterPass, AllFinished, Answers;
    var g := Recs(groups[0].recs);
    PressureSettlesAll(g, 0, w);
    AnswersAppend(before, done, Lives(g, 0), Reports(g, 0, w));
  }

  lemma LargeKind(p: nat, page: Page, used: int)
    requires p > HDR && |page| == p
    ensures var kind := Classify(p, page, 0, used);
            kind.Large? ==> kind.chunks == NumChunks(p, HDR + LenAt(page, 0)) && kind.chunks * p <= used
                            && HDR + LenAt(page, 0) > p
  {
    hide NumChunks;
  }

  lemma FewPages(c: Config, n: nat)
    requires Valid(c) && n * c.p <= MaxBytes(c)
    ensures n <= c.m
  {
    if n > c.m {
      ChunkFits(c.m, n, c.p);
    }
  }

  lemma UnseenObserved(page: Page, times: Index<TraceId>, wait: int, pressure: bool, t0: int)
    ensures Observed(page, Unseen(page, times, wait, pressure, t0), times, t0, t0)
  {
    hide TidAt, TimeAt;
  }

  lemma {:induction false} ChunksKept(p: nat, sc: Scan, used: int, w: Watch)
    requires p > HDR && |sc.page| == p
    ensures PassSmall(p, sc, used, w).0.chunks == sc.chunks
    decreases p - sc.pos
  {
    hide OutcomeOf, Judge, PassSmall, Overwrite, Classify, Settle, TidAt, PayloadAt;
    var k := Classify(p, sc.page, sc.pos, used);
    if k.Finished? {
      SizePositive(p, sc, used);
      UnfoldFinished(p, sc, k.size, used, w);
      ChunksKept(p, sc.(pos := sc.pos + k.size), used, w);
    } else if k.Small? {
      SizePositive(p, sc, used);
      UnfoldSmall(p, sc, k.size, used, w);
      var v := Judge(w.wait, w.pressure, w.look(sc.pos));
      SettleChunks(sc, k.size, v, w.look(sc.pos), w.wait);
      ChunksKept(p, Settle(sc, k.size, v, w.look(sc.pos), w.wait), used, w);
    } else {
      PassStopped(p, sc, used, w);
    }
  }

  lemma SizePositive(p: nat, sc: Scan, used: int)
    requires p > HDR && |sc.page| == p
    ensures var k := Classify(p, sc.page, sc.pos, used); k.Finished? || k.Small? ==> k.size > 0 && sc.pos + k.size <= p
  {
  }

  lemma SettleChunks(sc: Scan, size: nat, v: Verdict, look: Look, wait: int)
    requires sc.pos + 16 <= |sc.page|
    ensures Settle(sc, size, v, look, wait).chunks == sc.chunks
  {
  }

  lemma FirstHeld(c: Config, file: seq<byte>, head: nat, page: Page, n: nat, len: nat)
    requires Valid(c) && |page| == c.p && n >= 1 && HDR + len > c.p
    ensures Held(c.p, len, 1) == c.p - HDR
    ensures Gather(c.p, GatheredPages(c, file, head, page, n), len, 1) == page[HDR..c.p]
  {
  }
}
