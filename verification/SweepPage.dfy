// One pass of the sweeper over the page at the read head (processPage in buffer.go).
module SweepPage {
  import opened Bytes
  import opened Records
  import opened PageCodec
  import opened Ring

  // What the pass does with the bytes at its position before it asks for interest or the time.
  datatype Kind =
    | Stop                                  // end of the page
    | Finished(size: nat)                   // a tombstoned small record
    | Small(size: nat)                      // a live small record
    | LargeFinished(chunks: nat)            // a tombstoned large record
    | LargeEarly                            // a large record whose pages are not all committed
    | Large(chunks: nat)                    // a live large record

  function Classify(p: nat, page: Page, pos: nat, used: int): Kind
    requires p > HDR && |page| == p
  {
    if pos + HDR > p || TidAt(page, pos) == ZERO_ID then Stop
    else
      var size := HDR + LenAt(page, pos);
      if pos == 0 && size > p then
        var n := NumChunks(p, size);
        if TidAt(page, pos) == TOMBSTONE then LargeFinished(n)
        else if n * p > used then LargeEarly
        else Large(n)
      else if pos + size > p then Stop
      else if TidAt(page, pos) == TOMBSTONE then Finished(size)
      else Small(size)
  }

  // What is observed when a live record is examined: interest first, then its age.
  datatype Look = Look(interesting: bool, age: int)
  // Everything a pass depends on besides the page: the decision window, whether it discards
  // without waiting, and what it observes at each byte position.
  datatype Watch = Watch(wait: int, pressure: bool, look: nat -> Look)
  datatype Verdict = Deliver | Evict | Keep
  datatype Outcome = Delivered(tid: TraceId, payload: seq<byte>) | Evicted(age: int)

  function Judge(wait: int, pressure: bool, look: Look): Verdict
  {
    if look.interesting then Deliver
    else if look.age >= wait || pressure then Evict
    else Keep
  }

  // The local variables of the pass.
  datatype Scan = Scan(page: Page, pos: nat, fully: bool, chunks: nat, minRem: int, dirty: bool)

  function Start(page: Page): Scan
  {
    Scan(page, 0, true, 1, 0, false)
  }

  function Smaller(minRem: int, remaining: int): int
  {
    if minRem == 0 || remaining < minRem then remaining else minRem
  }

  // Effect of a verdict on a small record of the given size at sc.pos.
  function Settle(sc: Scan, size: nat, v: Verdict, look: Look, wait: int): (r: Scan)
    requires sc.pos + 16 <= |sc.page|
    ensures |r.page| == |sc.page| && r.pos == sc.pos + size
  {
    if v.Keep? then sc.(fully := false, minRem := Smaller(sc.minRem, wait - look.age), pos := sc.pos + size)
    else sc.(page := Overwrite(sc.page, sc.pos, TOMBSTONE), dirty := true, pos := sc.pos + size)
  }

  function OutcomeOf(v: Verdict, tid: TraceId, payload: seq<byte>, age: int): seq<Outcome>
  {
    match v
    case Deliver => [Delivered(tid, payload)]
    case Evict => [Evicted(age)]
    case Keep => []
  }

  // The rest of a pass over a page of small records, with the observation made at each position.
  function PassSmall(p: nat, sc: Scan, used: int, w: Watch): (r: (Scan, seq<Outcome>))
    requires p > HDR && |sc.page| == p
    decreases p - sc.pos
  {
    var k := Classify(p, sc.page, sc.pos, used);
    if k.Finished? then PassSmall(p, sc.(pos := sc.pos + k.size), used, w)
    else if k.Small? then
      var v := Judge(w.wait, w.pressure, w.look(sc.pos));
      var payload := PayloadAt(sc.page, sc.pos, k.size - HDR);
      var out := OutcomeOf(v, TidAt(sc.page, sc.pos), payload, w.look(sc.pos).age);
      var (sc', log) := PassSmall(p, Settle(sc, k.size, v, w.look(sc.pos), w.wait), used, w);
      (sc', out + log)
    else (sc, [])
  }

  // ---- The same pass on records: each live record is judged on its own ----

  function VerdictOn(rs: seq<Record>, k: nat, w: Watch): Verdict
    requires k < |rs|
  {
    if rs[k].tid == TOMBSTONE then Keep else Judge(w.wait, w.pressure, w.look(Offset(rs, k)))
  }

  // The records after the pass: those delivered or evicted are tombstoned in place.
  function AfterPass(rs: seq<Record>, w: Watch): (r: seq<Record>)
    ensures |r| == |rs|
  {
    seq(|rs|, k requires 0 <= k < |rs| =>
      if VerdictOn(rs, k, w).Keep? then rs[k] else rs[k].(tid := TOMBSTONE))
  }

  // What the pass reports, in record order.
  function Reports(rs: seq<Record>, k: nat, w: Watch): seq<Outcome>
    requires k <= |rs|
    decreases |rs| - k
  {
    if k == |rs| then [] else
      OutcomeOf(VerdictOn(rs, k, w), rs[k].tid, rs[k].data, w.look(Offset(rs, k)).age)
      + Reports(rs, k + 1, w)
  }

  predicate Live(r: Record)
  {
    r.tid != TOMBSTONE
  }

  predicate AllFinished(rs: seq<Record>)
  {
    forall k :: 0 <= k < |rs| ==> !Live(rs[k])
  }

  predicate RealIds(rs: seq<Record>)
  {
    forall k :: 0 <= k < |rs| ==> rs[k].tid != ZERO_ID
  }

  // What Classify sees at the k-th record of a page of small records, whatever their trace IDs.
  lemma ClassifySmall(p: nat, rs: seq<Record>, k: nat, used: int)
    requires p > HDR && AllRepresentable(rs) && RecordsLen(rs) <= p && k <= |rs|
    ensures Offset(rs, k) <= p
    ensures Classify(p, EncodePage(p, rs), Offset(rs, k), used)
         == if k == |rs| || rs[k].tid == ZERO_ID then Stop
            else if Live(rs[k]) then Small(Size(rs[k])) else Finished(Size(rs[k]))
  {
    hide EncodePage, TidAt, LenAt, NumChunks;
    OffsetMonotone(rs, k, |rs|);
    if k == |rs| {
      if Offset(rs, k) + HDR <= p {
        PageTail(p, rs);
      }
    } else {
      RecordAtOffset(p, rs, k);
      OffsetMonotone(rs, k + 1, |rs|);
    }
  }

  // What Classify sees at the first page of a large record. Its own page count is seen exactly when
  // its trace ID is not all-zero; otherwise the pass stops there, and one page is released.
  lemma ClassifyFirstPage(p: nat, r: Record, used: int)
    requires p > HDR && Representable(r) && Size(r) > p
    ensures var n, kind := NumChunks(p, Size(r)), Classify(p, Chunk(p, r, 0), 0, used);
            && n > 1
            && kind == (if r.tid == ZERO_ID then Stop
                        else if r.tid == TOMBSTONE then LargeFinished(n)
                        else if n * p > used then LargeEarly else Large(n))
            && (n * p <= used ==> (kind == Large(n) || kind == LargeFinished(n) <==> r.tid != ZERO_ID))
  {
    hide Chunk, TidAt, LenAt, NumChunks;
    IdsDiffer();
    FirstChunk(p, r);
  }

  // Settling the k-th record keeps the page an encoding, with that record tombstoned.
  lemma SettleSmall(p: nat, rs: seq<Record>, k: nat, v: Verdict)
    requires AllRepresentable(rs) && RecordsLen(rs) <= p && k < |rs|
    ensures Offset(rs, k) + Size(rs[k]) == Offset(rs, k + 1) <= p
    ensures var rs' := if v.Keep? then rs else Rename(rs, k, TOMBSTONE);
            && AllRepresentable(rs') && RecordsLen(rs') == RecordsLen(rs) && (RealIds(rs) ==> RealIds(rs'))
            && EncodePage(p, rs') == (if v.Keep? then EncodePage(p, rs) else Overwrite(EncodePage(p, rs), Offset(rs, k), TOMBSTONE))
            && Offset(rs', k + 1) == Offset(rs, k + 1)
  {
    hide EncodePage, Overwrite;
    IdsDiffer();
    RecordAtOffset(p, rs, k);
    RenameInPage(p, rs, k, TOMBSTONE);
    RenameFirst(rs, k, TOMBSTONE, k + 1);
    OffsetMonotone(rs, k + 1, |rs|);
  }

  lemma {:induction false} ReportsAgree(rs: seq<Record>, qs: seq<Record>, k: nat, w: Watch)
    requires |rs| == |qs| && k <= |rs|
    requires forall j :: k <= j < |rs| ==> rs[j] == qs[j] && Offset(rs, j) == Offset(qs, j)
    ensures Reports(rs, k, w) == Reports(qs, k, w)
    decreases |rs| - k
  {
    hide Offset, Judge, OutcomeOf;
    if k < |rs| {
      assert VerdictOn(rs, k, w) == VerdictOn(qs, k, w);
      ReportsAgree(rs, qs, k + 1, w);
    }
  }

  // Tombstones from position k on, earlier positions as they are.
  function AfterFrom(rs: seq<Record>, k: nat, w: Watch): (r: seq<Record>)
    requires k <= |rs|
    ensures |r| == |rs|
  {
    seq(|rs|, j requires 0 <= j < |rs| =>
      if j < k || VerdictOn(rs, j, w).Keep? then rs[j] else rs[j].(tid := TOMBSTONE))
  }

  function MinRemaining(rs: seq<Record>, k: nat, m: int, w: Watch): int
    requires k <= |rs|
    decreases |rs| - k
  {
    if k == |rs| then m
    else
      var m' := if Live(rs[k]) && VerdictOn(rs, k, w).Keep?
                then Smaller(m, w.wait - w.look(Offset(rs, k)).age) else m;
      MinRemaining(rs, k + 1, m', w)
  }

  lemma {:induction false} MinAgree(rs: seq<Record>, qs: seq<Record>, k: nat, m: int, w: Watch)
    requires |rs| == |qs| && k <= |rs|
    requires forall j :: k <= j < |rs| ==> rs[j] == qs[j] && Offset(rs, j) == Offset(qs, j)
    ensures MinRemaining(rs, k, m, w) == MinRemaining(qs, k, m, w)
    decreases |rs| - k
  {
    if k < |rs| {
      var m' := if Live(rs[k]) && VerdictOn(rs, k, w).Keep?
                then Smaller(m, w.wait - w.look(Offset(rs, k)).age) else m;
      MinAgree(rs, qs, k + 1, m', w);
    }
  }

  // The records after the k-th one has been judged.
  function Judged(rs: seq<Record>, k: nat, w: Watch): (r: seq<Record>)
    requires k < |rs|
  {
    if VerdictOn(rs, k, w).Keep? then rs else Rename(rs, k, TOMBSTONE)
  }

  // The local variables after the k-th record has been judged.
  function JudgedScan(rs: seq<Record>, k: nat, sc: Scan, w: Watch): Scan
    requires k < |rs| && sc.pos + 16 <= |sc.page|
  {
    if Live(rs[k]) then Settle(sc, Size(rs[k]), VerdictOn(rs, k, w), w.look(sc.pos), w.wait)
    else sc.(pos := sc.pos + Size(rs[k]))
  }

  lemma UnfoldSmall(p: nat, sc: Scan, size: nat, used: int, w: Watch)
    requires p > HDR && |sc.page| == p && Classify(p, sc.page, sc.pos, used) == Small(size)
    ensures sc.pos + size <= p && size >= HDR
    ensures var v, look := Judge(w.wait, w.pressure, w.look(sc.pos)), w.look(sc.pos);
            var rest := PassSmall(p, Settle(sc, size, v, look, w.wait), used, w);
            && PassSmall(p, sc, used, w).0 == rest.0
            && PassSmall(p, sc, used, w).1
            == OutcomeOf(v, TidAt(sc.page, sc.pos), PayloadAt(sc.page, sc.pos, size - HDR), look.age) + rest.1
  {
    hide Judge, OutcomeOf, TidAt, PayloadAt, Settle, LenAt;
  }

  lemma UnfoldFinished(p: nat, sc: Scan, size: nat, used: int, w: Watch)
    requires p > HDR && |sc.page| == p && Classify(p, sc.page, sc.pos, used) == Finished(size)
    ensures PassSmall(p, sc, used, w) == PassSmall(p, sc.(pos := sc.pos + size), used, w)
  {
    hide Judge, OutcomeOf, TidAt, PayloadAt, Settle, LenAt;
  }

  lemma NoOutcome(tid: TraceId, payload: seq<byte>, age: int)
    ensures OutcomeOf(Keep, tid, payload, age) == []
  {
  }

  // A page of small records in two parts: those up to the first all-zero trace ID, and the rest.
  predicate Split(p: nat, qs: seq<Record>, tail: seq<Record>)
  {
    && AllRepresentable(qs + tail) && RecordsLen(qs + tail) <= p
    && RealIds(qs) && (tail == [] || tail[0].tid == ZERO_ID)
  }

  lemma FrontOffsets(qs: seq<Record>, tail: seq<Record>, k: nat)
    requires k <= |qs|
    ensures Offset(qs + tail, k) == Offset(qs, k)
    ensures AllRepresentable(qs + tail) ==> AllRepresentable(qs)
  {
    PrefixOnly(qs, qs + tail, k);
    assert forall i :: 0 <= i < |qs| ==> (qs + tail)[i] == qs[i];
  }

  // Judging a record of the front part looks the same with the rest behind it.
  lemma FrontJudged(qs: seq<Record>, tail: seq<Record>, k: nat, sc: Scan, w: Watch)
    requires k < |qs| && sc.pos + 16 <= |sc.page|
    ensures VerdictOn(qs + tail, k, w) == VerdictOn(qs, k, w) && Offset(qs + tail, k) == Offset(qs, k)
    ensures Judged(qs + tail, k, w) == Judged(qs, k, w) + tail
    ensures JudgedScan(qs + tail, k, sc, w) == JudgedScan(qs, k, sc, w)
  {
    hide Offset, Judge, Settle;
    FrontOffsets(qs, tail, k);
    assert Rename(qs + tail, k, TOMBSTONE) == Rename(qs, k, TOMBSTONE) + tail;
  }

  lemma JudgedKeepsEncoding(p: nat, rs: seq<Record>, k: nat, sc: Scan, w: Watch)
    requires p > HDR && AllRepresentable(rs) && RecordsLen(rs) <= p && k < |rs|
    requires sc.page == EncodePage(p, rs) && sc.pos == Offset(rs, k)
    ensures Offset(rs, k) + Size(rs[k]) == Offset(rs, k + 1) <= p
    ensures var rs1, sc1 := Judged(rs, k, w), JudgedScan(rs, k, sc, w);
            && AllRepresentable(rs1) && RecordsLen(rs1) == RecordsLen(rs)
            && sc1.page == EncodePage(p, rs1) && sc1.pos == Offset(rs1, k + 1)
  {
    hide EncodePage, Overwrite, Judge, Offset, RecordsLen;
    SettleSmall(p, rs, k, VerdictOn(rs, k, w));
  }

  lemma JudgedKeepsSplit(p: nat, qs: seq<Record>, tail: seq<Record>, k: nat, sc: Scan, w: Watch)
    requires p > HDR && Split(p, qs, tail) && k < |qs|
    requires sc.page == EncodePage(p, qs + tail) && sc.pos == Offset(qs, k)
    ensures Offset(qs, k) + Size(qs[k]) <= p
    ensures var qs1, sc1 := Judged(qs, k, w), JudgedScan(qs, k, sc, w);
            && Split(p, qs1, tail) && RecordsLen(qs1 + tail) == RecordsLen(qs + tail)
            && sc1.page == EncodePage(p, qs1 + tail) && sc1.pos == Offset(qs1, k + 1)
  {
    hide EncodePage, Overwrite, Judge, Offset, RecordsLen, AllRepresentable, JudgedScan;
    IdsDiffer();
    FrontOffsets(qs, tail, k);
    RecordAtOffset(p, qs + tail, k);
    FrontJudged(qs, tail, k, sc, w);
    FrontOffsets(Judged(qs, k, w), tail, k + 1);
    JudgedKeepsEncoding(p, qs + tail, k, sc, w);
  }

  // One iteration on bytes is one judgement on records.
  lemma PassStep(p: nat, rs: seq<Record>, k: nat, sc: Scan, used: int, w: Watch)
    requires p > HDR && AllRepresentable(rs) && RecordsLen(rs) <= p && k < |rs| && rs[k].tid != ZERO_ID
    requires sc.page == EncodePage(p, rs) && sc.pos == Offset(rs, k)
    ensures Offset(rs, k) + Size(rs[k]) <= p
    ensures var sc1 := JudgedScan(rs, k, sc, w);
            && |sc1.page| == p
            && PassSmall(p, sc, used, w).0 == PassSmall(p, sc1, used, w).0
            && PassSmall(p, sc, used, w).1
            == OutcomeOf(VerdictOn(rs, k, w), rs[k].tid, rs[k].data, w.look(Offset(rs, k)).age) + PassSmall(p, sc1, used, w).1
  {
    hide EncodePage, PayloadAt, Classify, Judge, Offset, RecordsLen, OutcomeOf, TidAt, PassSmall, Settle;
    ClassifySmall(p, rs, k, used);
    RecordAtOffset(p, rs, k);
    if Live(rs[k]) {
      UnfoldSmall(p, sc, Size(rs[k]), used, w);
    } else {
      UnfoldFinished(p, sc, Size(rs[k]), used, w);
      NoOutcome(rs[k].tid, rs[k].data, w.look(Offset(rs, k)).age);
    }
  }

  lemma PassFront(p: nat, qs: seq<Record>, tail: seq<Record>, k: nat, sc: Scan, used: int, w: Watch)
    requires p > HDR && Split(p, qs, tail) && k < |qs|
    requires sc.page == EncodePage(p, qs + tail) && sc.pos == Offset(qs, k)
    ensures Offset(qs, k) + Size(qs[k]) <= p
    ensures var sc1 := JudgedScan(qs, k, sc, w);
            && |sc1.page| == p
            && PassSmall(p, sc, used, w).0 == PassSmall(p, sc1, used, w).0
            && PassSmall(p, sc, used, w).1
            == OutcomeOf(VerdictOn(qs, k, w), qs[k].tid, qs[k].data, w.look(Offset(qs, k)).age) + PassSmall(p, sc1, used, w).1
  {
    hide EncodePage, Judge, Offset, RecordsLen, OutcomeOf, PassSmall, Settle, AllRepresentable, JudgedScan, VerdictOn;
    FrontOffsets(qs, tail, k);
    RecordAtOffset(p, qs + tail, k);
    FrontJudged(qs, tail, k, sc, w);
    PassStep(p, qs + tail, k, sc, used, w);
  }

  lemma PassEnd(p: nat, qs: seq<Record>, tail: seq<Record>, sc: Scan, used: int, w: Watch)
    requires p > HDR && Split(p, qs, tail)
    requires sc.page == EncodePage(p, qs + tail) && sc.pos == Offset(qs, |qs|)
    ensures PassSmall(p, sc, used, w) == (sc, [])
  {
    FrontOffsets(qs, tail, |qs|);
    assert tail != [] ==> (qs + tail)[|qs|] == tail[0];
    hide EncodePage, Classify;
    ClassifySmall(p, qs + tail, |qs|, used);
  }

  lemma JudgedKeepsLater(rs: seq<Record>, k: nat, m: int, w: Watch)
    requires AllRepresentable(rs) && k < |rs|
    ensures Reports(Judged(rs, k, w), k + 1, w) == Reports(rs, k + 1, w)
    ensures MinRemaining(Judged(rs, k, w), k + 1, m, w) == MinRemaining(rs, k + 1, m, w)
    ensures AfterFrom(rs, k, w) == AfterFrom(Judged(rs, k, w), k + 1, w)
  {
    hide Judge;
    RenameOffsets(rs, k);
    ReportsAgree(rs, Judged(rs, k, w), k + 1, w);
    MinAgree(rs, Judged(rs, k, w), k + 1, m, w);
    assert AfterFrom(rs, k, w) == AfterFrom(Judged(rs, k, w), k + 1, w);
  }

  // The byte-level pass refines the pass on the records up to the first all-zero trace ID, from any
  // record on, and leaves those behind it as they are.
  lemma {:induction false} PassFrom(p: nat, qs: seq<Record>, tail: seq<Record>, k: nat, sc: Scan, used: int, w: Watch)
    requires p > HDR && Split(p, qs, tail) && k <= |qs|
    requires sc.page == EncodePage(p, qs + tail) && sc.pos == Offset(qs, k)
    ensures var (sc', log) := PassSmall(p, sc, used, w);
            var qs' := AfterFrom(qs, k, w);
            && Split(p, qs', tail) && RecordsLen(qs' + tail) == RecordsLen(qs + tail)
            && sc'.page == EncodePage(p, qs' + tail)
            && log == Reports(qs, k, w)
            && (sc'.fully <==> sc.fully && forall j :: k <= j < |qs| ==> !Live(qs'[j]))
            && sc'.minRem == MinRemaining(qs, k, sc.minRem, w)
            && sc'.chunks == sc.chunks
    decreases |qs| - k
  {
    hide EncodePage, PassSmall, Overwrite, Settle, Offset, OutcomeOf, Judge, Split;
    if k == |qs| {
      PassEnd(p, qs, tail, sc, used, w);
      assert AfterFrom(qs, k, w) == qs;
    } else {
      PassFront(p, qs, tail, k, sc, used, w);
      var qs1, sc1 := Judged(qs, k, w), JudgedScan(qs, k, sc, w);
      JudgedKeepsSplit(p, qs, tail, k, sc, w);
      PassFrom(p, qs1, tail, k + 1, sc1, used, w);
      SplitFront(p, qs, tail);
      JudgedKeepsLater(qs, k, sc1.minRem, w);
      assert AfterFrom(qs, k, w)[k] == qs1[k];
      JudgedCounters(qs, k, sc, w);
    }
  }

  lemma SplitFront(p: nat, qs: seq<Record>, tail: seq<Record>)
    requires Split(p, qs, tail)
    ensures AllRepresentable(qs)
  {
    FrontOffsets(qs, tail, 0);
  }

  lemma JudgedCounters(rs: seq<Record>, k: nat, sc: Scan, w: Watch)
    requires k < |rs| && sc.pos == Offset(rs, k) && sc.pos + 16 <= |sc.page|
    ensures var sc1 := JudgedScan(rs, k, sc, w);
            && sc1.chunks == sc.chunks
            && (sc1.fully <==> sc.fully && !Live(Judged(rs, k, w)[k]))
            && MinRemaining(rs, k, sc.minRem, w) == MinRemaining(rs, k + 1, sc1.minRem, w)
  {
    hide Overwrite, Offset, Judge;
  }

  lemma RenameOffsets(rs: seq<Record>, k: nat)
    requires AllRepresentable(rs) && k < |rs|
    ensures forall j :: 0 <= j <= |rs| ==> Offset(Rename(rs, k, TOMBSTONE), j) == Offset(rs, j)
  {
    forall j | 0 <= j <= |rs| ensures Offset(Rename(rs, k, TOMBSTONE), j) == Offset(rs, j) {
      RenameFirst(rs, k, TOMBSTONE, j);
    }
  }

  lemma AfterSizes(rs: seq<Record>, f: nat, w: Watch)
    requires f <= |rs|
    ensures var rs' := AfterPass(rs[..f], w) + rs[f..];
            |rs'| == |rs| && forall k :: 0 <= k < |rs| ==> (Live(rs'[k]) ==> Live(rs[k])) && Size(rs'[k]) == Size(rs[k])
  {
    hide VerdictOn;
  }

  // A whole pass over a flushed page, whatever the trace IDs on it. Let qs be the records up to the
  // first all-zero ID. The page it leaves is the encoding of the same records with the settled ones
  // of qs tombstoned, boundaries unchanged; it reports exactly those, in order; it calls the page
  // consumed exactly when no live record of qs is left, whatever lies behind; and otherwise it names
  // the least time until one of them ages out.
  lemma PassRefinesRecords(p: nat, rs: seq<Record>, used: int, w: Watch)
    requires p > HDR && AllRepresentable(rs) && RecordsLen(rs) <= p
    ensures var (sc, log) := PassSmall(p, Start(EncodePage(p, rs)), used, w);
            var qs := rs[..FirstZero(rs, 0)];
            var rs' := AfterPass(qs, w) + rs[|qs|..];
            && AllRepresentable(rs') && RecordsLen(rs') == RecordsLen(rs) && (RealIds(rs) ==> qs == rs && RealIds(rs'))
            && sc.page == EncodePage(p, rs')
            && log == Reports(qs, 0, w)
            && (sc.fully <==> AllFinished(AfterPass(qs, w)))
            && sc.chunks == 1 && sc.minRem == MinRemaining(qs, 0, 0, w)
            && (forall k :: 0 <= k < |rs| ==> (Live(rs'[k]) ==> Live(rs[k])) && Size(rs'[k]) == Size(rs[k]))
  {
    hide PassSmall, EncodePage, RecordsLen;
    var f := FirstZero(rs, 0);
    var qs, tail := rs[..f], rs[f..];
    assert qs + tail == rs;
    PassFrom(p, qs, tail, 0, Start(EncodePage(p, rs)), used, w);
    assert AfterPass(qs, w) == AfterFrom(qs, 0, w);
    AfterSizes(rs, f, w);
    hide Reports, MinRemaining, AllFinished;
  }

  // The same when no trace ID is all-zero: nothing is left out.
  lemma PassRefinesAll(p: nat, rs: seq<Record>, used: int, w: Watch)
    requires p > HDR && AllRepresentable(rs) && RecordsLen(rs) <= p && RealIds(rs)
    ensures var (sc, log) := PassSmall(p, Start(EncodePage(p, rs)), used, w);
            var rs' := AfterPass(rs, w);
            && AllRepresentable(rs') && RecordsLen(rs') == RecordsLen(rs) && RealIds(rs')
            && sc.page == EncodePage(p, rs') && log == Reports(rs, 0, w) && (sc.fully <==> AllFinished(rs'))
            && sc.chunks == 1 && sc.minRem == MinRemaining(rs, 0, 0, w)
            && (forall k :: 0 <= k < |rs| ==> Size(rs'[k]) == Size(rs[k]))
  {
    hide PassSmall, EncodePage, RecordsLen, Reports, MinRemaining, AllFinished;
    PassRefinesRecords(p, rs, used, w);
    assert AfterPass(rs, w) + rs[|rs|..] == AfterPass(rs, w);
  }

  // ---- Which records get a callback ----

  // The live records from k on.
  function Lives(rs: seq<Record>, k: nat): seq<Record>
    requires k <= |rs|
    decreases |rs| - k
  {
    if k == |rs| then [] else (if Live(rs[k]) then [rs[k]] else []) + Lives(rs, k + 1)
  }

  // One callback per record, in order, every delivery carrying that record's ID and payload.
  predicate Answers(recs: seq<Record>, outs: seq<Outcome>)
  {
    |recs| == |outs| && forall i :: 0 <= i < |outs| && outs[i].Delivered? ==> outs[i] == Delivered(recs[i].tid, recs[i].data)
  }

  // Under pressure nothing is kept, and the callbacks answer the live records in order.
  lemma {:induction false} PressureSettlesAll(rs: seq<Record>, k: nat, w: Watch)
    requires w.pressure && k <= |rs|
    ensures Answers(Lives(rs, k), Reports(rs, k, w))
    ensures AllFinished(AfterPass(rs, w))
    decreases |rs| - k
  {
    hide Offset;
    if k < |rs| {
      PressureSettlesAll(rs, k + 1, w);
    }
  }

  lemma {:induction false} LivesCount(rs: seq<Record>, k: nat)
    requires k <= |rs|
    ensures |Lives(rs, k)| <= |rs| - k
    ensures |Lives(rs, k)| == |rs| - k <==> forall j :: k <= j < |rs| ==> Live(rs[j])
    decreases |rs| - k
  {
    if k < |rs| {
      LivesCount(rs, k + 1);
    }
  }

  // Under pressure, as at closing, a page is consumed in one pass; every record on it gets its
  // callback exactly when no trace ID is all-zero or the tombstone. The callbacks made are those of
  // the live records up to the first all-zero ID; all others are released without one.
  lemma EveryRecordAnsweredIff(p: nat, rs: seq<Record>, used: int, w: Watch)
    requires p > HDR && AllRepresentable(rs) && RecordsLen(rs) <= p && w.pressure
    ensures var (sc, log) := PassSmall(p, Start(EncodePage(p, rs)), used, w);
            && sc.fully && sc.chunks == 1
            && Answers(Lives(rs[..FirstZero(rs, 0)], 0), log)
            && (|log| == |rs| <==> forall j :: 0 <= j < |rs| ==> rs[j].tid != ZERO_ID && rs[j].tid != TOMBSTONE)
  {
    hide PassSmall, EncodePage, RecordsLen, Reports, Lives;
    var qs := rs[..FirstZero(rs, 0)];
    PassRefinesRecords(p, rs, used, w);
    PressureSettlesAll(qs, 0, w);
    LivesCount(qs, 0);
  }

  // A concrete page: three records with their own IDs, save that the second ID is all-zero. The
  // page is released with one callback, although the third record has an ordinary ID.
  lemma ZeroIdReleasesUnreported(used: int, w: Watch) returns (p: nat, rs: seq<Record>)
    requires w.pressure
    ensures p > HDR && AllRepresentable(rs) && RecordsLen(rs) <= p && |rs| == 3
    ensures rs[0].tid !in {ZERO_ID, TOMBSTONE} && rs[2].tid !in {ZERO_ID, TOMBSTONE}
    ensures var (sc, log) := PassSmall(p, Start(EncodePage(p, rs)), used, w);
            sc.fully && Answers([rs[0]], log)
  {
    hide PassSmall, EncodePage;
    var tid: TraceId := [1 as byte] + Zeros(15);
    assert tid[0] == 1 && ZERO_ID[0] == 0 && TOMBSTONE[0] == 0xFF;
    var r := Record(tid, 0, []);
    p, rs := 4096, [r, r.(tid := ZERO_ID), r];
    assert Offset(rs, 1) == 28 && Offset(rs, 2) == 56 && Offset(rs, 3) == 84;
    EveryRecordAnsweredIff(p, rs, used, w);
    assert FirstZero(rs, 1) == 1 && FirstZero(rs, 0) == 1;
    assert rs[..1] == [r];
    assert Lives([r], 1) == [];
  }

  // ---- The loop visits the records that Parse finds ----

  // The callbacks for records found from a byte position on.
  function ReportsAt(rs: seq<Record>, pos: nat, w: Watch): seq<Outcome>
  {
    if rs == [] then []
    else
      var v := if Live(rs[0]) then Judge(w.wait, w.pressure, w.look(pos)) else Keep;
      OutcomeOf(v, rs[0].tid, rs[0].data, w.look(pos).age) + ReportsAt(rs[1..], pos + Size(rs[0]), w)
  }

  lemma SameFields(a: seq<byte>, b: seq<byte>, pos: nat)
    requires |a| == |b| && pos + HDR <= |a| && forall i :: pos <= i < |a| ==> a[i] == b[i]
    ensures TidAt(a, pos) == TidAt(b, pos) && TimeAt(a, pos) == TimeAt(b, pos) && LenAt(a, pos) == LenAt(b, pos)
    ensures pos + HDR + LenAt(a, pos) <= |a| ==> PayloadAt(a, pos, LenAt(a, pos)) == PayloadAt(b, pos, LenAt(a, pos))
  {
    hide GetBE, FromU64;
    assert a[pos..pos + 16] == b[pos..pos + 16];
    assert a[pos + 16..pos + 24] == b[pos + 16..pos + 24];
    assert a[pos + 24..pos + 28] == b[pos + 24..pos + 28];
    var n := LenAt(a, pos);
    if pos + HDR + n <= |a| {
      assert a[pos + HDR..pos + HDR + n] == b[pos + HDR..pos + HDR + n];
    }
  }

  lemma {:induction false} ParseTail(a: seq<byte>, b: seq<byte>, pos: nat)
    requires |a| == |b| && forall i :: pos <= i < |a| ==> a[i] == b[i]
    ensures Parse(a, pos) == Parse(b, pos)
    decreases |a| - pos
  {
    hide TidAt, TimeAt, LenAt, PayloadAt;
    if pos + HDR <= |a| {
      SameFields(a, b, pos);
      var n := LenAt(a, pos);
      if pos + HDR + n <= |a| {
        ParseTail(a, b, pos + HDR + n);
      }
    }
  }

  lemma FollowsSmall(p: nat, sc: Scan, size: nat, used: int, w: Watch)
    requires p > HDR && |sc.page| == p && Classify(p, sc.page, sc.pos, used) == Small(size)
    requires var sc1 := Settle(sc, size, Judge(w.wait, w.pressure, w.look(sc.pos)), w.look(sc.pos), w.wait);
             |sc1.page| == p && PassSmall(p, sc1, used, w).1 == ReportsAt(Parse(sc1.page, sc1.pos), sc1.pos, w)
    ensures PassSmall(p, sc, used, w).1 == ReportsAt(Parse(sc.page, sc.pos), sc.pos, w)
  {
    hide *;
    ClassifyParse(p, sc.page, sc.pos, used);
    var v := Judge(w.wait, w.pressure, w.look(sc.pos));
    var sc1 := Settle(sc, size, v, w.look(sc.pos), w.wait);
    UnfoldSmall(p, sc, size, used, w);
    SettledBehind(sc, size, v, w.look(sc.pos), w.wait);
    ParseTail(sc1.page, sc.page, sc1.pos);
    var rs := Parse(sc.page, sc.pos);
    assert rs[0].tid == TidAt(sc.page, sc.pos) && rs[0].data == PayloadAt(sc.page, sc.pos, size - HDR);
    ReportsAtHead(rs, sc.pos, w);
  }

  lemma FollowsFinished(p: nat, sc: Scan, size: nat, used: int, w: Watch)
    requires p > HDR && |sc.page| == p && Classify(p, sc.page, sc.pos, used) == Finished(size)
    requires PassSmall(p, sc.(pos := sc.pos + size), used, w).1 == ReportsAt(Parse(sc.page, sc.pos + size), sc.pos + size, w)
    ensures PassSmall(p, sc, used, w).1 == ReportsAt(Parse(sc.page, sc.pos), sc.pos, w)
  {
    hide *;
    ClassifyParse(p, sc.page, sc.pos, used);
    UnfoldFinished(p, sc, size, used, w);
    ReportsAtHead(Parse(sc.page, sc.pos), sc.pos, w);
  }

  // On any bytes at all, the in-place loop reports what Parse finds on the page it started with.
  lemma {:induction false} PassFollowsParse(p: nat, sc: Scan, used: int, w: Watch)
    requires p > HDR && |sc.page| == p
    ensures PassSmall(p, sc, used, w).1 == ReportsAt(Parse(sc.page, sc.pos), sc.pos, w)
    decreases p - sc.pos
  {
    hide *;
    ClassifyParse(p, sc.page, sc.pos, used);
    var k := Classify(p, sc.page, sc.pos, used);
    if k.Finished? {
      PassFollowsParse(p, sc.(pos := sc.pos + k.size), used, w);
      FollowsFinished(p, sc, k.size, used, w);
    } else if k.Small? {
      var sc1 := Settle(sc, k.size, Judge(w.wait, w.pressure, w.look(sc.pos)), w.look(sc.pos), w.wait);
      PassFollowsParse(p, sc1, used, w);
      FollowsSmall(p, sc, k.size, used, w);
    } else {
      PassStopped(p, sc, used, w);
      NoReports(sc.pos, w);
    }
  }

  lemma ReportsAtHead(rs: seq<Record>, pos: nat, w: Watch)
    requires rs != []
    ensures !Live(rs[0]) ==> ReportsAt(rs, pos, w) == ReportsAt(rs[1..], pos + Size(rs[0]), w)
    ensures Live(rs[0]) ==>
              ReportsAt(rs, pos, w)
              == OutcomeOf(Judge(w.wait, w.pressure, w.look(pos)), rs[0].tid, rs[0].data, w.look(pos).age)
                 + ReportsAt(rs[1..], pos + Size(rs[0]), w)
  {
  }

  lemma NoReports(pos: nat, w: Watch)
    ensures ReportsAt([], pos, w) == []
  {
  }

  // Settling changes nothing behind the record.
  lemma SettledBehind(sc: Scan, size: nat, v: Verdict, look: Look, wait: int)
    requires sc.pos + size <= |sc.page| && size >= HDR
    ensures var sc1 := Settle(sc, size, v, look, wait);
            sc1.pos == sc.pos + size && forall i :: sc1.pos <= i < |sc.page| ==> sc1.page[i] == sc.page[i]
  {
  }

  lemma PassStopped(p: nat, sc: Scan, used: int, w: Watch)
    requires p > HDR && |sc.page| == p
    requires !Classify(p, sc.page, sc.pos, used).Finished? && !Classify(p, sc.page, sc.pos, used).Small?
    ensures PassSmall(p, sc, used, w) == (sc, [])
  {
  }

  lemma ClassifyParse(p: nat, page: Page, pos: nat, used: int)
    requires p > HDR && |page| == p
    ensures var k, rs := Classify(p, page, pos, used), Parse(page, pos);
            if k.Finished? || k.Small? then
              && pos + k.size <= p && k.size >= HDR && pos + 16 <= p && rs != []
              && rs[0] == Record(TidAt(page, pos), TimeAt(page, pos), PayloadAt(page, pos, k.size - HDR))
              && rs[1..] == Parse(page, pos + k.size) && (Live(rs[0]) <==> k.Small?) && Size(rs[0]) == k.size
            else rs == []
  {
    hide GetBE, NumChunks;
  }
}
