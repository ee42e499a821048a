// What one large record with an all-zero trace ID does to the buffer. Write takes such records;
// BufferTheorems and BufferShutdown are about runs without them, and this is why.
module BufferWedge {
  import opened Bytes
  import opened Records
  import opened PageCodec
  import opened Ring
  import opened SweepPage
  import opened BufferMachine

  // The machine with every record that Write takes, whatever its trace ID.
  predicate Possible(c: Config, s: State, step: Step)
    requires Valid(c)
  {
    if step.SWrite? then !s.closed && Representable(step.r) && step.r.at <= s.clock else Enabled(c, s, step)
  }

  function Do(c: Config, s: State, step: Step): State
    requires Valid(c) && Possible(c, s, step)
  {
    if step.SWrite? then Write(c, s, step.r) else Apply(c, s, step)
  }

  ghost predicate IsFreeRun(c: Config, run: seq<State>, steps: seq<Step>)
    requires Valid(c)
  {
    && |run| == |steps| + 1
    && forall i :: 0 <= i < |steps| ==> Possible(c, run[i], steps[i]) && run[i + 1] == Do(c, run[i], steps[i])
  }

  ghost predicate FreelyReachable(c: Config, s: State)
    requires Valid(c)
  {
    exists run, steps :: IsFreeRun(c, run, steps) && Init(c, run[0]) && run[|steps|] == s
  }

  lemma Next(c: Config, s: State, step: Step)
    requires Valid(c) && FreelyReachable(c, s) && Possible(c, s, step)
    ensures FreelyReachable(c, Do(c, s, step))
  {
    hide Possible, Do, Init;
    var run, steps :| IsFreeRun(c, run, steps) && Init(c, run[0]) && run[|steps|] == s;
    var run', steps' := run + [Do(c, s, step)], steps + [step];
    assert IsFreeRun(c, run', steps');
    assert Init(c, run'[0]) && run'[|steps'|] == Do(c, s, step);
  }

  // ---- The record ----

  const LETTER: byte := 0x61
  const WORD: int := 0x6161_6161

  function Letters(n: nat): (s: seq<byte>)
    ensures |s| == n
    ensures forall i :: 0 <= i < n ==> s[i] == LETTER
  {
    seq(n, _ => LETTER)
  }

  // Two pages long, with a payload of letters, for a file of any size; only a single page must not
  // be longer than four letters read as a length, a little over 1.5 GiB.
  predicate SmallPage(c: Config)
  {
    Valid(c) && c.p <= WORD
  }

  function ZeroRecord(c: Config): Record
    requires SmallPage(c)
  {
    Record(ZERO_ID, 0, Letters(2 * c.p - HDR))
  }

  lemma LettersAsLength()
    ensures GetBE(Letters(4)) == WORD
  {
    var s := Letters(4);
    assert s[..3][..2] == s[..2] && s[..2][..1] == s[..1] && s[..1][..0] == [];
    assert GetBE(s[..1]) == 0x61;
    assert GetBE(s[..2]) == 0x6161;
    assert GetBE(s[..3]) == 0x61_6161;
  }

  // A page of letters looks like the header of a record longer than what is used.
  lemma LettersLookEarly(c: Config, used: int)
    requires SmallPage(c) && used <= WORD
    ensures Classify(c.p, Letters(c.p), 0, used) == LargeEarly
  {
    var page := Letters(c.p);
    assert TidAt(page, 0)[0] == LETTER && ZERO_ID[0] == 0 && TOMBSTONE[0] == 0xFF;
    assert page[24..28] == Letters(4);
    LettersAsLength();
    TimesMonotone(2, c.m, c.p);
    NumChunksBounds(c.p, HDR + WORD);
  }

  lemma ZeroRecordPages(c: Config, used: int)
    requires SmallPage(c)
    ensures var r := ZeroRecord(c);
            && Representable(r) && Size(r) == 2 * c.p && NumChunks(c.p, Size(r)) == 2 && 2 * c.p <= MaxBytes(c)
            && Classify(c.p, Chunk(c.p, r, 0), 0, used) == Stop
            && Chunk(c.p, r, 1) == Letters(c.p)
  {
    var r := ZeroRecord(c);
    TimesMonotone(2, c.m, c.p);
    NumChunksBounds(c.p, Size(r));
    var n := NumChunks(c.p, Size(r));
    if n > 2 {
      TimesMonotone(2, n - 1, c.p);
    }
    hide NumChunks;
    ClassifyFirstPage(c.p, r, used);
    LaterChunk(c.p, r, 1);
    hide Classify, Chunk;
    assert r.data[c.p - HDR..2 * c.p - HDR] == Letters(c.p);
    assert Zeros(0) == [];
  }

  // ---- The run: the record is written, its first page is released, Close is called ----

  function Fresh(c: Config): State
    requires Valid(c)
  {
    State(Zeros(MaxBytes(c)), 0, false, false, false, [], 0, map[], 0, multiset{},
          Writer(Idle, false, Zeros(c.p), 0, 0, []), Sweeper(Top, 0, false, 0, []), History([], 0, [], 0, [], [], [], []))
  }

  lemma FreshReachable(c: Config)
    requires Valid(c)
    ensures FreelyReachable(c, Fresh(c))
  {
    var run: seq<State>, steps: seq<Step> := [Fresh(c)], [];
    assert Init(c, Fresh(c));
    assert IsFreeRun(c, run, steps) && run[|steps|] == Fresh(c);
  }

  // The record is taken from the channel and there is room for its two pages.
  lemma Claimed(c: Config) returns (s: State)
    requires SmallPage(c)
    ensures FreelyReachable(c, s)
    ensures s == Fresh(c).(w := Fresh(c).w.(pc := LargeWrite(Tagged(0, ZeroRecord(c)), 0)),
                           h := History([Tagged(0, ZeroRecord(c))], 1, [], 0, [], [], [], []))
  {
    hide Classify, NumChunks, Letters, FreelyReachable, EncodeRecord;
    FreshReachable(c);
    ZeroRecordPages(c, 0);
    var r := ZeroRecord(c);
    var t := Tagged(0, r);
    var s0 := Fresh(c);
    Next(c, s0, SWrite(r));
    var s1 := s0.(queue := [t], h := s0.h.(accepted := [t]));
    assert Do(c, s0, SWrite(r)) == s1;
    Next(c, s1, WReceive);
    var s2 := s1.(queue := [], w := s1.w.(pc := LargeCheck(t)), h := s1.h.(taken := 1));
    assert Do(c, s1, WReceive) == s2;
    Next(c, s2, WCheck);
    s := s2.(w := s2.w.(pc := LargeWrite(t, 0)));
    assert Do(c, s2, WCheck) == s;
  }

  // Both pages are in the file.
  lemma Written(c: Config) returns (s: State)
    requires SmallPage(c)
    ensures FreelyReachable(c, s) && NumChunks(c.p, Size(ZeroRecord(c))) == 2
    ensures var pages := Chunks(c.p, ZeroRecord(c));
            s.file == Put(Put(Zeros(MaxBytes(c)), 0, pages[0]), c.p, pages[1])
    ensures s.w.pc == LargeAdd(Tagged(0, ZeroRecord(c))) && s.used == 0
    ensures !s.w.draining && s.w.stageN == 0 && s.w.staged == [] && s.queue == [] && !s.closed
    ensures s.s == Sweeper(Top, 0, false, 0, []) && s.h.groups == [] && s.h.resolved == [] && s.h.taken == 1
  {
    hide Classify, NumChunks, Letters, FreelyReachable, Chunk, Put, Moved;
    ZeroRecordPages(c, 0);
    var t := Tagged(0, ZeroRecord(c));
    var page0 := Chunk(c.p, t.rec, 0);
    var s3 := Claimed(c);
    Next(c, s3, WWrite);
    MovedFrom(c, 0);
    var s4 := s3.(file := Put(s3.file, 0, page0), w := s3.w.(pc := LargeWrite(t, 1), stage := page0, head := c.p),
                  h := s3.h.(inflight := [page0]));
    assert Do(c, s3, WWrite) == s4;
    Next(c, s4, WWrite);
    s := Do(c, s4, WWrite);
  }

  // One add publishes both pages, and the sweeper is signalled.
  lemma Added(c: Config) returns (s: State)
    requires SmallPage(c)
    ensures FreelyReachable(c, s) && NumChunks(c.p, Size(ZeroRecord(c))) == 2
    ensures s.file == Put(Put(Zeros(MaxBytes(c)), 0, Chunk(c.p, ZeroRecord(c), 0)), c.p, Chunk(c.p, ZeroRecord(c), 1))
    ensures s.used == 2 * c.p
    ensures s.w.pc.Idle? && !s.w.draining && s.w.stageN == 0 && s.w.staged == [] && s.queue == [] && !s.closed
    ensures s.s == Sweeper(Top, 0, false, 0, []) && s.h.groups == [Group([Tagged(0, ZeroRecord(c))], 1)]
    ensures s.h.resolved == []
  {
    hide Classify, NumChunks, Letters, FreelyReachable, Chunk, Chunks, Put, Do, Possible, ZeroRecord, Size;
    var s5 := Written(c);
    ZeroRecordPages(c, 0);
    TwoChunks(c);
    AddsAndWakes(c, s5);
    Next(c, s5, WAdd);
    Next(c, Do(c, s5, WAdd), WWake);
    s := Do(c, Do(c, s5, WAdd), WWake);
  }

  lemma Published(c: Config) returns (s: State)
    requires SmallPage(c)
    ensures FreelyReachable(c, s) && NumChunks(c.p, Size(ZeroRecord(c))) == 2
    ensures |s.file| == MaxBytes(c) && s.used == 2 * c.p <= MaxBytes(c)
    ensures ReadAt(s.file, 0, c.p) == Chunk(c.p, ZeroRecord(c), 0) && ReadAt(s.file, c.p, c.p) == Letters(c.p)
    ensures s.w.pc.Idle? && !s.w.draining && s.w.stageN == 0 && s.w.staged == [] && s.queue == [] && !s.closed
    ensures s.s == Sweeper(Top, 0, false, 0, []) && s.h.groups == [Group([Tagged(0, ZeroRecord(c))], 1)]
    ensures s.h.resolved == []
  {
    hide FreelyReachable, ZeroRecord, Letters, Chunk, Put, ReadAt, MaxBytes;
    s := Added(c);
    ReadsBack(c);
  }

  lemma ReadsBack(c: Config)
    requires SmallPage(c)
    ensures NumChunks(c.p, Size(ZeroRecord(c))) == 2 && 2 * c.p <= MaxBytes(c)
    ensures var file := Put(Put(Zeros(MaxBytes(c)), 0, Chunk(c.p, ZeroRecord(c), 0)), c.p, Chunk(c.p, ZeroRecord(c), 1));
            |file| == MaxBytes(c) && ReadAt(file, 0, c.p) == Chunk(c.p, ZeroRecord(c), 0) && ReadAt(file, c.p, c.p) == Letters(c.p)
  {
    hide Classify, NumChunks, Letters, Chunk, Put, ReadAt, ZeroRecord, Size, MaxBytes;
    ZeroRecordPages(c, 0);
    TwoPages(c, Zeros(MaxBytes(c)), Chunk(c.p, ZeroRecord(c), 0), Chunk(c.p, ZeroRecord(c), 1));
  }

  lemma TwoChunks(c: Config)
    requires SmallPage(c) && NumChunks(c.p, Size(ZeroRecord(c))) == 2
    ensures Chunks(c.p, ZeroRecord(c)) == [Chunk(c.p, ZeroRecord(c), 0), Chunk(c.p, ZeroRecord(c), 1)]
  {
    hide Chunk, NumChunks, Letters;
  }

  lemma AddsAndWakes(c: Config, s: State)
    requires SmallPage(c) && s.w.pc == LargeAdd(Tagged(0, ZeroRecord(c))) && NumChunks(c.p, Size(ZeroRecord(c))) == 2
    ensures Possible(c, s, WAdd) && Possible(c, Do(c, s, WAdd), WWake)
    ensures var s' := Do(c, Do(c, s, WAdd), WWake);
            && s'.file == s.file && s'.used == s.used + 2 * c.p && s'.queue == s.queue && s'.closed == s.closed && s'.s == s.s
            && s'.w == s.w.(pc := Idle)
            && s'.h.groups == s.h.groups + [Group([Tagged(0, ZeroRecord(c))], s.h.taken)] && s'.h.resolved == s.h.resolved
  {
    hide NumChunks, Letters, ZeroRecord;
  }

  lemma MovedFrom(c: Config, head: nat)
    requires Valid(c) && head == 0
    ensures Moved(c, head, 1) == c.p
  {
    TimesMonotone(2, c.m, c.p);
    SmallMod(c.p, MaxBytes(c));
  }

  lemma TwoPages(c: Config, file: seq<byte>, page0: Page, page1: Page)
    requires Valid(c) && |file| == MaxBytes(c) >= 2 * c.p && |page0| == |page1| == c.p
    ensures var file' := Put(Put(file, 0, page0), c.p, page1);
            |file'| == MaxBytes(c) && ReadAt(file', 0, c.p) == page0 && ReadAt(file', c.p, c.p) == page1
  {
  }

  // The sweeper reads the first page, finds the end of the page at once, and is about to release it.
  lemma Misread(c: Config) returns (s: State)
    requires SmallPage(c)
    ensures FreelyReachable(c, s)
    ensures s.used == 2 * c.p && |s.h.groups| == 1 && s.h.resolved == []
    ensures s.s.pc == Releasing(1) && s.s.head == 0 && s.s.at == 0 && !s.s.closing
    ensures |s.file| == MaxBytes(c) >= 2 * c.p && ReadAt(s.file, c.p, c.p) == Letters(c.p)
    ensures s.w.pc.Idle? && !s.w.draining && s.w.stageN == 0 && s.w.staged == [] && s.queue == [] && !s.closed
  {
    hide Classify, Letters, FreelyReachable, Chunk, ZeroRecord, NumChunks, ReadAt;
    ZeroRecordPages(c, 2 * c.p);
    var page0 := Chunk(c.p, ZeroRecord(c), 0);
    var s0 := Published(c);
    Next(c, s0, RLoad);
    var s1 := s0.(s := s0.s.(pc := Reading));
    assert Do(c, s0, RLoad) == s1;
    Next(c, s1, RRead);
    var s2 := s1.(s := s1.s.(pc := Snapping(page0), cur := s1.h.groups[0].recs));
    assert Do(c, s1, RRead) == s2;
    Next(c, s2, RSnap);
    var s3 := s2.(s := s2.s.(pc := Scanning(Start(page0), 2 * c.p, 0)));
    assert Do(c, s2, RSnap) == s3;
    Next(c, s3, RLook);
    var s4 := s3.(s := s3.s.(pc := Deciding(Start(page0), 2 * c.p)));
    assert Do(c, s3, RLook) == s4;
    Next(c, s4, RDecide);
    s := Do(c, s4, RDecide);
  }

  // One page has been released, without a callback: `used` is positive, but the page at the read
  // head is the second of the record, and no group starts there.
  lemma Torn(c: Config) returns (s: State)
    requires SmallPage(c)
    ensures FreelyReachable(c, s)
    ensures s.used == c.p > 0 && s.h.groups == [] && s.s.head == c.p && s.s.pc.Top? && s.h.resolved == []
    ensures |s.file| == MaxBytes(c) >= 2 * c.p && ReadAt(s.file, s.s.head, c.p) == Letters(c.p)
    ensures s.w.pc.Idle? && !s.w.draining && s.w.stageN == 0 && s.w.staged == [] && s.queue == [] && !s.closed && !s.s.closing
  {
    hide Letters, FreelyReachable, ReadAt;
    var s0 := Misread(c);
    MovedFrom(c, 0);
    Next(c, s0, RRelease);
    var s1 := Do(c, s0, RRelease);
    assert s1.used == c.p && s1.s.head == c.p && s1.h.groups == [] && s1.s.pc.Signalling? && s1.file == s0.file;
    Next(c, s1, RSignal);
    s := Do(c, s1, RSignal);
  }

  // ---- After Close ----

  // The writer is done; one page of letters is left; the sweeper goes round it.
  predicate Wedged(c: Config, s: State)
  {
    && SmallPage(c) && s.closed && s.w.pc.WriterDone?
    && s.used == c.p && |s.file| == MaxBytes(c) && ReadAt(s.file, s.s.head, c.p) == Letters(c.p)
    && match s.s.pc
       case Top => true
       case Reading => true
       case Snapping(page) => page == Letters(c.p)
       case Scanning(sc, used, k) => sc == Start(Letters(c.p)) && used == c.p
       case Deciding(sc, used) => !sc.fully && sc.minRem == 0
       case ParkPage(d) => true
       case _ => false
  }

  lemma WedgedKept(c: Config, s: State, step: Step)
    requires Wedged(c, s) && Possible(c, s, step)
    ensures Wedged(c, Do(c, s, step))
  {
    hide Classify, Letters, ReadAt, NumChunks, LookAt, Put, EncodeRecord;
    match step
    case RLook => WedgedLook(c, s);
    case RLoad =>
    case RRead =>
    case RSnap =>
    case RDecide =>
    case RWakeup =>
    case RWriterDone =>
    case _ => WedgedOthers(c, s, step);
  }

  lemma WedgedOthers(c: Config, s: State, step: Step)
    requires Wedged(c, s) && Possible(c, s, step)
    requires !step.RLook? && !step.RLoad? && !step.RRead? && !step.RSnap? && !step.RDecide? && !step.RWakeup? && !step.RWriterDone?
    ensures Do(c, s, step).closed && Do(c, s, step).w == s.w && Do(c, s, step).s == s.s
    ensures Do(c, s, step).file == s.file && Do(c, s, step).used == s.used
  {
    hide Classify, Letters, ReadAt, NumChunks, SmallPage;
  }

  lemma WedgedLook(c: Config, s: State)
    requires Wedged(c, s) && s.s.pc.Scanning?
    ensures LookAt(c, s) == s.(s := s.s.(pc := Deciding(Start(Letters(c.p)).(fully := false), c.p)))
  {
    TimesMonotone(1, c.m, c.p);
    LettersLookEarly(c, c.p);
    hide Classify, Letters, ReadAt;
  }

  // From there on, on every run: the ring never empties and the sweeper never exits, although it
  // always has a step to take. So Close does not return.
  lemma {:induction false} WedgedForever(c: Config, run: seq<State>, steps: seq<Step>, n: nat)
    requires Valid(c) && IsFreeRun(c, run, steps) && Wedged(c, run[0]) && n < |run|
    ensures Wedged(c, run[n])
    ensures run[n].used > 0 && !run[n].s.pc.Exited?
    ensures exists step :: Possible(c, run[n], step) && !step.SWrite? && !step.STick?
  {
    hide Possible, Do;
    if n > 0 {
      WedgedForever(c, run, steps, n - 1);
      WedgedKept(c, run[n - 1], steps[n - 1]);
    }
    WedgedMoves(c, run[n]);
  }

  lemma WedgedMoves(c: Config, s: State)
    requires Wedged(c, s)
    ensures exists step :: Possible(c, s, step) && !step.SWrite? && !step.STick?
  {
    hide ReadAt, Letters;
    var step :=
      match s.s.pc
      case Top => RLoad
      case Reading => RRead
      case Snapping(_) => RSnap
      case Scanning(_, _, _) => RLook
      case Deciding(_, _) => RDecide
      case _ => RWriterDone;
    assert Possible(c, s, step);
  }

  // A single large record with an all-zero trace ID is enough. One state that it leads to has
  // `used` positive with no group at the read head; a later one never shuts down.
  lemma ZeroIdWedges(c: Config) returns (torn: State, stuck: State)
    requires SmallPage(c)
    ensures FreelyReachable(c, torn) && torn.used > 0 && torn.h.groups == [] && torn.h.resolved == []
    ensures FreelyReachable(c, stuck) && Wedged(c, stuck)
  {
    hide Letters, FreelyReachable, ReadAt;
    torn := Torn(c);
    Next(c, torn, SClose);
    var s1 := torn.(closed := true);
    assert Do(c, torn, SClose) == s1;
    Next(c, s1, WSeeClose);
    var s2 := s1.(w := s1.w.(draining := true));
    assert Do(c, s1, WSeeClose) == s2;
    Next(c, s2, WDrained);
    var s3 := s2.(w := s2.w.(pc := WriterExit));
    assert Do(c, s2, WDrained) == s3;
    Next(c, s3, WFinish);
    stuck := s3.(w := s3.w.(pc := WriterDone));
    assert Do(c, s3, WFinish) == stuck;
  }
}
