// The sweeper's side of the invariant: what its scan of the head group knows and does.
module BufferSweeper {
  import opened Bytes
  import opened Records
  import opened PageCodec
  import opened Ring
  import opened SweepPage
  import opened BufferMachine
  import opened BufferRing

  // The scanned copy of a group: the same records, some of them tombstoned.
  predicate Shape(g: seq<Tagged>, cur: seq<Tagged>)
  {
    && |cur| == |g|
    && forall j :: 0 <= j < |g| ==> cur[j] == g[j] || cur[j] == g[j].(rec := g[j].rec.(tid := TOMBSTONE))
  }

  predicate AllDead(ts: seq<Tagged>, k: nat)
    requires k <= |ts|
  {
    forall j :: 0 <= j < k ==> !Live(ts[j].rec)
  }

  // The scratch page is the first page of the group as settled so far.
  predicate Mid(c: Config, g: seq<Tagged>, cur: seq<Tagged>, sc: Scan, used: int)
    requires Valid(c)
  {
    && GroupOk(c, g) && Shape(g, cur) && GroupOk(c, cur)
    && |sc.page| == c.p && GroupPages(c, cur) == GroupPages(c, g)[0 := sc.page]
    && (!sc.dirty ==> cur == g)
    && |GroupPages(c, g)| * c.p <= used
  }

  // At record k: everything before it is settled or was kept for later.
  predicate Turn(c: Config, g: seq<Tagged>, cur: seq<Tagged>, sc: Scan, used: int, k: nat, closing: bool)
    requires Valid(c)
  {
    && |GroupPages(c, g)| > 0 && Mid(c, g, cur, sc, used) && k <= |cur|
    && (if IsLargeGroup(c, g) then k == 0 && sc == Start(sc.page) && cur == g
        else sc.pos == Offset(Recs(cur), k) && sc.chunks == 1)
    && (sc.fully <==> AllDead(cur, k))
    && (if sc.fully then sc.minRem == 0 else sc.minRem > 0 && !Pressure(c, used, closing))
  }

  // The scan is over: the page is called consumed exactly when nothing live is left, and then the
  // number of pages to release is the number of pages of the group.
  predicate Over(c: Config, g: seq<Tagged>, cur: seq<Tagged>, sc: Scan, used: int, closing: bool)
    requires Valid(c)
  {
    && |GroupPages(c, g)| > 0 && Mid(c, g, cur, sc, used)
    && (sc.fully <==> AllDead(cur, |cur|))
    && (sc.fully ==> sc.chunks == |GroupPages(c, cur)|)
    && (if sc.fully then sc.minRem == 0 else sc.minRem > 0 && !Pressure(c, used, closing))
  }

  predicate IsFirstPage(c: Config, g: seq<Tagged>, page: Page)
    requires Valid(c)
  {
    |GroupPages(c, g)| > 0 && page == GroupPages(c, g)[0]
  }

  // The payload read so far: n bytes, or all of them.
  function Prefix(data: seq<byte>, n: int): seq<byte>
  {
    if n < 0 then [] else if n < |data| then data[..n] else data
  }

  predicate GroupsOk(c: Config, groups: seq<Group>)
    requires Valid(c)
  {
    forall i :: 0 <= i < |groups| ==> GroupOk(c, groups[i].recs)
  }

  predicate SweeperOk(c: Config, sw: Sweeper, groups: seq<Group>)
    requires Valid(c)
  {
    && GroupsOk(c, groups)
    && match sw.pc
       case Reading => groups != []
       case Snapping(page) => groups != [] && sw.cur == groups[0].recs && IsFirstPage(c, sw.cur, page)
       case Scanning(sc, used, k) => groups != [] && Turn(c, groups[0].recs, sw.cur, sc, used, k, sw.closing)
       case Judging(sc, used, k, look) =>
         && groups != [] && Turn(c, groups[0].recs, sw.cur, sc, used, k, sw.closing)
         && k < |sw.cur| && Live(sw.cur[k].rec)
       case Gathering(sc, used, v, age, look, n, i, payload) =>
         && groups != [] && Turn(c, groups[0].recs, sw.cur, sc, used, 0, sw.closing)
         && IsLargeGroup(c, sw.cur) && Live(sw.cur[0].rec)
         && n == |GroupPages(c, sw.cur)| && 1 <= i <= n
         && payload == Prefix(sw.cur[0].rec.data, i * c.p - HDR)
         && GoodVerdict(c, v, age, look, used, sw.closing)
       case Writing(sc, used) => groups != [] && sc.dirty && Over(c, groups[0].recs, sw.cur, sc, used, sw.closing)
       case Deciding(sc, used) =>
         groups != [] && sw.cur == groups[0].recs && Over(c, groups[0].recs, sw.cur, sc, used, sw.closing)
       case Releasing(n) =>
         groups != [] && sw.cur == groups[0].recs && AllDead(sw.cur, |sw.cur|) && n == |GroupPages(c, sw.cur)|
       case ParkPage(d) => groups != [] && sw.cur == groups[0].recs && !AllDead(sw.cur, |sw.cur|) && !sw.closing
       case Exited => groups == [] && sw.closing
       case _ => true
  }

  predicate GoodVerdict(c: Config, v: Verdict, age: int, look: Seen, used: int, closing: bool)
  {
    match v
    case Deliver => look.interesting
    case Evict => !look.interesting && (age >= c.wait || Pressure(c, used, closing))
    case Keep => false
  }

  // A callback fits the record it settles: the original payload under the original trace ID for a
  // delivery, a reason for an eviction.
  predicate OutcomeOk(c: Config, x: Resolution)
  {
    match x.out
    case Delivered(tid, payload) => tid == x.rec.rec.tid && payload == x.rec.rec.data && x.look.interesting
    case Evicted(age) => !x.look.interesting && (age >= c.wait || Pressure(c, x.used, x.closing))
  }

  // A step either settles exactly one live record of the scanned group, or none.
  ghost predicate Settles(c: Config, s: State, s': State, k: nat)
  {
    && (s.s.pc.Judging? || s.s.pc.Gathering?)
    && k < |s.s.cur| && Live(s.s.cur[k].rec) && s'.s.cur == Settled(s.s.cur, k)
    && |s'.h.resolved| == |s.h.resolved| + 1
    && var x := s'.h.resolved[|s.h.resolved|];
       s'.h == s.h.(resolved := s.h.resolved + [x]) && x.rec == s.s.cur[k] && OutcomeOk(c, x)
       && x.look == s.s.pc.look && x.used == s.s.pc.used && x.closing == s.s.closing
  }

  ghost predicate SettlesNone(s: State, s': State)
  {
    s'.s.cur == s.s.cur && s'.h == s.h
  }

  lemma GroupPageCount(c: Config, g: seq<Tagged>)
    requires Valid(c) && GroupOk(c, g)
    ensures |GroupPages(c, g)| >= 1
    ensures !IsLargeGroup(c, g) ==> |GroupPages(c, g)| == 1
    ensures forall i :: 0 <= i < |GroupPages(c, g)| ==> |GroupPages(c, g)[i]| == c.p
  {
    hide EncodePage, Chunk;
    if IsLargeGroup(c, g) {
      NumChunksBounds(c.p, Size(g[0].rec));
    } else {
      assert |EncodePage(c.p, Recs(g))| == c.p by { PageLength(c.p, Recs(g)); }
    }
  }

  lemma PageLength(p: nat, rs: seq<Record>)
    requires RecordsLen(rs) <= p
    ensures |EncodePage(p, rs)| == p
  {
  }

  lemma ReadHeadOk(c: Config, s: State)
    requires Valid(c) && SweeperOk(c, s.s, s.h.groups) && s.s.pc.Reading?
    requires RingOk(c, s.file, s.used, s.s.at, s.s.head, s.w.head, s.h.groups, s.h.inflight)
    ensures SweeperOk(c, ReadHead(c, s).s, s.h.groups) && ReadHead(c, s).h == s.h
  {
    hide GroupPages, Flat, Moved, RingOk, ReadAt;
    GroupPageCount(c, s.h.groups[0].recs);
    RingRead(c, s.file, s.used, s.s.at, s.s.head, s.w.head, s.h.groups, s.h.inflight, 0);
  }

  lemma SnapshotOk(c: Config, s: State)
    requires Valid(c) && SweeperOk(c, s.s, s.h.groups) && s.s.pc.Snapping?
    requires RingOk(c, s.file, s.used, s.s.at, s.s.head, s.w.head, s.h.groups, s.h.inflight)
    ensures SweeperOk(c, Snapshot(s).s, s.h.groups) && SettlesNone(s, Snapshot(s))
  {
    hide GroupPages, RingOk;
    var g := s.h.groups[0].recs;
    GroupPageCount(c, g);
    FlatHead(c, s.h.groups);
    RingRoom(c, s.file, s.used, s.s.at, s.s.head, s.w.head, s.h.groups, s.h.inflight, |GroupPages(c, g)|);
    assert GroupPages(c, g)[0 := s.s.pc.page] == GroupPages(c, g);
  }

  // ---- What the scan sees ----

  lemma ShapeKind(c: Config, g: seq<Tagged>, cur: seq<Tagged>)
    requires Shape(g, cur)
    ensures IsLargeGroup(c, g) <==> IsLargeGroup(c, cur)
  {
  }

  lemma SmallGroupFacts(c: Config, g: seq<Tagged>)
    requires Valid(c) && GroupOk(c, g) && !IsLargeGroup(c, g)
    ensures AllRepresentable(Recs(g)) && RecordsLen(Recs(g)) <= c.p && RealIds(Recs(g))
    ensures GroupPages(c, g) == [EncodePage(c.p, Recs(g))]
  {
  }

  lemma KindSmall(c: Config, g: seq<Tagged>, cur: seq<Tagged>, sc: Scan, used: int, k: nat, closing: bool)
    requires Valid(c) && Turn(c, g, cur, sc, used, k, closing) && !IsLargeGroup(c, g)
    ensures sc.page == EncodePage(c.p, Recs(cur)) && AllRepresentable(Recs(cur)) && RealIds(Recs(cur))
    ensures RecordsLen(Recs(cur)) <= c.p
    ensures KindAt(c, sc, used)
         == if k == |cur| then Stop else if Live(cur[k].rec) then Small(Size(cur[k].rec)) else Finished(Size(cur[k].rec))
  {
    hide EncodePage, Offset, GroupPages, Classify, GroupOk, RecordsLen;
    ShapeKind(c, g, cur);
    SmallGroupFacts(c, cur);
    SmallGroupFacts(c, g);
    assert [EncodePage(c.p, Recs(g))][0 := sc.page] == [sc.page];
    ClassifySmall(c.p, Recs(cur), k, used);
  }

  lemma KindLarge(c: Config, g: seq<Tagged>, cur: seq<Tagged>, sc: Scan, used: int, k: nat, closing: bool)
    requires Valid(c) && Turn(c, g, cur, sc, used, k, closing) && IsLargeGroup(c, g)
    ensures k == 0 && cur == g && |g| == 1 && sc.page == Chunk(c.p, g[0].rec, 0)
    ensures TidAt(sc.page, 0) == g[0].rec.tid && TimeAt(sc.page, 0) == g[0].rec.at && LenAt(sc.page, 0) == |g[0].rec.data|
    ensures sc.page[HDR..] == g[0].rec.data[..c.p - HDR]
    ensures KindAt(c, sc, used) == if Live(g[0].rec) then Large(|GroupPages(c, g)|) else LargeFinished(|GroupPages(c, g)|)
  {
    hide Chunk, TidAt, TimeAt, LenAt;
    FirstChunk(c.p, g[0].rec);
    assert GroupPages(c, cur)[0] == sc.page;
  }

  lemma SmallEnds(c: Config, g: seq<Tagged>, cur: seq<Tagged>, sc: Scan, used: int, k: nat, closing: bool)
    requires Valid(c) && Turn(c, g, cur, sc, used, k, closing) && !IsLargeGroup(c, g) && k == |cur|
    ensures Over(c, g, cur, sc, used, closing)
  {
    hide GroupPages, GroupOk, Pressure, Offset;
    GroupPageCount(c, g);
  }

  lemma SmallSkips(c: Config, g: seq<Tagged>, cur: seq<Tagged>, sc: Scan, used: int, k: nat, closing: bool)
    requires Valid(c) && Turn(c, g, cur, sc, used, k, closing) && !IsLargeGroup(c, g)
    requires k < |cur| && !Live(cur[k].rec)
    ensures Turn(c, g, cur, sc.(pos := sc.pos + Size(cur[k].rec)), used, k + 1, closing)
  {
    hide GroupPages, GroupOk, Pressure, Offset;
    NextOffset(Recs(cur), k);
  }

  lemma LargeEnds(c: Config, g: seq<Tagged>, cur: seq<Tagged>, sc: Scan, used: int, k: nat, closing: bool)
    requires Valid(c) && Turn(c, g, cur, sc, used, k, closing) && IsLargeGroup(c, g) && !Live(g[0].rec)
    ensures Over(c, g, cur, sc.(chunks := |GroupPages(c, g)|), used, closing)
  {
    hide GroupPages, GroupOk, Pressure, Offset;
  }

  // KindSmall, without the bytes.
  lemma KindSmallOnly(c: Config, g: seq<Tagged>, cur: seq<Tagged>, sc: Scan, used: int, k: nat, closing: bool)
    requires Valid(c) && Turn(c, g, cur, sc, used, k, closing) && !IsLargeGroup(c, g)
    ensures k <= |cur|
    ensures KindAt(c, sc, used)
         == if k == |cur| then Stop else if Live(cur[k].rec) then Small(Size(cur[k].rec)) else Finished(Size(cur[k].rec))
  {
    KindSmall(c, g, cur, sc, used, k, closing);
  }

  // KindLarge, without the bytes.
  lemma KindLargeOnly(c: Config, g: seq<Tagged>, cur: seq<Tagged>, sc: Scan, used: int, k: nat, closing: bool)
    requires Valid(c) && Turn(c, g, cur, sc, used, k, closing) && IsLargeGroup(c, g)
    ensures k == 0 && cur == g && |g| == 1
    ensures KindAt(c, sc, used) == if Live(g[0].rec) then Large(|GroupPages(c, g)|) else LargeFinished(|GroupPages(c, g)|)
  {
    KindLarge(c, g, cur, sc, used, k, closing);
  }

  lemma LookAtSmallOk(c: Config, s: State)
    requires Valid(c) && SweeperOk(c, s.s, s.h.groups) && s.s.pc.Scanning? && !IsLargeGroup(c, s.h.groups[0].recs)
    ensures SweeperOk(c, LookAt(c, s).s, s.h.groups) && SettlesNone(s, LookAt(c, s))
  {
    hide GroupPages, GroupOk, TidAt, TimeAt, Turn, Over, KindAt, Pressure, IsLargeGroup, GoodVerdict;
    var sc, used, k := s.s.pc.sc, s.s.pc.used, s.s.pc.k;
    var g, cur := s.h.groups[0].recs, s.s.cur;
    TurnBasics(c, g, cur, sc, used, k, s.s.closing);
    KindSmallOnly(c, g, cur, sc, used, k, s.s.closing);
    if k == |cur| {
      SmallEnds(c, g, cur, sc, used, k, s.s.closing);
    } else if !Live(cur[k].rec) {
      SmallSkips(c, g, cur, sc, used, k, s.s.closing);
    }
  }

  lemma LookAtLargeOk(c: Config, s: State)
    requires Valid(c) && SweeperOk(c, s.s, s.h.groups) && s.s.pc.Scanning? && IsLargeGroup(c, s.h.groups[0].recs)
    ensures SweeperOk(c, LookAt(c, s).s, s.h.groups) && SettlesNone(s, LookAt(c, s))
  {
    hide GroupPages, GroupOk, TidAt, TimeAt, Turn, Over, KindAt, Pressure, IsLargeGroup, GoodVerdict;
    var sc, used, k := s.s.pc.sc, s.s.pc.used, s.s.pc.k;
    var g, cur := s.h.groups[0].recs, s.s.cur;
    TurnBasics(c, g, cur, sc, used, k, s.s.closing);
    KindLarge(c, g, cur, sc, used, k, s.s.closing);
    if !Live(g[0].rec) {
      LargeEnds(c, g, cur, sc, used, k, s.s.closing);
    }
  }

  lemma TurnBasics(c: Config, g: seq<Tagged>, cur: seq<Tagged>, sc: Scan, used: int, k: nat, closing: bool)
    requires Valid(c) && Turn(c, g, cur, sc, used, k, closing)
    ensures |cur| == |g| && k <= |cur| && |sc.page| == c.p && GroupOk(c, g) && GroupOk(c, cur)
    ensures IsLargeGroup(c, cur) <==> IsLargeGroup(c, g)
    ensures !sc.dirty ==> cur == g
    ensures IsLargeGroup(c, g) ==> k == 0 && cur == g && sc == Start(sc.page)
    ensures |GroupPages(c, cur)| == |GroupPages(c, g)| > 0
    ensures GroupPages(c, cur) == GroupPages(c, g)[0 := sc.page]
    ensures |GroupPages(c, g)| * c.p <= used
  {
    hide GroupPages, GroupOk, Pressure, Offset;
    ShapeKind(c, g, cur);
  }

  lemma NextOffset(rs: seq<Record>, k: nat)
    requires k < |rs|
    ensures Offset(rs, k + 1) == Offset(rs, k) + Size(rs[k])
  {
  }

  lemma SettledRecs(cur: seq<Tagged>, k: nat)
    requires k < |cur|
    ensures Recs(Settled(cur, k)) == Rename(Recs(cur), k, TOMBSTONE)
  {
  }

  lemma SettledShape(g: seq<Tagged>, cur: seq<Tagged>, k: nat)
    requires Shape(g, cur) && k < |cur|
    ensures Shape(g, Settled(cur, k))
  {
  }

  lemma SettledGroupOk(c: Config, cur: seq<Tagged>, k: nat)
    requires Valid(c) && GroupOk(c, cur) && k < |cur|
    ensures GroupOk(c, Settled(cur, k)) && (IsLargeGroup(c, Settled(cur, k)) <==> IsLargeGroup(c, cur))
  {
    hide Offset;
    IdsDiffer();
    SettledRecs(cur, k);
    RenameFirst(Recs(cur), k, TOMBSTONE, |cur|);
  }

  // Settling record k of a page of small records: the page tracks the group.
  lemma SettlePage(c: Config, g: seq<Tagged>, cur: seq<Tagged>, sc: Scan, used: int, k: nat, closing: bool)
    requires Valid(c) && Turn(c, g, cur, sc, used, k, closing) && !IsLargeGroup(c, g) && k < |cur|
    ensures sc.pos + Size(cur[k].rec) == Offset(Recs(cur), k + 1) <= c.p
    ensures TidAt(sc.page, sc.pos) == cur[k].rec.tid && TimeAt(sc.page, sc.pos) == cur[k].rec.at
    ensures PayloadAt(sc.page, sc.pos, |cur[k].rec.data|) == cur[k].rec.data
    ensures Offset(Recs(Settled(cur, k)), k + 1) == Offset(Recs(cur), k + 1)
    ensures GroupPages(c, Settled(cur, k)) == [Overwrite(sc.page, sc.pos, TOMBSTONE)]
  {
    hide EncodePage, Offset, GroupOk, TidAt, TimeAt, PayloadAt, Overwrite, RecordsLen, KindAt, Shape;
    KindSmall(c, g, cur, sc, used, k, closing);
    RecordAtOffset(c.p, Recs(cur), k);
    SettleSmall(c.p, Recs(cur), k, Evict);
    SettledRecs(cur, k);
    ShapeKind(c, g, cur);
    SettledGroupOk(c, cur, k);
  }

  lemma SettledDead(cur: seq<Tagged>, k: nat)
    requires k < |cur|
    ensures AllDead(Settled(cur, k), k + 1) <==> AllDead(cur, k)
    ensures Live(cur[k].rec) ==> !AllDead(cur, k + 1)
  {
  }

  lemma SmallKept(c: Config, g: seq<Tagged>, cur: seq<Tagged>, sc: Scan, used: int, k: nat, closing: bool, rem: int)
    requires Valid(c) && Turn(c, g, cur, sc, used, k, closing) && !IsLargeGroup(c, g)
    requires k < |cur| && Live(cur[k].rec) && rem > 0 && !Pressure(c, used, closing)
    ensures Turn(c, g, cur, sc.(fully := false, minRem := Smaller(sc.minRem, rem), pos := sc.pos + Size(cur[k].rec)), used, k + 1, closing)
  {
    hide GroupPages, GroupOk, Pressure, Offset;
    NextOffset(Recs(cur), k);
    SettledDead(cur, k);
  }

  lemma SmallSettled(c: Config, g: seq<Tagged>, cur: seq<Tagged>, sc: Scan, used: int, k: nat, closing: bool)
    requires Valid(c) && Turn(c, g, cur, sc, used, k, closing) && !IsLargeGroup(c, g) && k < |cur|
    ensures sc.pos + 16 <= |sc.page|
    ensures Turn(c, g, Settled(cur, k),
                 sc.(page := Overwrite(sc.page, sc.pos, TOMBSTONE), dirty := true, pos := sc.pos + Size(cur[k].rec)),
                 used, k + 1, closing)
  {
    hide GroupPages, GroupOk, Pressure, Offset, Overwrite, Settled, TidAt, TimeAt, PayloadAt;
    SettlePage(c, g, cur, sc, used, k, closing);
    SettledGroupOk(c, cur, k);
    SettledShape(g, cur, k);
    SettledDead(cur, k);
    OneSettled(cur, k);
    GroupPageCount(c, g);
    assert GroupPages(c, g)[0 := Overwrite(sc.page, sc.pos, TOMBSTONE)] == [Overwrite(sc.page, sc.pos, TOMBSTONE)];
  }

  // What the pass reads at record k of a page of small records.
  lemma RecordBytes(c: Config, g: seq<Tagged>, cur: seq<Tagged>, sc: Scan, used: int, k: nat, closing: bool)
    requires Valid(c) && Turn(c, g, cur, sc, used, k, closing) && !IsLargeGroup(c, g) && k < |cur|
    ensures sc.pos + Size(cur[k].rec) <= c.p == |sc.page|
    ensures TidAt(sc.page, sc.pos) == cur[k].rec.tid && TimeAt(sc.page, sc.pos) == cur[k].rec.at
    ensures PayloadAt(sc.page, sc.pos, |cur[k].rec.data|) == cur[k].rec.data
  {
    hide GroupPages, GroupOk, Pressure, Offset, Overwrite, Settled, TidAt, TimeAt, PayloadAt;
    SettlePage(c, g, cur, sc, used, k, closing);
  }

  // Judging a small record delivers, evicts or keeps that record and no other.
  lemma JudgeSmallOk(c: Config, s: State)
    requires Valid(c) && SweeperOk(c, s.s, s.h.groups) && s.s.pc.Judging? && !IsLargeGroup(c, s.h.groups[0].recs)
    ensures SweeperOk(c, JudgeIt(c, s).s, s.h.groups)
    ensures Settles(c, s, JudgeIt(c, s), s.s.pc.k) || SettlesNone(s, JudgeIt(c, s))
  {
    hide GroupPages, GroupOk, TidAt, TimeAt, PayloadAt, KindAt, Overwrite, Pressure, Settled, Turn, Over, Offset;
    var sc, used, k := s.s.pc.sc, s.s.pc.used, s.s.pc.k;
    var g, cur := s.h.groups[0].recs, s.s.cur;
    KindSmallOnly(c, g, cur, sc, used, k, s.s.closing);
    RecordBytes(c, g, cur, sc, used, k, s.s.closing);
    SmallSettled(c, g, cur, sc, used, k, s.s.closing);
    var rem := c.wait - (s.clock - TimeAt(sc.page, sc.pos));
    if rem > 0 && !Pressure(c, used, s.s.closing) {
      SmallKept(c, g, cur, sc, used, k, s.s.closing, rem);
    }
  }

  lemma OneSettled(cur: seq<Tagged>, k: nat)
    requires k < |cur|
    ensures |Settled(cur, k)| == |cur|
  {
  }

  lemma FirstGroupOk(c: Config, s: State)
    requires Valid(c) && SweeperOk(c, s.s, s.h.groups) && s.s.pc.Judging?
    ensures s.h.groups != [] && GroupOk(c, s.h.groups[0].recs)
  {
    hide GroupOk, Turn;
  }

  lemma JudgeLargeOk(c: Config, s: State)
    requires Valid(c) && SweeperOk(c, s.s, s.h.groups) && s.s.pc.Judging? && IsLargeGroup(c, s.h.groups[0].recs)
    ensures SweeperOk(c, JudgeIt(c, s).s, s.h.groups)
    ensures SettlesNone(s, JudgeIt(c, s))
  {
    FirstGroupOk(c, s);
    hide GroupsOk, GroupPages, GroupOk, TidAt, TimeAt, PayloadAt, Shape, Offset, KindAt, Overwrite, Pressure, Settled, Settle, Log, OutcomeOf;
    var sc, used, k, look := s.s.pc.sc, s.s.pc.used, s.s.pc.k, s.s.pc.look;
    var g, cur := s.h.groups[0].recs, s.s.cur;
    KindLarge(c, g, cur, sc, used, k, s.s.closing);
    GroupPageCount(c, g);
    assert sc.page[HDR..] == Prefix(cur[0].rec.data, 1 * c.p - HDR);
  }

  // Gathering: one more page of payload, or the callback with the whole payload.
  lemma GatherOk(c: Config, s: State)
    requires Valid(c) && SweeperOk(c, s.s, s.h.groups) && s.s.pc.Gathering?
    requires RingOk(c, s.file, s.used, s.s.at, s.s.head, s.w.head, s.h.groups, s.h.inflight)
    ensures SweeperOk(c, GatherMore(c, s).s, s.h.groups)
    ensures Settles(c, s, GatherMore(c, s), 0) || SettlesNone(s, GatherMore(c, s))
  {
    hide SweeperOk, RingOk;
    assert s.s.pc.i <= s.s.pc.n by { GatheringBounds(c, s); }
    if s.s.pc.i < s.s.pc.n {
      GatherPage(c, s);
    } else {
      GatherDone(c, s);
    }
  }

  lemma GatheringBounds(c: Config, s: State)
    requires Valid(c) && SweeperOk(c, s.s, s.h.groups) && s.s.pc.Gathering?
    ensures s.s.pc.i <= s.s.pc.n
  {
    hide Turn, GroupPages, GroupOk;
  }

  lemma LargePages(c: Config, g: seq<Tagged>, i: nat)
    requires Valid(c) && IsLargeGroup(c, g) && i < |GroupPages(c, g)|
    ensures |GroupPages(c, g)| == NumChunks(c.p, Size(g[0].rec))
    ensures GroupPages(c, g)[i] == Chunk(c.p, g[0].rec, i)
  {
    hide Chunk;
  }

  lemma GatherPage(c: Config, s: State)
    requires Valid(c) && SweeperOk(c, s.s, s.h.groups) && s.s.pc.Gathering? && s.s.pc.i < s.s.pc.n
    requires RingOk(c, s.file, s.used, s.s.at, s.s.head, s.w.head, s.h.groups, s.h.inflight)
    ensures SweeperOk(c, GatherMore(c, s).s, s.h.groups) && SettlesNone(s, GatherMore(c, s))
  {
    hide GroupOk, GroupPages, TidAt, TimeAt, LenAt, Turn, Offset, KindAt, Overwrite, Pressure, Settled, RingOk, Chunk, GatherStep, Moved, ReadAt;
    var g, cur, i := s.h.groups[0].recs, s.s.cur, s.s.pc.i;
    TurnBasics(c, g, cur, s.s.pc.sc, s.s.pc.used, 0, s.s.closing);
    var r := cur[0].rec;
    assert |g| == 1 && |GroupPages(c, g)| == NumChunks(c.p, Size(r)) by { LargePages(c, g, 0); }
    LargePages(c, g, i);
    KindLarge(c, g, cur, s.s.pc.sc, s.s.pc.used, 0, s.s.closing);
    RingRead(c, s.file, s.used, s.s.at, s.s.head, s.w.head, s.h.groups, s.h.inflight, i);
    assert Representable(r) by { FirstRepresentable(c, cur); }
    GatherStepChunk(c.p, r, i);
    assert (i + 1) * c.p == i * c.p + c.p;
  }

  lemma FirstRepresentable(c: Config, g: seq<Tagged>)
    requires Valid(c) && GroupOk(c, g)
    ensures |g| > 0 && Representable(g[0].rec)
  {
  }

  // Tombstoning a large record rewrites the first page of its group.
  lemma SettleLarge(c: Config, g: seq<Tagged>, page: Page)
    requires Valid(c) && GroupOk(c, g) && IsLargeGroup(c, g) && page == Chunk(c.p, g[0].rec, 0)
    ensures |Put(page, 0, TOMBSTONE)| == c.p && |GroupPages(c, g)| > 0
    ensures GroupPages(c, Settled(g, 0)) == GroupPages(c, g)[0 := Put(page, 0, TOMBSTONE)]
  {
    hide Chunk, Overwrite;
    var r := g[0].rec;
    RenameLarge(c.p, r, TOMBSTONE);
    GroupPageCount(c, g);
    assert Settled(g, 0) == [g[0].(rec := r.(tid := TOMBSTONE))];
    assert Put(page, 0, TOMBSTONE) == Overwrite(page, 0, TOMBSTONE);
  }

  lemma GatherDone(c: Config, s: State)
    requires Valid(c) && SweeperOk(c, s.s, s.h.groups) && s.s.pc.Gathering? && s.s.pc.i == s.s.pc.n
    ensures SweeperOk(c, GatherMore(c, s).s, s.h.groups)
    ensures Settles(c, s, GatherMore(c, s), 0)
  {
    hide GroupOk, GroupPages, TidAt, TimeAt, LenAt, Turn, Over, Offset, KindAt, Pressure, Chunk, GatherStep, Moved, ReadAt, Put, Settled;
    var g, cur, sc, used := s.h.groups[0].recs, s.s.cur, s.s.pc.sc, s.s.pc.used;
    TurnBasics(c, g, cur, sc, used, 0, s.s.closing);
    LargeSettled(c, g, cur, sc, used, s.s.closing);
    KindLarge(c, g, cur, sc, used, 0, s.s.closing);
    assert s.s.pc.payload == cur[0].rec.data by { WholePayload(c, cur, s.s.pc.payload); }
  }

  lemma LargeSettled(c: Config, g: seq<Tagged>, cur: seq<Tagged>, sc: Scan, used: int, closing: bool)
    requires Valid(c) && Turn(c, g, cur, sc, used, 0, closing) && IsLargeGroup(c, g)
    ensures Over(c, g, Settled(cur, 0),
                 sc.(page := Put(sc.page, 0, TOMBSTONE), dirty := true, chunks := |GroupPages(c, g)|), used, closing)
  {
    hide GroupPages, GroupOk, Pressure, Offset, Put, Settled, TidAt, TimeAt, LenAt, Chunk;
    KindLarge(c, g, cur, sc, used, 0, closing);
    SettleLarge(c, g, sc.page);
    SettledGroupOk(c, cur, 0);
    SettledShape(g, cur, 0);
    SettledDead(cur, 0);
    OneSettled(cur, 0);
  }

  lemma WholePayload(c: Config, cur: seq<Tagged>, payload: seq<byte>)
    requires Valid(c) && GroupOk(c, cur) && IsLargeGroup(c, cur)
    requires payload == Prefix(cur[0].rec.data, |GroupPages(c, cur)| * c.p - HDR)
    ensures payload == cur[0].rec.data
  {
    NumChunksBounds(c.p, Size(cur[0].rec));
  }

  lemma WriteBackOk(c: Config, s: State)
    requires Valid(c) && SweeperOk(c, s.s, s.h.groups) && s.s.pc.Writing?
    requires RingOk(c, s.file, s.used, s.s.at, s.s.head, s.w.head, s.h.groups, s.h.inflight)
    ensures var s' := WriteBack(s);
            && SweeperOk(c, s'.s, s'.h.groups) && s'.s.cur == s.s.cur
            && s'.h == s.h.(groups := s.h.groups[0 := s.h.groups[0].(recs := s.s.cur)])
            && RingOk(c, s'.file, s.used, s.s.at, s.s.head, s.w.head, s'.h.groups, s.h.inflight)
  {
    hide GroupPages, GroupOk, Pressure, Flat, RingOk, Put;
    var s', g, cur, sc := WriteBack(s), s.h.groups[0].recs, s.s.cur, s.s.pc.sc;
    RingWriteBack(c, s.file, s.used, s.s.at, s.s.head, s.w.head, s.h.groups, s.h.inflight, cur, sc.page);
    assert GroupPages(c, cur)[0 := sc.page] == GroupPages(c, cur);
  }

  lemma DecideOk(c: Config, s: State)
    requires Valid(c) && SweeperOk(c, s.s, s.h.groups) && s.s.pc.Deciding?
    ensures SweeperOk(c, Decide(s).s, s.h.groups) && SettlesNone(s, Decide(s))
  {
    hide GroupPages, GroupOk, Shape;
  }

  lemma ReleaseOk(c: Config, s: State)
    requires Valid(c) && SweeperOk(c, s.s, s.h.groups) && s.s.pc.Releasing?
    requires RingOk(c, s.file, s.used, s.s.at, s.s.head, s.w.head, s.h.groups, s.h.inflight)
    ensures var s' := Release(c, s);
            && SweeperOk(c, s'.s, s'.h.groups)
            && s'.h == s.h.(groups := s.h.groups[1..], base := s.h.groups[0].hi)
            && AllDead(s.h.groups[0].recs, |s.h.groups[0].recs|)
            && RingOk(c, s.file, s'.used, s'.s.at, s'.s.head, s.w.head, s'.h.groups, s.h.inflight)
  {
    hide GroupPages, GroupOk, RingOk, Moved;
    RingRelease(c, s.file, s.used, s.s.at, s.s.head, s.w.head, s.h.groups, s.h.inflight, s.s.pc.chunks);
  }

  // `used` is zero exactly when no group is committed, so the sweeper never exits early.
  lemma LoadUsedOk(c: Config, s: State)
    requires Valid(c) && SweeperOk(c, s.s, s.h.groups) && s.s.pc.Top?
    requires RingOk(c, s.file, s.used, s.s.at, s.s.head, s.w.head, s.h.groups, s.h.inflight)
    ensures SweeperOk(c, LoadUsed(s).s, s.h.groups) && SettlesNone(s, LoadUsed(s))
    ensures s.used == 0 <==> s.h.groups == []
  {
    hide GroupPages, RingOk;
    RingRoom(c, s.file, s.used, s.s.at, s.s.head, s.w.head, s.h.groups, s.h.inflight, 0);
    if s.h.groups != [] {
      FlatHead(c, s.h.groups);
      GroupPageCount(c, s.h.groups[0].recs);
    }
  }

  // Committing a group behind the others changes nothing the sweeper knows.
  lemma CommitKeepsSweeper(c: Config, sw: Sweeper, groups: seq<Group>, g: Group)
    requires Valid(c) && SweeperOk(c, sw, groups) && GroupOk(c, g.recs) && !sw.pc.Exited?
    ensures SweeperOk(c, sw, groups + [g])
  {
    hide Turn, Over, GroupOk, GroupPages, AllDead;
  }
}
