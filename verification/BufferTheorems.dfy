// The main results about every reachable state of the span buffer.
module BufferTheorems {
  import opened Bytes
  import opened Records
  import opened PageCodec
  import opened Ring
  import opened SweepPage
  import opened Interest
  import opened BufferMachine
  import opened BufferRing
  import opened BufferWriter
  import opened BufferSweeper
  import opened BufferInvariant
  import opened BufferAccounts
  import opened BufferOrder
  import opened BufferEvidence
  import opened BufferWakeups

  // Nothing is dropped before Close.
  predicate DropsAfterClose(s: State)
  {
    s.h.dropped != [] ==> s.closed
  }

  ghost predicate Inv(c: Config, s: State)
    requires Valid(c)
  {
    Core(c, s) && Balance(s) && Order(s) && Evidence(c, s) && Wakes(c, s) && DropsAfterClose(s)
  }

  lemma InvInit(c: Config, s: State)
    requires Valid(c) && Init(c, s)
    ensures Inv(c, s)
  {
    hide Core, Balance, Order, Evidence, Wakes;
    CoreInit(c, s);
    BalanceInit(c, s);
    OrderInit(c, s);
    EvidenceInit(c, s);
    WakesInit(c, s);
  }

  lemma InvKept(c: Config, s: State, step: Step)
    requires Valid(c) && Inv(c, s) && Enabled(c, s, step)
    ensures Inv(c, Apply(c, s, step))
  {
    hide Core, Balance, Order, Evidence, Wakes, Apply, DropsAfterClose, FromThePast;
    CoreKept(c, s, step);
    BalanceKept(c, s, step);
    OrderKept(c, s, step);
    WakesPast(c, s);
    EvidenceKept(c, s, step);
    WakesKept(c, s, step);
    DropsKept(c, s, step);
  }

  lemma DropsKept(c: Config, s: State, step: Step)
    requires Valid(c) && Core(c, s) && DropsAfterClose(s) && Enabled(c, s, step)
    ensures DropsAfterClose(Apply(c, s, step))
  {
    hide Core;
    match step
    case WReceive => ReceiveDrops(c, s);
    case WWake =>
      CoreParts(c, s);
      WakeSweeperOk(c, s);
      WakeFrame(c, s);
    case RLook => LookFrame(c, s);
    case RJudge => JudgeFrame(c, s);
    case RGather => GatherFrame(c, s);
    case _ => OtherDrops(c, s, step);
  }

  lemma ReceiveDrops(c: Config, s: State)
    requires Valid(c) && Core(c, s) && DropsAfterClose(s) && s.w.pc.Idle? && s.queue != []
    ensures DropsAfterClose(Receive(c, s))
  {
    hide Core, Handle, WriterOk, Good;
    CoreParts(c, s);
    FrontGood(c, s);
    var s1 := s.(queue := s.queue[1..], h := s.h.(taken := s.h.taken + 1));
    HandleOk(c, s1, s.queue[0]);
    HandleFrame(c, s1, s.queue[0]);
  }

  lemma OtherDrops(c: Config, s: State, step: Step)
    requires Valid(c) && DropsAfterClose(s) && Enabled(c, s, step)
    requires !step.WReceive? && !step.WWake? && !step.RLook? && !step.RJudge? && !step.RGather?
    ensures DropsAfterClose(Apply(c, s, step))
  {
    hide Put, Chunk, NumChunks, Moved, ClearTail, ReadAt, Start, RequestOf;
  }

  lemma FrontGood(c: Config, s: State)
    requires Valid(c) && Core(c, s)
    ensures s.queue != [] ==> Good(c, s.queue[0])
  {
    hide RingOk, WriterOk, SweeperOk, Good;
  }

  lemma {:induction false} InvAlongRun(c: Config, run: seq<State>, steps: seq<Step>, k: nat)
    requires Valid(c) && IsRun(c, run, steps) && Inv(c, run[0]) && k < |run|
    ensures Inv(c, run[k])
  {
    hide Inv, Enabled, Apply;
    if k > 0 {
      InvAlongRun(c, run, steps, k - 1);
      InvKept(c, run[k - 1], steps[k - 1]);
    }
  }

  lemma ReachableInv(c: Config, s: State)
    requires Valid(c) && Reachable(c, s)
    ensures Inv(c, s)
  {
    hide Inv, Enabled, Apply, Init;
    var run, steps :| IsRun(c, run, steps) && Init(c, run[0]) && run[|steps|] == s;
    InvInit(c, run[0]);
    InvAlongRun(c, run, steps, |steps|);
  }

  // ---- Ring ownership ----

  // `used` stays within the file; both heads are page-aligned offsets inside it; and the writer's
  // head is the sweeper's plus the used bytes plus the bytes in flight, modulo the file size.
  lemma RingOwnership(c: Config, s: State)
    requires Valid(c) && Reachable(c, s)
    ensures 0 <= s.used <= MaxBytes(c)
    ensures s.s.at < c.m && s.s.head == s.s.at * c.p < MaxBytes(c)
    ensures exists k: nat :: k < c.m && s.w.head == k * c.p < MaxBytes(c)
    ensures s.w.head == (s.s.head + s.used + |s.h.inflight| * c.p) % MaxBytes(c)
  {
    hide RingOk, Core, Balance, Order, Evidence, Wakes;
    ReachableInv(c, s);
    CoreParts(c, s);
    HeadsAligned(c, s.file, s.used, s.s.at, s.s.head, s.w.head, s.h.groups, s.h.inflight);
  }

  lemma HeadsAligned(c: Config, file: seq<byte>, used: int, at: nat, shead: nat, whead: nat,
                     groups: seq<Group>, inflight: seq<Page>)
    requires Valid(c) && RingOk(c, file, used, at, shead, whead, groups, inflight)
    ensures 0 <= used <= MaxBytes(c) && at < c.m && shead == at * c.p < MaxBytes(c)
    ensures exists k: nat :: k < c.m && whead == k * c.p < MaxBytes(c)
    ensures whead == (shead + used + |inflight| * c.p) % MaxBytes(c)
  {
    hide Flat, Region;
    var n := |Flat(c, groups)| + |inflight|;
    RingRoom(c, file, used, at, shead, whead, groups, inflight, 0);
    Advance(at, n, c.m, c.p);
    Advance(at, 0, c.m, c.p);
    assert n * c.p == used + |inflight| * c.p;
    assert whead == Wrap(at, n, c.m) * c.p < MaxBytes(c);
  }

  // Committed pages, read from the file in ring order.
  ghost predicate CommittedIs(c: Config, file: seq<byte>, at: nat, pages: seq<Page>)
    requires Valid(c)
  {
    |file| == MaxBytes(c) && at < c.m && |pages| <= c.m && Region(file, c.p, c.m, at, |pages|) == pages
  }

  // A page the writer is about to write holds nothing committed.
  lemma WriterDisturbsNothing(c: Config, s: State)
    requires Valid(c) && Reachable(c, s) && (s.w.pc.FlushWrite? || s.w.pc.LargeWrite?)
    ensures CommittedIs(c, s.file, s.s.at, Flat(c, s.h.groups))
    ensures CommittedIs(c, WritePage(c, s).file, s.s.at, Flat(c, s.h.groups))
  {
    hide Flat, Region, Core, Balance, Order, Evidence, Wakes, WritePage;
    ReachableInv(c, s);
    CommittedRegion(c, s);
    WriterFileKeepsCore(c, s);
    CommittedRegion(c, WritePage(c, s));
    WritePageFrame(c, s);
  }

  // The page the sweeper is about to write back is the first committed one, and only that changes.
  lemma SweeperDisturbsNothing(c: Config, s: State)
    requires Valid(c) && Reachable(c, s) && s.s.pc.Writing?
    ensures |Flat(c, s.h.groups)| > 0
    ensures CommittedIs(c, s.file, s.s.at, Flat(c, s.h.groups))
    ensures CommittedIs(c, WriteBack(s).file, s.s.at, Flat(c, s.h.groups)[0 := s.s.pc.sc.page])
  {
    hide Flat, Region, Core, Balance, Order, Evidence, Wakes, WriteBack;
    ReachableInv(c, s);
    CommittedRegion(c, s);
    HeadWriteBack(c, s);
  }

  lemma WritePageFrame(c: Config, s: State)
    requires Valid(c) && (s.w.pc.FlushWrite? || s.w.pc.LargeWrite?)
    ensures WritePage(c, s).h.groups == s.h.groups && WritePage(c, s).s == s.s
  {
    hide Put, Chunk, NumChunks, Moved;
  }

  lemma CommittedRegion(c: Config, s: State)
    requires Valid(c) && Core(c, s)
    ensures CommittedIs(c, s.file, s.s.at, Flat(c, s.h.groups))
  {
    hide WriterOk, SweeperOk, Flat;
    var n, all := |Flat(c, s.h.groups)|, |Flat(c, s.h.groups)| + |s.h.inflight|;
    assert Region(s.file, c.p, c.m, s.s.at, n) == Region(s.file, c.p, c.m, s.s.at, all)[..n];
  }

  lemma HeadWriteBack(c: Config, s: State)
    requires Valid(c) && Core(c, s) && s.s.pc.Writing?
    ensures |Flat(c, s.h.groups)| > 0
    ensures CommittedIs(c, WriteBack(s).file, s.s.at, Flat(c, s.h.groups)[0 := s.s.pc.sc.page])
  {
    CommittedRegion(c, s);
    WritingFacts(c, s);
    hide Core, Flat, Region, Overwrite, GroupPages;
    assert |Flat(c, s.h.groups)| > 0 by { FlatHead(c, s.h.groups); }
    WriteFirstPage(s.file, c.p, c.m, s.s.at, |Flat(c, s.h.groups)|, s.s.pc.sc.page);
  }

  lemma WritingFacts(c: Config, s: State)
    requires Valid(c) && Core(c, s) && s.s.pc.Writing?
    ensures s.h.groups != [] && |GroupPages(c, s.h.groups[0].recs)| > 0 && |s.s.pc.sc.page| == c.p
    ensures s.s.head == s.s.at * c.p
  {
    hide GroupPages, GroupOk, Pressure, WriterOk, Flat, Region;
  }

  // Whenever `used` is positive, the page at the sweeper's head is the first page of a committed
  // group whose pages all lie within `used`. So no continuation page is ever parsed as a header.
  lemma HeadStartsAGroup(c: Config, s: State)
    requires Valid(c) && Reachable(c, s) && s.used > 0
    ensures s.h.groups != [] && |GroupPages(c, s.h.groups[0].recs)| > 0
    ensures |GroupPages(c, s.h.groups[0].recs)| * c.p <= s.used
    ensures ReadAt(s.file, s.s.head, c.p) == GroupPages(c, s.h.groups[0].recs)[0]
  {
    hide GroupPages, Flat, Moved, ReadAt;
    ReachableInv(c, s);
    CoreParts(c, s);
    RingRoom(c, s.file, s.used, s.s.at, s.s.head, s.w.head, s.h.groups, s.h.inflight, 0);
    assert s.h.groups != [] by { EmptyFlat(c, s.h.groups); }
    var g := s.h.groups[0].recs;
    GroupPageCount(c, g);
    FlatHead(c, s.h.groups);
    RingRoom(c, s.file, s.used, s.s.at, s.s.head, s.w.head, s.h.groups, s.h.inflight, |GroupPages(c, g)|);
    RingRead(c, s.file, s.used, s.s.at, s.s.head, s.w.head, s.h.groups, s.h.inflight, 0);
  }

  lemma EmptyFlat(c: Config, groups: seq<Group>)
    requires Valid(c)
    ensures groups == [] ==> Flat(c, groups) == []
  {
  }

  // The branch for a large record whose pages are not all committed is never taken.
  lemma LargeRecordAlwaysComplete(c: Config, s: State)
    requires Valid(c) && Reachable(c, s) && s.s.pc.Scanning?
    ensures !KindAt(c, s.s.pc.sc, s.s.pc.used).LargeEarly?
  {
    hide Core, KindAt, IsLargeGroup, Turn;
    ReachableInv(c, s);
    CoreParts(c, s);
    var g := HeadOf(c, s);
    if IsLargeGroup(c, g) {
      KindLargeOnly(c, g, s.s.cur, s.s.pc.sc, s.s.pc.used, s.s.pc.k, s.s.closing);
    } else {
      KindSmallOnly(c, g, s.s.cur, s.s.pc.sc, s.s.pc.used, s.s.pc.k, s.s.closing);
    }
  }

  // Releasing a group never makes `used` negative, and releases exactly that group's pages.
  lemma ReleaseWithinUsed(c: Config, s: State)
    requires Valid(c) && Reachable(c, s) && s.s.pc.Releasing?
    ensures s.h.groups != [] && s.s.pc.chunks == |GroupPages(c, s.h.groups[0].recs)|
    ensures 0 <= Release(c, s).used == s.used - |GroupPages(c, s.h.groups[0].recs)| * c.p
    ensures AllDead(s.h.groups[0].recs, |s.h.groups[0].recs|)
  {
    hide GroupPages, Moved, Flat, Region;
    ReachableInv(c, s);
    CoreParts(c, s);
    ReleaseOk(c, s);
    ReleasingCount(c, s);
    var s' := Release(c, s);
    RingRoom(c, s'.file, s'.used, s'.s.at, s'.s.head, s'.w.head, s'.h.groups, s'.h.inflight, 0);
  }

  lemma ReleasingCount(c: Config, s: State)
    requires Valid(c) && SweeperOk(c, s.s, s.h.groups) && s.s.pc.Releasing?
    ensures s.h.groups != [] && s.s.pc.chunks == |GroupPages(c, s.h.groups[0].recs)|
  {
    hide GroupPages, GroupsOk;
  }

  // ---- Conservation ----

  // Records that have no outcome yet: in the ring, the stage, the writer's hand or the channel.
  function Pending(s: State): multiset<Tagged>
  {
    LiveInGroups(View(s.s.pc, s.s.cur, s.h.groups)) + multiset(s.w.staged) + multiset(AtHand(s.w.pc)) + multiset(s.queue)
  }

  // Every accepted record is in exactly one place, once: resolved by one callback, dropped at
  // shutdown, or pending.
  lemma ExactlyOneOutcome(c: Config, s: State, i: nat)
    requires Valid(c) && Reachable(c, s) && i < |s.h.accepted|
    ensures var t := s.h.accepted[i];
            multiset(Tags(s.h.resolved))[t] + multiset(s.h.dropped)[t] + Pending(s)[t] == 1
  {
    hide LiveInGroups, Tags, View, AtHand, Core, Evidence, Wakes;
    ReachableInv(c, s);
    DistinctIds(s.h.accepted, i);
  }

  lemma {:induction false} DistinctIds(ts: seq<Tagged>, i: nat)
    requires i < |ts| && forall j :: 0 <= j < |ts| ==> ts[j].id == j
    ensures multiset(ts)[ts[i]] == 1
  {
    var n := |ts| - 1;
    assert ts == ts[..n] + [ts[n]];
    if i < n {
      DistinctIds(ts[..n], i);
    } else {
      assert ts[n] !in ts[..n];
    }
  }

  // What the callbacks saw: every delivery carries the bytes and trace ID of one accepted record.
  lemma CallbacksAreFaithful(c: Config, s: State, i: nat)
    requires Valid(c) && Reachable(c, s) && i < |s.h.resolved|
    ensures var x := s.h.resolved[i];
            && x.rec.id < |s.h.accepted| && s.h.accepted[x.rec.id] == x.rec
            && (x.out.Delivered? ==> x.out.tid == x.rec.rec.tid && x.out.payload == x.rec.rec.data)
            && (forall j :: 0 <= j < |s.h.resolved| && j != i ==> s.h.resolved[j].rec != x.rec)
  {
    hide LiveInGroups, View, AtHand, Core, Wakes, SeenOk;
    ReachableInv(c, s);
    var x := s.h.resolved[i];
    var ts := Tags(s.h.resolved);
    assert ts[i] in multiset(ts);
    assert x.rec in multiset(s.h.accepted);
    var k :| 0 <= k < |s.h.accepted| && s.h.accepted[k] == x.rec;
    ExactlyOneOutcome(c, s, k);
    forall j | 0 <= j < |s.h.resolved| && j != i ensures s.h.resolved[j].rec != x.rec {
      if ts[j] == ts[i] {
        TwiceCounted(ts, Min(i, j), if i < j then j else i);
      }
    }
  }

  lemma TwiceCounted(ts: seq<Tagged>, i: nat, j: nat)
    requires i < j < |ts| && ts[i] == ts[j]
    ensures multiset(ts)[ts[i]] >= 2
  {
    assert ts == ts[..j] + [ts[j]] + ts[j + 1..];
    assert ts[i] in ts[..j];
  }

  // ---- Order ----

  // A record still waiting anywhere behind the head group was accepted after every record that
  // has been delivered or evicted so far.
  ghost predicate BehindHead(s: State, y: Tagged)
  {
    || (exists i, j :: 1 <= i < |s.h.groups| && 0 <= j < |s.h.groups[i].recs| && y == s.h.groups[i].recs[j])
    || y in s.w.staged || y in AtHand(s.w.pc) || y in s.queue
  }

  lemma GroupsSettleInOrder(c: Config, s: State, x: Resolution, y: Tagged)
    requires Valid(c) && Reachable(c, s) && x in s.h.resolved && BehindHead(s, y)
    ensures x.rec.id < y.id
    ensures (exists i, j :: 1 <= i < |s.h.groups| && 0 <= j < |s.h.groups[i].recs| && y == s.h.groups[i].recs[j]) ==> Live(y.rec)
  {
    hide Core, Evidence, Wakes, Balance, AtHand, GroupsFrom, LastHi;
    ReachableInv(c, s);
    LastHiBound(s.h.groups, s.h.base);
    FrontBound(s.h.groups, s.h.base);
    if i, j :| 1 <= i < |s.h.groups| && 0 <= j < |s.h.groups[i].recs| && y == s.h.groups[i].recs[j] {
      GroupAbove(s.h.groups, s.h.base, i);
    }
  }

  lemma FrontBound(groups: seq<Group>, base: nat)
    requires GroupsFrom(groups, base)
    ensures Front(groups, base) <= LastHi(groups, base)
  {
    if groups != [] {
      LastHiBound(groups[1..], groups[0].hi);
    }
  }

  lemma {:induction false} GroupAbove(groups: seq<Group>, lo: nat, i: nat)
    requires GroupsFrom(groups, lo) && 1 <= i < |groups|
    ensures forall j :: 0 <= j < |groups[i].recs| ==> groups[0].hi <= groups[i].recs[j].id
  {
    if i > 1 {
      GroupAbove(groups[1..], groups[0].hi, i - 1);
      assert groups[1..][0].hi >= groups[0].hi;
    }
  }

  // ---- Why a record was delivered or evicted ----

  // Some decision for the record's trace was taken by the given time, inside the record's window.
  ghost predicate DecidedBy(adds: seq<Entry<TraceId>>, r: Record, wait: int, time: int)
  {
    exists i :: 0 <= i < |adds| && adds[i].id == r.tid && adds[i].addedAt < r.at + wait && adds[i].addedAt <= time
  }

  // Every resolved record was examined at one moment after it was written. A delivery answers a
  // decision taken by then, inside the record's own window. An eviction means that no decision
  // was standing then, and that the record had aged out, the ring was more than three quarters
  // full at the page snapshot, or the buffer was closing. The decisions are all those ever taken.
  lemma OutcomesAreJustified(c: Config, s: State, x: Resolution)
    requires Valid(c) && Reachable(c, s) && x in s.h.resolved
    ensures x.rec.rec.at <= x.look.time <= s.clock
    ensures x.out.Delivered? ==> DecidedBy(s.h.adds, x.rec.rec, c.wait, x.look.time)
    ensures x.out.Evicted? ==>
              && !Standing(s.h.adds, x.rec.rec.tid, x.rec.rec.at, c.wait, x.look.time)
              && (x.out.age >= c.wait || x.used > MaxBytes(c) * 3 / 4 || x.closing)
  {
    hide Core, Balance, Order, Wakes, InTimeOrder, Refines, Standing, NoStandingDecision;
    ReachableInv(c, s);
    var r, look, adds := x.rec.rec, x.look, s.h.adds;
    assert SeenOk(c, look, r, adds, s.clock) && OutcomeOk(c, x);
    assert adds[..|look.adds|] == look.adds;
    if x.out.Delivered? {
      var i :| 0 <= i < |look.adds| && look.adds[i].id == r.tid && look.adds[i].addedAt < r.at + c.wait;
      assert adds[i] == look.adds[i];
    } else if Standing(adds, r.tid, r.at, c.wait, look.time) {
      StandingIsSeen(adds, |look.adds|, r.tid, r.at, c.wait, look.time);
    }
  }

  // The delivery guarantee: a resolved record was delivered, whole, if a decision for its trace was
  // standing when it was examined: whatever the load, however late the sweep, even while closing.
  lemma StandingDecisionDelivers(c: Config, s: State, x: Resolution)
    requires Valid(c) && Reachable(c, s) && x in s.h.resolved
    requires Standing(s.h.adds, x.rec.rec.tid, x.rec.rec.at, c.wait, x.look.time)
    ensures x.out == Delivered(x.rec.rec.tid, x.rec.rec.data)
  {
    hide Reachable, Standing, DecidedBy;
    OutcomesAreJustified(c, s, x);
    var i :| 0 <= i < |s.h.resolved| && s.h.resolved[i] == x;
    CallbacksAreFaithful(c, s, i);
  }

  // ---- What examining a record does ----

  // The lookup answers for the record at hand, from every decision taken so far: yes whenever one
  // is standing, no unless one came inside the record's window.
  lemma LookupIsCurrent(c: Config, s: State)
    requires Valid(c) && Reachable(c, s) && s.s.pc.Scanning? && LookAt(c, s).s.pc.Judging?
    ensures s.s.pc.k < |s.s.cur| && Live(s.s.cur[s.s.pc.k].rec)
    ensures var r, look := s.s.cur[s.s.pc.k].rec, LookAt(c, s).s.pc.look;
            && LookAt(c, s).s.pc.k == s.s.pc.k && look.time == s.clock && look.adds == s.h.adds
            && (Standing(s.h.adds, r.tid, r.at, c.wait, s.clock) ==> look.interesting)
            && (look.interesting ==> DecidedBy(s.h.adds, r, c.wait, s.clock))
  {
    hide Core, Balance, Order, Wakes, LookAt, InTimeOrder, Refines, Standing, DecidedInTime, NoStandingDecision, SeenAt;
    ReachableInv(c, s);
    CoreParts(c, s);
    hide SweeperOk, LogOk;
    LookedAtLive(c, s);
    LookRecord(c, s);
    LookupMeans(c, s, s.s.cur[s.s.pc.k].rec);
  }

  lemma LookupMeans(c: Config, s: State, r: Record)
    requires Valid(c) && InterestOk(c, s.index, s.h.adds, s.clock)
    ensures Standing(s.h.adds, r.tid, r.at, c.wait, s.clock) ==> HasForSpan(s.index, r.tid, r.at, c.wait)
    ensures HasForSpan(s.index, r.tid, r.at, c.wait) ==> DecidedBy(s.h.adds, r, c.wait, s.clock)
  {
    hide Refines, Standing, NoStandingDecision;
    var adds := s.h.adds;
    if HasForSpan(s.index, r.tid, r.at, c.wait) {
      NoDecisionNoInterest(s.index, adds, s.clock, c.wait, r.tid, r.at);
    } else if Standing(adds, r.tid, r.at, c.wait, s.clock) {
      StandingIsSeen(adds, |adds|, r.tid, r.at, c.wait, s.clock);
      assert adds[..|adds|] == adds;
      NotInterestingMeans(s.index, adds, s.clock, c.wait, r.tid, r.at);
    }
  }

  // What becomes of the examined record. If the lookup said yes, it is delivered, at once when it
  // is small, by way of Gathering when it is large; it is never kept or evicted. If the lookup said
  // no, it is evicted when it has aged out or under pressure, and kept otherwise.
  predicate Judged(c: Config, s: State, s': State)
    requires s.s.pc.Judging? && s.s.pc.k < |s.s.cur|
  {
    var t, look := s.s.cur[s.s.pc.k], s.s.pc.look;
    var evict := s.clock - t.rec.at >= c.wait || Pressure(c, s.s.pc.used, s.s.closing);
    var out := if look.interesting then Delivered(t.rec.tid, t.rec.data) else Evicted(s.clock - t.rec.at);
    if !look.interesting && !evict then s'.s.cur == s.s.cur && s'.h == s.h && !s'.s.pc.Gathering?
    else if !IsLarge(c, t.rec) then
      && s'.s.cur == Settled(s.s.cur, s.s.pc.k)
      && s'.h.resolved == s.h.resolved + [Resolution(t, out, look, s.s.pc.used, s.s.closing)]
    else
      && s'.s.cur == s.s.cur && s'.h == s.h && s'.s.pc.Gathering? && s'.s.pc.look == look
      && s'.s.pc.v == (if look.interesting then Deliver else Evict) && s'.s.pc.age == s.clock - t.rec.at
  }

  lemma JudgeSmallDecides(c: Config, s: State)
    requires Valid(c) && s.s.pc.Judging? && s.s.pc.k < |s.s.cur| && s.s.pc.sc.pos + HDR <= |s.s.pc.sc.page|
    requires var sc, r := s.s.pc.sc, s.s.cur[s.s.pc.k].rec;
             && KindAt(c, sc, s.s.pc.used) == Small(Size(r)) && !IsLarge(c, r)
             && TidAt(sc.page, sc.pos) == r.tid && TimeAt(sc.page, sc.pos) == r.at
             && PayloadAt(sc.page, sc.pos, |r.data|) == r.data
    ensures Judged(c, s, JudgeIt(c, s))
  {
    hide TidAt, TimeAt, PayloadAt, Pressure, Settled, Overwrite, KindAt, Settle;
  }

  lemma JudgeLargeDecides(c: Config, s: State)
    requires Valid(c) && s.s.pc.Judging? && s.s.pc.k < |s.s.cur| && s.s.pc.sc.pos + HDR <= |s.s.pc.sc.page|
    requires var sc, r := s.s.pc.sc, s.s.cur[s.s.pc.k].rec;
             && KindAt(c, sc, s.s.pc.used).Large? && IsLarge(c, r) && TimeAt(sc.page, sc.pos) == r.at
    ensures Judged(c, s, JudgeIt(c, s))
  {
    hide TidAt, TimeAt, PayloadAt, Pressure, Settled, Overwrite, KindAt;
  }

  lemma ExaminationDecides(c: Config, s: State)
    requires Valid(c) && Reachable(c, s) && s.s.pc.Judging?
    ensures s.s.pc.k < |s.s.cur|
    ensures Judged(c, s, JudgeIt(c, s))
  {
    ReachableInv(c, s);
    hide Core, Balance, Order, Evidence, Wakes;
    CoreParts(c, s);
    hide SweeperOk, JudgeIt, KindAt, Turn, IsLargeGroup;
    var g := JudgedHead(c, s);
    TurnBasics(c, g, s.s.cur, s.s.pc.sc, s.s.pc.used, s.s.pc.k, s.s.closing);
    if IsLargeGroup(c, g) {
      KindLarge(c, g, s.s.cur, s.s.pc.sc, s.s.pc.used, s.s.pc.k, s.s.closing);
      JudgeLargeDecides(c, s);
    } else {
      KindSmallOnly(c, g, s.s.cur, s.s.pc.sc, s.s.pc.used, s.s.pc.k, s.s.closing);
      RecordBytes(c, g, s.s.cur, s.s.pc.sc, s.s.pc.used, s.s.pc.k, s.s.closing);
      JudgeSmallDecides(c, s);
    }
  }

  // A large record being gathered reads one more page, or is handed over with the verdict that
  // the lookup led to; nothing else becomes of it.
  lemma GatheringDecides(c: Config, s: State)
    requires Valid(c) && Reachable(c, s) && s.s.pc.Gathering?
    ensures |s.s.cur| == 1
    ensures var s', t, pc := GatherMore(c, s), s.s.cur[0], s.s.pc;
            var out := if pc.look.interesting then Delivered(t.rec.tid, t.rec.data) else Evicted(pc.age);
            if pc.i < pc.n then s'.s.pc.Gathering? && s'.s.pc.i == pc.i + 1 && s'.s.pc.n == pc.n
                                && s'.s.pc.look == pc.look && s'.s.pc.v == pc.v && s'.s.cur == s.s.cur && s'.h == s.h
            else s'.s.pc.Writing? && s'.s.cur == Settled(s.s.cur, 0)
                 && s'.h.resolved == s.h.resolved + [Resolution(t, out, pc.look, pc.used, s.s.closing)]
  {
    ReachableInv(c, s);
    hide Core, Balance, Order, Evidence, Wakes;
    CoreParts(c, s);
    GatheringFresh(c, s);
    GatheredPage(c, s);
    GatheringBounds(c, s);
    if s.s.pc.i < s.s.pc.n {
      GatherPage(c, s);
      GatherNext(c, s);
    } else {
      GatherDone(c, s);
      GatherLast(c, s);
    }
  }

  lemma GatheredPage(c: Config, s: State)
    requires Valid(c) && SweeperOk(c, s.s, s.h.groups) && s.s.pc.Gathering?
    ensures |s.s.pc.sc.page| == c.p
    ensures if s.s.pc.look.interesting then s.s.pc.v.Deliver? else s.s.pc.v.Evict?
  {
    hide GroupPages, GroupsOk, GroupOk, Pressure, Offset, Shape;
  }

  lemma GatherNext(c: Config, s: State)
    requires Valid(c) && s.s.pc.Gathering? && |s.s.pc.sc.page| == c.p && s.s.pc.i < s.s.pc.n
    ensures var s', pc := GatherMore(c, s), s.s.pc;
            && s'.s.pc.Gathering? && s'.s.pc.i == pc.i + 1 && s'.s.pc.n == pc.n
            && s'.s.pc.look == pc.look && s'.s.pc.v == pc.v && s'.s.cur == s.s.cur && s'.h == s.h
  {
    hide ReadAt, GatherStep, LenAt, Moved;
  }

  lemma GatherLast(c: Config, s: State)
    requires Valid(c) && s.s.pc.Gathering? && |s.s.pc.sc.page| == c.p && s.s.pc.i >= s.s.pc.n && |s.s.cur| == 1
    requires if s.s.pc.look.interesting then s.s.pc.v.Deliver? else s.s.pc.v.Evict?
    requires Settles(c, s, GatherMore(c, s), 0)
    ensures var s', t, pc := GatherMore(c, s), s.s.cur[0], s.s.pc;
            var out := if pc.look.interesting then Delivered(t.rec.tid, t.rec.data) else Evicted(pc.age);
            s'.s.pc.Writing? && s'.s.cur == Settled(s.s.cur, 0)
            && s'.h.resolved == s.h.resolved + [Resolution(t, out, pc.look, pc.used, s.s.closing)]
  {
    hide Settled, Put, TidAt, Pressure;
  }

  // ---- Wake-ups ----

  // A writer parked for room that is there will be signalled.
  lemma WriterNotForgotten(c: Config, s: State)
    requires Valid(c) && Reachable(c, s)
    ensures s.w.pc.FlushPark? && s.used + c.p <= MaxBytes(c) ==> s.pageFreed || s.s.pc.Signalling?
    ensures s.w.pc.LargePark? && s.used + ChunksOf(c, s.w.pc.big.rec) * c.p <= MaxBytes(c) ==> s.pageFreed || s.s.pc.Signalling?
  {
    hide Core, Balance, Order, Evidence, NumChunks;
    ReachableInv(c, s);
  }

  // A sweeper parked on an empty ring that is no longer empty will be signalled.
  lemma SweeperNotForgotten(c: Config, s: State)
    requires Valid(c) && Reachable(c, s) && s.s.pc.ParkEmpty? && s.used > 0
    ensures s.wakeup || s.w.pc.FlushWake? || s.w.pc.LargeWake?
  {
    hide Core, Balance, Order, Evidence;
    ReachableInv(c, s);
  }

  // A sweeper parked on an unfinished page with no signal pending or coming has nothing to do:
  // the ring is at most three quarters full, no live record of the page has a standing decision,
  // and a timer is armed, at most one decision window ahead, by which some record ages out.
  lemma ParkedSweeperMissesNothing(c: Config, s: State)
    requires Valid(c) && Reachable(c, s) && s.s.pc.ParkPage?
    requires !s.wakeup && s.senders == 0 && !s.w.pc.FlushWake? && !s.w.pc.LargeWake?
    ensures s.h.groups != [] && s.used <= MaxBytes(c) * 3 / 4
    ensures forall j :: 0 <= j < |s.h.groups[0].recs| && Live(s.h.groups[0].recs[j].rec) ==>
              !HasForSpan(s.index, s.h.groups[0].recs[j].rec.tid, s.h.groups[0].recs[j].rec.at, c.wait)
    ensures s.s.pc.deadline in s.timers && s.s.pc.deadline <= s.clock + c.wait
    ensures exists j :: 0 <= j < |s.h.groups[0].recs| && Live(s.h.groups[0].recs[j].rec)
                        && s.h.groups[0].recs[j].rec.at + c.wait <= s.s.pc.deadline
  {
    hide Core, Balance, Order, Evidence, WriterWatch, FromThePast;
    ReachableInv(c, s);
    CoreParts(c, s);
  }
}
