// Why each record was delivered or evicted: the decision history seen when it was examined.
module BufferEvidence {
  import opened Records
  import opened PageCodec
  import opened SweepPage
  import opened Interest
  import opened BufferMachine
  import opened BufferRing
  import opened BufferSweeper
  import opened BufferInvariant
  import opened BufferAccounts
  import opened BufferOrder

  ghost predicate InterestOk(c: Config, index: Index<TraceId>, adds: seq<Entry<TraceId>>, clock: int)
  {
    && Refines(index, adds, clock, c.wait)
    && InTimeOrder(adds)
    && forall i :: 0 <= i < |adds| ==> adds[i].addedAt <= clock
  }

  // A look is a moment: the record was there, the decisions known then came before, the others after.
  ghost predicate SeenAt(look: Seen, at: int, adds: seq<Entry<TraceId>>, clock: int)
  {
    && look.adds <= adds && at <= look.time <= clock
    && (forall i :: 0 <= i < |look.adds| ==> adds[i].addedAt <= look.time)
    && (forall i :: |look.adds| <= i < |adds| ==> adds[i].addedAt >= look.time)
  }

  // The interest answer held for the decision history at that moment, which is now a prefix.
  ghost predicate SeenOk(c: Config, look: Seen, r: Record, adds: seq<Entry<TraceId>>, clock: int)
  {
    && SeenAt(look, r.at, adds, clock)
    && (look.interesting ==> DecidedInTime(look.adds, r.tid, r.at, c.wait))
    && (!look.interesting ==> NoStandingDecision(look.adds, look.time, r.tid, r.at, c.wait))
  }

  ghost predicate LogOk(c: Config, resolved: seq<Resolution>, adds: seq<Entry<TraceId>>, clock: int)
  {
    forall i :: 0 <= i < |resolved| ==>
      OutcomeOk(c, resolved[i]) && SeenOk(c, resolved[i].look, resolved[i].rec.rec, adds, clock)
  }

  ghost predicate PcSeen(c: Config, sw: Sweeper, adds: seq<Entry<TraceId>>, clock: int)
  {
    && (sw.pc.Judging? ==> sw.pc.k < |sw.cur| && SeenOk(c, sw.pc.look, sw.cur[sw.pc.k].rec, adds, clock))
    && (sw.pc.Gathering? ==> 0 < |sw.cur| && SeenOk(c, sw.pc.look, sw.cur[0].rec, adds, clock))
  }

  ghost predicate Evidence(c: Config, s: State)
  {
    && InterestOk(c, s.index, s.h.adds, s.clock)
    && LogOk(c, s.h.resolved, s.h.adds, s.clock)
    && PcSeen(c, s.s, s.h.adds, s.clock)
  }

  lemma EvidenceInit(c: Config, s: State)
    requires Valid(c) && Init(c, s)
    ensures Evidence(c, s)
  {
  }

  lemma SeenLater(c: Config, look: Seen, r: Record, adds: seq<Entry<TraceId>>, clock: int, e: Entry<TraceId>)
    requires SeenOk(c, look, r, adds, clock) && clock <= e.addedAt
    ensures SeenOk(c, look, r, adds + [e], e.addedAt)
  {
    hide DecidedInTime, NoStandingDecision;
  }

  // Later, nothing that was seen has changed.
  ghost predicate SeenStays(c: Config, adds: seq<Entry<TraceId>>, clock: int, adds': seq<Entry<TraceId>>, clock': int)
  {
    forall look, r :: SeenOk(c, look, r, adds, clock) ==> SeenOk(c, look, r, adds', clock')
  }

  lemma StaysEvidence(c: Config, s: State, adds: seq<Entry<TraceId>>, clock: int)
    requires LogOk(c, s.h.resolved, s.h.adds, s.clock) && PcSeen(c, s.s, s.h.adds, s.clock)
    requires SeenStays(c, s.h.adds, s.clock, adds, clock)
    ensures LogOk(c, s.h.resolved, adds, clock) && PcSeen(c, s.s, adds, clock)
  {
    hide SeenOk, OutcomeOk;
  }

  lemma AddInterestEvidence(c: Config, s: State, tid: TraceId, t1: int, t2: int)
    requires Valid(c) && Evidence(c, s) && s.clock <= t1 <= t2
    ensures Evidence(c, AddInterest(c, s, tid, t1, t2))
  {
    hide SeenOk, LogOk, PcSeen, Refines;
    AddRefines(s.index, s.h.adds, s.clock, c.wait, tid, t1, t2);
    var e := Entry(tid, t2);
    forall look, r | SeenOk(c, look, r, s.h.adds, s.clock) ensures SeenOk(c, look, r, s.h.adds + [e], t2) {
      SeenLater(c, look, r, s.h.adds, s.clock, e);
    }
    StaysEvidence(c, s, s.h.adds + [e], t2);
  }

  lemma TickEvidence(c: Config, s: State, t: int)
    requires Evidence(c, s) && s.clock <= t
    ensures Evidence(c, s.(clock := t))
  {
    hide Refines, LogOk, PcSeen, DecidedInTime, NoStandingDecision;
    RefinesLater(s.index, s.h.adds, s.clock, c.wait, t);
    StaysEvidence(c, s, s.h.adds, t);
  }

  // Looking up interest for the record at hand records what the history says about it.
  lemma LookEvidence(c: Config, s: State)
    requires Valid(c) && Core(c, s) && Balance(s) && FromThePast(s) && Evidence(c, s) && s.s.pc.Scanning?
    ensures Evidence(c, LookAt(c, s))
  {
    hide Core, Balance, FromThePast, Refines, LogOk, SeenOk, LookAt, InTimeOrder;
    CoreParts(c, s);
    LookFrame(c, s);
    LookAtAny(c, s);
    var s' := LookAt(c, s);
    CoreKept(c, s, RLook);
    LookNotGathering(c, s);
    if s'.s.pc.Judging? {
      LookRecord(c, s);
      var r := s.s.cur[s.s.pc.k].rec;
      LookedAtLive(c, s);
      ScannedFromThePast(c, s, s.s.pc.k);
      SeenNow(c, s, r);
    }
  }

  lemma LookNotGathering(c: Config, s: State)
    requires Valid(c) && s.s.pc.Scanning?
    ensures !LookAt(c, s).s.pc.Gathering?
  {
    hide TidAt, TimeAt;
  }

  lemma SeenNow(c: Config, s: State, r: Record)
    requires Valid(c) && InterestOk(c, s.index, s.h.adds, s.clock) && r.at <= s.clock
    ensures SeenOk(c, Seen(HasForSpan(s.index, r.tid, r.at, c.wait), s.h.adds, s.clock), r, s.h.adds, s.clock)
  {
    hide Refines, DecidedInTime, NoStandingDecision, InTimeOrder;
    if HasForSpan(s.index, r.tid, r.at, c.wait) {
      NoDecisionNoInterest(s.index, s.h.adds, s.clock, c.wait, r.tid, r.at);
    } else {
      NotInterestingMeans(s.index, s.h.adds, s.clock, c.wait, r.tid, r.at);
    }
  }

  lemma LookedAtLive(c: Config, s: State)
    requires Valid(c) && Core(c, s) && s.s.pc.Scanning? && LookAt(c, s).s.pc.Judging?
    ensures s.s.pc.k < |s.s.cur| && Live(s.s.cur[s.s.pc.k].rec)
  {
    hide Core, LookAt, Turn, GroupsOk;
    CoreParts(c, s);
    LookAtAny(c, s);
    LookFrame(c, s);
    LookRecord(c, s);
  }

  // The header fields read at the scan position are those of record k.
  lemma LookRecord(c: Config, s: State)
    requires Valid(c) && SweeperOk(c, s.s, s.h.groups) && s.s.pc.Scanning? && LookAt(c, s).s.pc.Judging?
    ensures s.s.pc.k < |s.s.cur|
    ensures var r := s.s.cur[s.s.pc.k].rec; var pc := LookAt(c, s).s.pc;
            pc.look == Seen(HasForSpan(s.index, r.tid, r.at, c.wait), s.h.adds, s.clock) && pc.k == s.s.pc.k
  {
    hide TidAt, TimeAt, Turn, KindAt, GroupsOk, LookAt, IsLargeGroup;
    FieldsAt(c, s.h.groups[0].recs, s.s.cur, s.s.pc.sc, s.s.pc.used, s.s.pc.k, s.s.closing);
    LookNext(c, s);
  }

  lemma LookNext(c: Config, s: State)
    requires Valid(c) && s.s.pc.Scanning? && LookAt(c, s).s.pc.Judging?
    ensures var sc, pc, kind := s.s.pc.sc, LookAt(c, s).s.pc, KindAt(c, s.s.pc.sc, s.s.pc.used);
            && (kind.Small? || kind.Large?) && pc.k == s.s.pc.k
            && sc.pos + HDR <= |sc.page|
            && pc.look == Seen(HasForSpan(s.index, TidAt(sc.page, sc.pos), TimeAt(sc.page, sc.pos), c.wait), s.h.adds, s.clock)
  {
    hide TidAt, TimeAt;
  }

  lemma FieldsAt(c: Config, g: seq<Tagged>, cur: seq<Tagged>, sc: Scan, used: int, k: nat, closing: bool)
    requires Valid(c) && Turn(c, g, cur, sc, used, k, closing)
    ensures var kind := KindAt(c, sc, used);
            && (kind.Small? ==> !IsLargeGroup(c, g)) && (kind.Large? ==> IsLargeGroup(c, g))
            && (kind.Small? || kind.Large? ==>
                  && k < |cur| && sc.pos + HDR <= |sc.page| == c.p
                  && TidAt(sc.page, sc.pos) == cur[k].rec.tid && TimeAt(sc.page, sc.pos) == cur[k].rec.at)
  {
    hide GroupPages, GroupOk, TidAt, TimeAt, Turn, KindAt, Pressure, IsLargeGroup;
    TurnBasics(c, g, cur, sc, used, k, closing);
    if IsLargeGroup(c, g) {
      KindLarge(c, g, cur, sc, used, k, closing);
    } else {
      KindSmallOnly(c, g, cur, sc, used, k, closing);
      if k < |cur| {
        RecordBytes(c, g, cur, sc, used, k, closing);
      }
    }
  }

  lemma SettleEvidence(c: Config, s: State, step: Step)
    requires Valid(c) && Core(c, s) && Evidence(c, s) && Enabled(c, s, step) && (step.RJudge? || step.RGather?)
    ensures Evidence(c, Apply(c, s, step))
  {
    hide Core, InterestOk, SeenOk, OutcomeOk, Apply, PcSeen, LogOk;
    var s' := Apply(c, s, step);
    var k := if step.RJudge? then s.s.pc.k else 0;
    SweeperFrame(c, s, step);
    ScanEffect(c, s, step, k);
    CarriedSeen(c, s, step);
    if Settles(c, s, s', k) {
      LogGrows(c, s, s', k);
    }
  }

  lemma LogGrows(c: Config, s: State, s': State, k: nat)
    requires Settles(c, s, s', k) && LogOk(c, s.h.resolved, s.h.adds, s.clock) && PcSeen(c, s.s, s.h.adds, s.clock)
    requires (s.s.pc.Judging? && k == s.s.pc.k) || (s.s.pc.Gathering? && k == 0)
    ensures LogOk(c, s'.h.resolved, s.h.adds, s.clock)
  {
    hide SeenOk, OutcomeOk, Settled;
  }

  // A large record that is to be handed over keeps the answer it was judged on.
  lemma CarriedSeen(c: Config, s: State, step: Step)
    requires Valid(c) && Core(c, s) && Enabled(c, s, step) && (step.RJudge? || step.RGather?)
    requires PcSeen(c, s.s, s.h.adds, s.clock)
    ensures PcSeen(c, Apply(c, s, step).s, s.h.adds, s.clock)
  {
    hide Core, SeenOk;
    CoreParts(c, s);
    if step.RJudge? {
      JudgeCarries(c, s);
    } else {
      GatherCarries(c, s);
    }
  }

  lemma JudgeCarries(c: Config, s: State)
    requires Valid(c) && SweeperOk(c, s.s, s.h.groups) && s.s.pc.Judging? && PcSeen(c, s.s, s.h.adds, s.clock)
    ensures PcSeen(c, JudgeIt(c, s).s, s.h.adds, s.clock)
  {
    hide SeenOk, JudgeIt, Turn, GroupsOk, IsLargeGroup;
    var g, cur := s.h.groups[0].recs, s.s.cur;
    TurnBasics(c, g, cur, s.s.pc.sc, s.s.pc.used, s.s.pc.k, s.s.closing);
    FieldsAt(c, g, cur, s.s.pc.sc, s.s.pc.used, s.s.pc.k, s.s.closing);
    JudgeNext(c, s);
  }

  lemma JudgeNext(c: Config, s: State)
    requires Valid(c) && s.s.pc.Judging?
    ensures var s' := JudgeIt(c, s);
            && (s'.s.pc.Judging? ==> s' == s)
            && (s'.s.pc.Gathering? ==> KindAt(c, s.s.pc.sc, s.s.pc.used).Large? && s'.s.pc.look == s.s.pc.look && s'.s.cur == s.s.cur)
  {
    hide Settle, Settled, Log, OutcomeOf, Judge, TidAt, TimeAt, PayloadAt, Pressure, KindAt;
  }

  lemma GatherCarries(c: Config, s: State)
    requires Valid(c) && s.s.pc.Gathering? && PcSeen(c, s.s, s.h.adds, s.clock)
    ensures PcSeen(c, GatherMore(c, s).s, s.h.adds, s.clock)
  {
    hide SeenOk, Settled, Log, Put, ReadAt, GatherStep, OutcomeOf, TidAt, LenAt, Moved;
  }

  lemma WriterEvidence(c: Config, s: State, step: Step)
    requires Valid(c) && Evidence(c, s) && Enabled(c, s, step)
    requires step.SWrite? || step.SSendWakeup? || step.SFire? || step.SClose?
          || step.WTicker? || step.WSeeClose? || step.WDrained? || step.WCheck? || step.WPageFreed? || step.WGiveUp?
          || step.WWrite? || step.WAdd? || step.WFinish?
    ensures Evidence(c, Apply(c, s, step))
  {
    hide InterestOk, LogOk, PcSeen, Put, Chunk, NumChunks, Moved, ClearTail;
  }

  lemma PlacingEvidence(c: Config, s: State, step: Step)
    requires Valid(c) && Evidence(c, s) && Enabled(c, s, step) && (step.WReceive? || step.WWake?)
    ensures Evidence(c, Apply(c, s, step))
  {
    hide InterestOk, LogOk, PcSeen, EncodeRecord, Put, NumChunks, ClearTail;
  }

  lemma QuietEvidence(c: Config, s: State, step: Step)
    requires Valid(c) && Evidence(c, s) && Enabled(c, s, step)
    requires step.RLoad? || step.RWakeup? || step.RWriterDone? || step.RRead? || step.RSnap? || step.RWriteBack?
          || step.RDecide? || step.RRelease? || step.RSignal?
    ensures Evidence(c, Apply(c, s, step))
  {
    hide InterestOk, LogOk, SeenOk, Put, ReadAt, Moved, Start;
  }

  lemma EvidenceKept(c: Config, s: State, step: Step)
    requires Valid(c) && Core(c, s) && Balance(s) && FromThePast(s) && Evidence(c, s) && Enabled(c, s, step)
    ensures Evidence(c, Apply(c, s, step))
  {
    hide Core, Balance, FromThePast, Evidence;
    match step
    case SAddInterest(tid, t1, t2) => AddInterestEvidence(c, s, tid, t1, t2);
    case STick(t) => TickEvidence(c, s, t);
    case WReceive => PlacingEvidence(c, s, step);
    case WWake => PlacingEvidence(c, s, step);
    case RLook => LookEvidence(c, s);
    case RJudge => SettleEvidence(c, s, step);
    case RGather => SettleEvidence(c, s, step);
    case RLoad => QuietEvidence(c, s, step);
    case RWakeup => QuietEvidence(c, s, step);
    case RWriterDone => QuietEvidence(c, s, step);
    case RRead => QuietEvidence(c, s, step);
    case RSnap => QuietEvidence(c, s, step);
    case RWriteBack => QuietEvidence(c, s, step);
    case RDecide => QuietEvidence(c, s, step);
    case RRelease => QuietEvidence(c, s, step);
    case RSignal => QuietEvidence(c, s, step);
    case _ => WriterEvidence(c, s, step);
  }
}
