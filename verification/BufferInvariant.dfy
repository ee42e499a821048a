// The structural invariant of every reachable state: ring ownership, writer, sweeper, flags.
module BufferInvariant {
  import opened Records
  import opened PageCodec
  import opened Ring
  import opened SweepPage
  import opened BufferMachine
  import opened BufferRing
  import opened BufferWriter
  import opened BufferSweeper

  predicate Exiting(pc: WriterPc)
  {
    match pc
    case FlushCheck(cont) => cont.ThenExit?
    case FlushPark(cont) => cont.ThenExit?
    case FlushWrite(cont) => cont.ThenExit?
    case FlushAdd(cont) => cont.ThenExit?
    case FlushWake(cont) => cont.ThenExit?
    case WriterExit => true
    case WriterDone => true
    case _ => false
  }

  // Draining only after Close, leaving the drain loop only with an empty channel, and the
  // sweeper closes only after the writer is done.
  predicate FlagsOk(queue: seq<Tagged>, closed: bool, w: Writer, sw: Sweeper)
  {
    && (w.draining ==> closed)
    && (Exiting(w.pc) ==> w.draining && queue == [])
    && (sw.closing ==> w.pc.WriterDone?)
  }

  predicate RingInv(c: Config, s: State)
    requires Valid(c)
  {
    RingOk(c, s.file, s.used, s.s.at, s.s.head, s.w.head, s.h.groups, s.h.inflight)
  }

  predicate Core(c: Config, s: State)
    requires Valid(c)
  {
    && RingInv(c, s)
    && WriterOk(c, s.w, s.used, s.h.inflight)
    && SweeperOk(c, s.s, s.h.groups)
    && AllGood(c, s.queue)
    && FlagsOk(s.queue, s.closed, s.w, s.s)
  }

  lemma CoreInit(c: Config, s: State)
    requires Valid(c) && Init(c, s)
    ensures Core(c, s)
  {
    RingInit(c, s.file);
    WriterInit(c, s.w);
    assert s.h.groups == [];
  }

  // Steps of callers and environment touch neither ring, writer nor sweeper.
  lemma EnvironmentKeepsCore(c: Config, s: State, step: Step)
    requires Valid(c) && Core(c, s) && Enabled(c, s, step)
    requires step.SWrite? || step.SAddInterest? || step.SSendWakeup? || step.STick? || step.SFire? || step.SClose?
    ensures Core(c, Apply(c, s, step))
  {
    hide RingOk, WriterOk, SweeperOk;
    if step.SWrite? && WriteAccepted(c, s, step.r) {
      var n := ChunksOf(c, step.r);
      RoomInPages(0, n, c.m, c.p);
      assert 0 * c.p == 0;
    }
  }

  lemma WriterMoveKeepsCore(c: Config, s: State, step: Step)
    requires Valid(c) && Core(c, s) && Enabled(c, s, step)
    requires step.WReceive? || step.WTicker? || step.WSeeClose? || step.WDrained? || step.WFinish?
    ensures Core(c, Apply(c, s, step))
  {
    hide RingOk, SweeperOk, StageOk, Handle, Good, EncodePage;
    match step
    case WReceive =>
      var s1 := s.(queue := s.queue[1..], h := s.h.(taken := s.h.taken + 1));
      HandleOk(c, s1, s.queue[0]);
      HandleFrame(c, s1, s.queue[0]);
    case WTicker =>
      if s.w.stageN > 0 {
        BeginFlushOk(c, s, Loop);
      }
    case WSeeClose => SameStageHead(c, s.w, s.w.(draining := true));
    case WDrained =>
      if s.w.stageN > 0 {
        BeginFlushOk(c, s, ThenExit);
      } else {
        StageEmptyIff(c, s.w);
        SameStage(c, s.w, WriterExit);
      }
    case WFinish => SameStage(c, s.w, WriterDone);
  }

  // Handling a request changes the writer only, and drops a request only if it can never fit.
  lemma HandleFrame(c: Config, s: State, req: Tagged)
    requires Valid(c) && s.w.pc.Idle?
    ensures var s' := Handle(c, s, req);
            && s'.file == s.file && s'.used == s.used && s'.s == s.s && s'.queue == s.queue && s'.closed == s.closed
            && s'.w.head == s.w.head && s'.w.draining == s.w.draining && !Exiting(s'.w.pc)
            && s'.h.groups == s.h.groups && s'.h.inflight == s.h.inflight
  {
    hide BeginFlush, StageRecord, BeginLarge, NumChunks;
    FlushFrame(s, ThenStage(req));
    FlushFrame(s, ThenLarge(req));
    StageFrame(s, req);
    LargeFrame(c, s, req);
  }

  lemma FlushFrame(s: State, cont: Cont)
    ensures var s' := BeginFlush(s, cont);
            && s'.file == s.file && s'.used == s.used && s'.s == s.s && s'.queue == s.queue && s'.closed == s.closed
            && s'.w.head == s.w.head && s'.w.draining == s.w.draining && s'.w.pc == FlushCheck(cont) && s'.h == s.h
  {
  }

  lemma StageFrame(s: State, req: Tagged)
    ensures var s' := StageRecord(s, req);
            && s'.file == s.file && s'.used == s.used && s'.s == s.s && s'.queue == s.queue && s'.closed == s.closed
            && s'.w.head == s.w.head && s'.w.draining == s.w.draining && s'.w.pc == Idle && s'.h == s.h
  {
    hide EncodeRecord, Put;
  }

  lemma LargeFrame(c: Config, s: State, req: Tagged)
    requires Valid(c)
    ensures var s' := BeginLarge(c, s, req);
            && s'.file == s.file && s'.used == s.used && s'.s == s.s && s'.queue == s.queue && s'.closed == s.closed
            && s'.w.head == s.w.head && s'.w.draining == s.w.draining && (s'.w.pc == Idle || s'.w.pc == LargeCheck(req))
            && s'.h.groups == s.h.groups && s'.h.inflight == s.h.inflight
  {
    hide NumChunks;
  }

  lemma WriterRoomKeepsCore(c: Config, s: State, step: Step)
    requires Valid(c) && Core(c, s) && Enabled(c, s, step)
    requires step.WCheck? || step.WPageFreed? || step.WGiveUp?
    ensures Core(c, Apply(c, s, step))
  {
    hide RingOk, SweeperOk, WriterOk, Good;
    match step
    case WCheck => CheckRoomOk(c, s);
    case WPageFreed => TakePageFreedOk(c, s);
    case WGiveUp => GiveUpOk(c, s);
  }

  lemma WriterFileKeepsCore(c: Config, s: State)
    requires Valid(c) && Core(c, s) && Enabled(c, s, WWrite)
    ensures Core(c, WritePage(c, s))
  {
    hide SweeperOk, WriterOk, RingOk, Good, Moved, Put, Chunk, NumChunks;
    WritePageOk(c, s);
    var page := WritePage(c, s).w.stage;
    assert |Flat(c, s.h.groups)| + |s.h.inflight| < c.m by {
      RingRoom(c, s.file, s.used, s.s.at, s.s.head, s.w.head, s.h.groups, s.h.inflight, |s.h.inflight| + 1);
      assert (|s.h.inflight| + 1) * c.p == |s.h.inflight| * c.p + c.p;
    }
    RingWrite(c, s.file, s.used, s.s.at, s.s.head, s.w.head, s.h.groups, s.h.inflight, page);
  }

  lemma WriterAddKeepsCore(c: Config, s: State)
    requires Valid(c) && Core(c, s) && Enabled(c, s, WAdd)
    ensures Core(c, AddUsed(c, s))
  {
    hide SweeperOk, WriterOk, RingOk, Good, NumChunks, GroupPages, GroupOk;
    AddUsedOk(c, s);
    var g := AddUsed(c, s).h.groups[|s.h.groups|];
    RingCommit(c, s.file, s.used, s.s.at, s.s.head, s.w.head, s.h.groups, s.h.inflight, g);
    assert !s.s.pc.Exited? by { ExitedMeansDone(c, s); }
    CommitKeepsSweeper(c, s.s, s.h.groups, g);
  }

  lemma ExitedMeansDone(c: Config, s: State)
    requires Valid(c) && Core(c, s)
    ensures s.s.pc.Exited? ==> s.w.pc.WriterDone? && s.h.groups == []
  {
    hide RingOk, WriterOk, GroupsOk;
  }

  lemma WriterWakeKeepsCore(c: Config, s: State)
    requires Valid(c) && Core(c, s) && Enabled(c, s, WWake)
    ensures Core(c, WakeSweeper(c, s))
  {
    hide SweeperOk, WriterOk, RingOk, Good, Put, EncodeRecord, BeginLarge;
    WakeSweeperOk(c, s);
    WakeFrame(c, s);
  }

  lemma WakeFrame(c: Config, s: State)
    requires Valid(c) && (s.w.pc.FlushWake? || s.w.pc.LargeWake?)
    ensures var s' := WakeSweeper(c, s);
            && s'.file == s.file && s'.used == s.used && s'.s == s.s && s'.queue == s.queue && s'.closed == s.closed
            && s'.w.head == s.w.head && s'.w.draining == s.w.draining
            && (Exiting(s'.w.pc) ==> Exiting(s.w.pc))
            && s'.h.groups == s.h.groups && s'.h.inflight == s.h.inflight
  {
    hide Put, EncodeRecord;
  }

  lemma SweeperKeepsCore(c: Config, s: State, step: Step)
    requires Valid(c) && Core(c, s) && Enabled(c, s, step)
    requires step.RLoad? || step.RRead? || step.RSnap? || step.RLook? || step.RJudge? || step.RGather? || step.RDecide?
    ensures Core(c, Apply(c, s, step))
  {
    hide SweeperOk, WriterOk, RingOk, Good, LookAt, JudgeIt, GatherMore;
    SweeperFrame(c, s, step);
    match step
    case RLoad => LoadUsedOk(c, s);
    case RRead => ReadHeadOk(c, s);
    case RSnap => SnapshotOk(c, s);
    case RLook => LookAtAny(c, s);
    case RJudge => JudgeAny(c, s);
    case RGather => GatherOk(c, s);
    case RDecide => DecideOk(c, s);
  }

  lemma LookAtAny(c: Config, s: State)
    requires Valid(c) && SweeperOk(c, s.s, s.h.groups) && s.s.pc.Scanning?
    ensures SweeperOk(c, LookAt(c, s).s, s.h.groups) && SettlesNone(s, LookAt(c, s))
  {
    assert s.h.groups != [] by { hide Turn, GroupsOk; }
    hide SweeperOk, LookAt;
    if IsLargeGroup(c, s.h.groups[0].recs) {
      LookAtLargeOk(c, s);
    } else {
      LookAtSmallOk(c, s);
    }
  }

  lemma JudgeAny(c: Config, s: State)
    requires Valid(c) && SweeperOk(c, s.s, s.h.groups) && s.s.pc.Judging?
    ensures SweeperOk(c, JudgeIt(c, s).s, s.h.groups)
    ensures Settles(c, s, JudgeIt(c, s), s.s.pc.k) || SettlesNone(s, JudgeIt(c, s))
  {
    assert s.h.groups != [] by { hide Turn, GroupsOk; }
    hide SweeperOk, JudgeIt, Settles;
    if IsLargeGroup(c, s.h.groups[0].recs) {
      JudgeLargeOk(c, s);
    } else {
      JudgeSmallOk(c, s);
    }
  }

  // What the scanning steps leave alone.
  ghost predicate ScanFrame(s: State, s': State)
  {
    && s'.file == s.file && s'.used == s.used && s'.w == s.w && s'.queue == s.queue && s'.closed == s.closed
    && s'.s.at == s.s.at && s'.s.head == s.s.head && s'.s.closing == s.s.closing
    && s'.h == s.h.(resolved := s'.h.resolved)
    && s'.wakeup == s.wakeup && s'.pageFreed == s.pageFreed && s'.clock == s.clock && s'.index == s.index
    && s'.senders == s.senders
  }

  lemma SweeperFrame(c: Config, s: State, step: Step)
    requires Valid(c) && Enabled(c, s, step)
    requires step.RLoad? || step.RRead? || step.RSnap? || step.RLook? || step.RJudge? || step.RGather? || step.RDecide?
    ensures ScanFrame(s, Apply(c, s, step))
  {
    hide LookAt, JudgeIt, GatherMore, ReadAt;
    match step
    case RLook => LookFrame(c, s);
    case RJudge => JudgeFrame(c, s);
    case RGather => GatherFrame(c, s);
    case _ =>
  }

  lemma LookFrame(c: Config, s: State)
    requires Valid(c) && s.s.pc.Scanning?
    ensures ScanFrame(s, LookAt(c, s)) && LookAt(c, s).timers == s.timers
  {
    hide TidAt, TimeAt;
  }

  lemma JudgeFrame(c: Config, s: State)
    requires Valid(c) && s.s.pc.Judging?
    ensures ScanFrame(s, JudgeIt(c, s)) && JudgeIt(c, s).timers == s.timers
  {
    hide Settle, Settled, Log, OutcomeOf, Judge, TidAt, TimeAt, PayloadAt, Pressure;
  }

  lemma GatherFrame(c: Config, s: State)
    requires Valid(c) && s.s.pc.Gathering?
    ensures ScanFrame(s, GatherMore(c, s)) && GatherMore(c, s).timers == s.timers
  {
    hide Settled, Log, Put, ReadAt, GatherStep, OutcomeOf, TidAt, LenAt, Moved;
  }

  lemma SweeperParkKeepsCore(c: Config, s: State, step: Step)
    requires Valid(c) && Core(c, s) && Enabled(c, s, step)
    requires step.RWakeup? || step.RWriterDone? || step.RSignal?
    ensures Core(c, Apply(c, s, step))
  {
    hide RingOk, WriterOk, Good, GroupsOk;
  }

  lemma SweeperFileKeepsCore(c: Config, s: State, step: Step)
    requires Valid(c) && Core(c, s) && Enabled(c, s, step)
    requires step.RWriteBack? || step.RRelease?
    ensures Core(c, Apply(c, s, step))
  {
    hide RingOk, WriterOk, Good, SweeperOk, Moved, Put;
    match step
    case RWriteBack => WriteBackOk(c, s);
    case RRelease =>
      ReleaseOk(c, s);
      WriterLessUsed(c, s.w, s.used, Release(c, s).used, s.h.inflight);
  }

  lemma CoreKept(c: Config, s: State, step: Step)
    requires Valid(c) && Core(c, s) && Enabled(c, s, step)
    ensures Core(c, Apply(c, s, step))
  {
    hide Core;
    match step
    case SWrite(_) => EnvironmentKeepsCore(c, s, step);
    case SAddInterest(_, _, _) => EnvironmentKeepsCore(c, s, step);
    case SSendWakeup => EnvironmentKeepsCore(c, s, step);
    case STick(_) => EnvironmentKeepsCore(c, s, step);
    case SFire(_) => EnvironmentKeepsCore(c, s, step);
    case SClose => EnvironmentKeepsCore(c, s, step);
    case WReceive => WriterMoveKeepsCore(c, s, step);
    case WTicker => WriterMoveKeepsCore(c, s, step);
    case WSeeClose => WriterMoveKeepsCore(c, s, step);
    case WDrained => WriterMoveKeepsCore(c, s, step);
    case WFinish => WriterMoveKeepsCore(c, s, step);
    case WCheck => WriterRoomKeepsCore(c, s, step);
    case WPageFreed => WriterRoomKeepsCore(c, s, step);
    case WGiveUp => WriterRoomKeepsCore(c, s, step);
    case WWrite => WriterFileKeepsCore(c, s);
    case WAdd => WriterAddKeepsCore(c, s);
    case WWake => WriterWakeKeepsCore(c, s);
    case RWakeup => SweeperParkKeepsCore(c, s, step);
    case RWriterDone => SweeperParkKeepsCore(c, s, step);
    case RSignal => SweeperParkKeepsCore(c, s, step);
    case RWriteBack => SweeperFileKeepsCore(c, s, step);
    case RRelease => SweeperFileKeepsCore(c, s, step);
    case RLoad => SweeperKeepsCore(c, s, step);
    case RRead => SweeperKeepsCore(c, s, step);
    case RSnap => SweeperKeepsCore(c, s, step);
    case RLook => SweeperKeepsCore(c, s, step);
    case RJudge => SweeperKeepsCore(c, s, step);
    case RGather => SweeperKeepsCore(c, s, step);
    case RDecide => SweeperKeepsCore(c, s, step);
  }
}
