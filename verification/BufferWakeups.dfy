// No wake-up is lost: what the one-slot channels and timers guarantee to a parked process.
module BufferWakeups {
  import opened Records
  import opened PageCodec
  import opened SweepPage
  import opened Interest
  import opened BufferMachine
  import opened BufferRing
  import opened BufferSweeper
  import opened BufferInvariant
  import opened BufferAccounts
  import opened BufferEvidence

  // The writer has signalled the sweeper, or is about to.
  predicate Signalled(s: State)
  {
    s.wakeup || s.w.pc.FlushWake? || s.w.pc.LargeWake?
  }

  // An AddInterest has signalled the sweeper, or is about to.
  predicate Alerted(s: State)
  {
    s.wakeup || s.senders > 0
  }

  // None of the first n records of the page waits for a decision already taken, unless alerted.
  ghost predicate Watched(c: Config, cur: seq<Tagged>, n: nat, index: Index<TraceId>, alerted: bool)
  {
    alerted || forall j :: 0 <= j < n && j < |cur| && Live(cur[j].rec) ==> !HasForSpan(index, cur[j].rec.tid, cur[j].rec.at, c.wait)
  }

  // Some live record among the first n has aged out by time t.
  ghost predicate DueBy(c: Config, cur: seq<Tagged>, n: nat, t: int)
  {
    exists j :: 0 <= j < n && j < |cur| && Live(cur[j].rec) && cur[j].rec.at + c.wait <= t
  }

  predicate HasRoom(c: Config, s: State)
    requires Valid(c)
  {
    match s.w.pc
    case FlushPark(_) => s.used + c.p <= MaxBytes(c)
    case LargePark(big) => s.used + ChunksOf(c, big.rec) * c.p <= MaxBytes(c)
    case _ => false
  }

  ghost predicate ScanWatch(c: Config, s: State, sc: Scan, used: int, n: nat)
  {
    && (s.used > used ==> Signalled(s))
    && Watched(c, s.s.cur, n, s.index, Alerted(s))
    && (!sc.fully ==> DueBy(c, s.s.cur, n, s.clock + sc.minRem))
    && sc.minRem <= c.wait
  }

  ghost predicate SweeperWatch(c: Config, s: State)
    requires Valid(c)
  {
    match s.s.pc
    case ParkEmpty => s.used > 0 ==> Signalled(s)
    case Scanning(sc, used, k) => ScanWatch(c, s, sc, used, k)
    case Judging(sc, used, k, look) =>
      && ScanWatch(c, s, sc, used, k)
      && (!look.interesting ==> Watched(c, s.s.cur, k + 1, s.index, Alerted(s)))
    case Gathering(sc, used, v, age, look, n, i, payload) => ScanWatch(c, s, sc, used, 0)
    case Writing(sc, used) => ScanWatch(c, s, sc, used, |s.s.cur|)
    case Deciding(sc, used) => ScanWatch(c, s, sc, used, |s.s.cur|)
    case ParkPage(d) =>
      && (Pressure(c, s.used, false) ==> Signalled(s))
      && Watched(c, s.s.cur, |s.s.cur|, s.index, Alerted(s))
      && DueBy(c, s.s.cur, |s.s.cur|, d)
      && (s.wakeup || d in s.timers)
      && d <= s.clock + c.wait
    case _ => true
  }

  lemma WatchScanning(c: Config, s: State)
    requires Valid(c) && s.s.pc.Scanning?
    ensures SweeperWatch(c, s) <==> ScanWatch(c, s, s.s.pc.sc, s.s.pc.used, s.s.pc.k)
  {
  }

  lemma WatchJudging(c: Config, s: State)
    requires Valid(c) && s.s.pc.Judging?
    ensures SweeperWatch(c, s) <==>
              && ScanWatch(c, s, s.s.pc.sc, s.s.pc.used, s.s.pc.k)
              && (!s.s.pc.look.interesting ==> Watched(c, s.s.cur, s.s.pc.k + 1, s.index, Alerted(s)))
  {
  }

  lemma WatchGathering(c: Config, s: State)
    requires Valid(c) && s.s.pc.Gathering?
    ensures SweeperWatch(c, s) <==> ScanWatch(c, s, s.s.pc.sc, s.s.pc.used, 0)
  {
  }

  lemma WatchOver(c: Config, s: State)
    requires Valid(c) && (s.s.pc.Writing? || s.s.pc.Deciding?)
    ensures SweeperWatch(c, s) <==> ScanWatch(c, s, s.s.pc.sc, s.s.pc.used, |s.s.cur|)
  {
  }

  ghost predicate WriterWatch(c: Config, s: State)
    requires Valid(c)
  {
    HasRoom(c, s) ==> s.pageFreed || s.s.pc.Signalling?
  }

  ghost predicate Wakes(c: Config, s: State)
    requires Valid(c)
  {
    WriterWatch(c, s) && SweeperWatch(c, s) && FromThePast(s)
  }

  lemma WakesPast(c: Config, s: State)
    requires Valid(c) && Wakes(c, s)
    ensures FromThePast(s)
  {
  }

  lemma WakesInit(c: Config, s: State)
    requires Valid(c) && Init(c, s)
    ensures Wakes(c, s)
  {
  }

  // ---- Environment ----

  lemma WatchedAlerted(c: Config, cur: seq<Tagged>, n: nat, index: Index<TraceId>)
    ensures Watched(c, cur, n, index, true)
  {
  }

  lemma DueLater(c: Config, cur: seq<Tagged>, n: nat, t: int, t': int)
    requires DueBy(c, cur, n, t) && t <= t'
    ensures DueBy(c, cur, n, t')
  {
  }

  lemma ScanLater(c: Config, s: State, s': State, sc: Scan, used: int, n: nat)
    requires ScanWatch(c, s, sc, used, n)
    requires s'.s == s.s && s'.w == s.w && s'.used == s.used && s.clock <= s'.clock
    requires (s.wakeup ==> s'.wakeup) && (s'.index == s.index || Alerted(s')) && (Alerted(s) ==> Alerted(s'))
    ensures ScanWatch(c, s', sc, used, n)
  {
    hide DueBy;
    if !sc.fully {
      DueLater(c, s.s.cur, n, s.clock + sc.minRem, s'.clock + sc.minRem);
    }
  }

  lemma EnvironmentWakes(c: Config, s: State, step: Step)
    requires Valid(c) && Wakes(c, s) && Enabled(c, s, step)
    requires step.SAddInterest? || step.SSendWakeup? || step.STick? || step.SFire? || step.SClose?
    ensures Wakes(c, Apply(c, s, step))
  {
    hide Watched, DueBy, Pressure, ScanWatch;
    var s' := Apply(c, s, step);
    match s.s.pc
    case Scanning(sc, used, k) => ScanLater(c, s, s', sc, used, k);
    case Judging(sc, used, k, look) =>
      ScanLater(c, s, s', sc, used, k);
      if Alerted(s') {
        WatchedAlerted(c, s.s.cur, k + 1, s'.index);
      }
    case Gathering(sc, used, _, _, _, _, _, _) => ScanLater(c, s, s', sc, used, 0);
    case Writing(sc, used) => ScanLater(c, s, s', sc, used, |s.s.cur|);
    case Deciding(sc, used) => ScanLater(c, s, s', sc, used, |s.s.cur|);
    case ParkPage(d) =>
      if Alerted(s') {
        WatchedAlerted(c, s.s.cur, |s.s.cur|, s'.index);
      }
    case _ =>
  }

  lemma WriteWakes(c: Config, s: State, r: Record)
    requires Valid(c) && Wakes(c, s) && r.at <= s.clock
    ensures Wakes(c, Write(c, s, r))
  {
    hide Watched, DueBy, Pressure;
  }

  // ---- Writer ----

  // The writer's steps leave the sweeper's watch intact: when `used` grows, the signal follows.
  lemma WriterSideWatch(c: Config, s: State, s': State)
    requires Valid(c) && SweeperWatch(c, s)
    requires s'.s == s.s && s'.index == s.index && s'.clock == s.clock && s'.senders == s.senders && s'.timers == s.timers
    requires s.wakeup ==> s'.wakeup
    requires s'.used > s.used ==> Signalled(s')
    requires Signalled(s) ==> Signalled(s')
    requires s'.used >= s.used
    ensures SweeperWatch(c, s')
  {
    hide DueBy;
  }

  lemma WriterWakes(c: Config, s: State, step: Step)
    requires Valid(c) && Core(c, s) && Wakes(c, s) && Enabled(c, s, step)
    requires step.WTicker? || step.WSeeClose? || step.WDrained? || step.WCheck? || step.WPageFreed? || step.WGiveUp?
          || step.WWrite? || step.WFinish?
    ensures Wakes(c, Apply(c, s, step))
  {
    hide Core, SweeperWatch, Put, Chunk, NumChunks, Moved, ClearTail;
    WriterSideWatch(c, s, Apply(c, s, step));
  }

  lemma AddWakes(c: Config, s: State)
    requires Valid(c) && Wakes(c, s) && (s.w.pc.FlushAdd? || s.w.pc.LargeAdd?)
    ensures Wakes(c, AddUsed(c, s))
  {
    hide SweeperWatch, NumChunks;
    WriterSideWatch(c, s, AddUsed(c, s));
  }

  lemma PlacingWakes(c: Config, s: State, step: Step)
    requires Valid(c) && Wakes(c, s) && Enabled(c, s, step) && (step.WReceive? || step.WWake?)
    ensures Wakes(c, Apply(c, s, step))
  {
    hide SweeperWatch, EncodeRecord, Put, NumChunks, ClearTail;
    WriterSideWatch(c, s, Apply(c, s, step));
  }

  // ---- Sweeper ----

  lemma ReleaseWakes(c: Config, s: State)
    requires Valid(c) && Wakes(c, s) && s.s.pc.Releasing?
    ensures Wakes(c, Release(c, s))
  {
    hide Moved;
  }

  lemma QuietWakes(c: Config, s: State, step: Step)
    requires Valid(c) && Wakes(c, s) && Enabled(c, s, step)
    requires step.RLoad? || step.RWakeup? || step.RWriterDone? || step.RRead? || step.RSignal?
    ensures Wakes(c, Apply(c, s, step))
  {
    hide ReadAt;
  }

  lemma SnapWakes(c: Config, s: State)
    requires Valid(c) && Wakes(c, s) && s.s.pc.Snapping?
    ensures Wakes(c, Snapshot(s))
  {
  }

  lemma WriteBackWakes(c: Config, s: State)
    requires Valid(c) && Wakes(c, s) && s.s.pc.Writing?
    ensures Wakes(c, WriteBack(s))
  {
    hide Watched, DueBy, Put;
  }

  // Parking: the head page still has a record that ages out when the timer fires at the latest.
  lemma DecideWakes(c: Config, s: State)
    requires Valid(c) && Core(c, s) && Wakes(c, s) && s.s.pc.Deciding?
    ensures Wakes(c, Decide(s))
  {
    hide Core, WriterWatch, FromThePast, SweeperWatch, Decide;
    CoreParts(c, s);
    DecidingFacts(c, s);
    DecideFrame(c, s);
    WatchOver(c, s);
    DecideWatch(c, s);
  }

  lemma DecideWatch(c: Config, s: State)
    requires Valid(c) && s.s.pc.Deciding? && ScanWatch(c, s, s.s.pc.sc, s.s.pc.used, |s.s.cur|)
    requires !s.s.pc.sc.fully ==> s.s.pc.sc.minRem > 0 && !Pressure(c, s.s.pc.used, false)
    ensures SweeperWatch(c, Decide(s))
  {
    hide Watched, DueBy;
  }

  lemma DecideFrame(c: Config, s: State)
    requires Valid(c) && WriterWatch(c, s) && FromThePast(s) && s.s.pc.Deciding?
    ensures WriterWatch(c, Decide(s)) && FromThePast(Decide(s))
  {
  }

  lemma DecidingFacts(c: Config, s: State)
    requires Valid(c) && SweeperOk(c, s.s, s.h.groups) && s.s.pc.Deciding?
    ensures !s.s.pc.sc.fully ==> s.s.pc.sc.minRem > 0 && !Pressure(c, s.s.pc.used, false)
  {
    hide Mid, AllDead, GroupPages, GroupsOk;
  }

  lemma LookWakes(c: Config, s: State)
    requires Valid(c) && Core(c, s) && Wakes(c, s) && s.s.pc.Scanning?
    ensures Wakes(c, LookAt(c, s))
  {
    hide Core, LookAt, WriterWatch, FromThePast, ScanWatch, SweeperWatch, ScanFrame, SettlesNone;
    CoreParts(c, s);
    WatchScanning(c, s);
    LookFrame(c, s);
    LookAtAny(c, s);
    LookCases(c, s);
    WriterWatchFrame(c, s, LookAt(c, s));
    if LookAt(c, s).s.pc.Judging? {
      LookJudging(c, s, LookAt(c, s));
    } else {
      LookMoving(c, s, LookAt(c, s));
    }
  }

  lemma LookJudging(c: Config, s: State, s': State)
    requires Valid(c) && SweeperOk(c, s.s, s.h.groups) && s.s.pc.Scanning? && s' == LookAt(c, s) && s'.s.pc.Judging?
    requires ScanWatch(c, s, s.s.pc.sc, s.s.pc.used, s.s.pc.k) && ScanFrame(s, s') && SettlesNone(s, s')
    requires s'.s.pc.sc == s.s.pc.sc && s'.s.pc.used == s.s.pc.used && s'.s.pc.k == s.s.pc.k
    ensures SweeperWatch(c, s')
  {
    var sc, used, k := s.s.pc.sc, s.s.pc.used, s.s.pc.k;
    LookRecord(c, s);
    hide LookAt, SweeperOk, Watched, DueBy, ScanWatch, SweeperWatch;
    SameAlert(c, s, s');
    WatchMoves(c, s, sc, used, k, s', sc, k);
    if !s'.s.pc.look.interesting {
      WatchPart(c, s, sc, used, k);
      WatchOne(c, s.s.cur, k, s.index, Alerted(s));
    }
    WatchJudging(c, s');
  }

  lemma LookMoving(c: Config, s: State, s': State)
    requires Valid(c) && s.s.pc.Scanning? && s.s.pc.k <= |s.s.cur|
    requires ScanWatch(c, s, s.s.pc.sc, s.s.pc.used, s.s.pc.k) && ScanFrame(s, s') && SettlesNone(s, s')
    requires s'.s.pc.Scanning? || s'.s.pc.Writing? || s'.s.pc.Deciding?
    requires var pc, sc, used, k := s'.s.pc, s.s.pc.sc, s.s.pc.used, s.s.pc.k;
             && pc.sc.fully == sc.fully && pc.sc.minRem == sc.minRem && pc.used == used
             && (pc.Scanning? ==> pc.k == k + 1 && k < |s.s.cur| && !Live(s.s.cur[k].rec))
             && (!pc.Scanning? ==> forall j :: k <= j < |s.s.cur| ==> !Live(s.s.cur[j].rec))
    ensures SweeperWatch(c, s')
  {
    hide Watched, DueBy, ScanWatch, SweeperWatch;
    var sc, used, k := s.s.pc.sc, s.s.pc.used, s.s.pc.k;
    SameAlert(c, s, s');
    if s'.s.pc.Scanning? {
      WatchMoves(c, s, sc, used, k, s', s'.s.pc.sc, k + 1);
      WatchScanning(c, s');
    } else {
      WatchMoves(c, s, sc, used, k, s', s'.s.pc.sc, |s.s.cur|);
      WatchOver(c, s');
    }
  }

  lemma SameAlert(c: Config, s: State, s': State)
    requires ScanFrame(s, s') && SettlesNone(s, s')
    ensures Alerted(s') == Alerted(s) && s'.index == s.index && s'.s.cur == s.s.cur
  {
  }

  lemma WatchPart(c: Config, s: State, sc: Scan, used: int, k: nat)
    requires ScanWatch(c, s, sc, used, k)
    ensures Watched(c, s.s.cur, k, s.index, Alerted(s))
  {
  }

  // Passing over finished records adds nothing to watch.
  lemma WatchMoves(c: Config, s: State, sc: Scan, used: int, k: nat, s': State, sc': Scan, n: nat)
    requires ScanWatch(c, s, sc, used, k) && ScanFrame(s, s') && s'.s.cur == s.s.cur && k <= n
    requires sc'.fully == sc.fully && sc'.minRem == sc.minRem
    requires forall j :: k <= j < n && j < |s.s.cur| ==> !Live(s.s.cur[j].rec)
    ensures ScanWatch(c, s', sc', used, n)
  {
  }

  lemma WriterWatchFrame(c: Config, s: State, s': State)
    requires Valid(c) && WriterWatch(c, s) && FromThePast(s) && ScanFrame(s, s') && !s.s.pc.Signalling?
    ensures WriterWatch(c, s') && FromThePast(s')
  {
  }

  // Where the loop goes after one turn up to the lookup.
  lemma LookCases(c: Config, s: State)
    requires Valid(c) && SweeperOk(c, s.s, s.h.groups) && s.s.pc.Scanning?
    ensures s.s.pc.k <= |s.s.cur|
    ensures var pc, sc, used, k := LookAt(c, s).s.pc, s.s.pc.sc, s.s.pc.used, s.s.pc.k;
            || (pc.Scanning? && pc.sc.fully == sc.fully && pc.sc.minRem == sc.minRem && pc.used == used && pc.k == k + 1
                && k < |s.s.cur| && !Live(s.s.cur[k].rec))
            || ((pc.Writing? || pc.Deciding?) && pc.sc.fully == sc.fully && pc.sc.minRem == sc.minRem && pc.used == used
                && forall j :: k <= j < |s.s.cur| ==> !Live(s.s.cur[j].rec))
            || (pc.Judging? && pc.sc == sc && pc.used == used && pc.k == k)
  {
    hide SweeperOk, KindAt, Turn, IsLargeGroup, LookAt;
    var g := HeadOf(c, s);
    TurnBasics(c, g, s.s.cur, s.s.pc.sc, s.s.pc.used, s.s.pc.k, s.s.closing);
    LookOutcome(c, s);
    if IsLargeGroup(c, g) {
      KindLargeOnly(c, g, s.s.cur, s.s.pc.sc, s.s.pc.used, s.s.pc.k, s.s.closing);
    } else {
      KindSmallOnly(c, g, s.s.cur, s.s.pc.sc, s.s.pc.used, s.s.pc.k, s.s.closing);
    }
  }

  lemma LookOutcome(c: Config, s: State)
    requires Valid(c) && s.s.pc.Scanning?
    ensures var pc, sc, used, k := LookAt(c, s).s.pc, s.s.pc.sc, s.s.pc.used, s.s.pc.k;
            match KindAt(c, sc, used)
            case Stop => pc == AfterLoop(sc, used)
            case Finished(size) => pc == Scanning(sc.(pos := sc.pos + size), used, k + 1)
            case LargeFinished(n) => pc == AfterLoop(sc.(chunks := n), used)
            case LargeEarly => pc == AfterLoop(sc.(fully := false), used)
            case _ => pc.Judging? && pc.sc == sc && pc.used == used && pc.k == k
  {
    hide TidAt, TimeAt;
  }

  lemma HeadOf(c: Config, s: State) returns (g: seq<Tagged>)
    requires Valid(c) && SweeperOk(c, s.s, s.h.groups) && s.s.pc.Scanning?
    ensures Turn(c, g, s.s.cur, s.s.pc.sc, s.s.pc.used, s.s.pc.k, s.s.closing)
  {
    hide Turn, GroupsOk;
    g := s.h.groups[0].recs;
  }

  lemma WatchOne(c: Config, cur: seq<Tagged>, k: nat, index: Index<TraceId>, alerted: bool)
    requires Watched(c, cur, k, index, alerted) && k < |cur|
    requires !HasForSpan(index, cur[k].rec.tid, cur[k].rec.at, c.wait) || !Live(cur[k].rec)
    ensures Watched(c, cur, k + 1, index, alerted)
  {
  }

  lemma WakesKept(c: Config, s: State, step: Step)
    requires Valid(c) && Core(c, s) && Balance(s) && Wakes(c, s) && Enabled(c, s, step)
    ensures Wakes(c, Apply(c, s, step))
  {
    hide Core, Balance, Wakes;
    match step
    case SWrite(r) => WriteWakes(c, s, r);
    case SAddInterest(_, _, _) => EnvironmentWakes(c, s, step);
    case SSendWakeup => EnvironmentWakes(c, s, step);
    case STick(_) => EnvironmentWakes(c, s, step);
    case SFire(_) => EnvironmentWakes(c, s, step);
    case SClose => EnvironmentWakes(c, s, step);
    case WReceive => PlacingWakes(c, s, step);
    case WWake => PlacingWakes(c, s, step);
    case WAdd => AddWakes(c, s);
    case RLoad => QuietWakes(c, s, step);
    case RWakeup => QuietWakes(c, s, step);
    case RWriterDone => QuietWakes(c, s, step);
    case RRead => QuietWakes(c, s, step);
    case RSignal => QuietWakes(c, s, step);
    case RSnap => SnapWakes(c, s);
    case RLook => LookWakes(c, s);
    case RJudge => JudgeWakes(c, s);
    case RGather => GatherWakes(c, s);
    case RWriteBack => WriteBackWakes(c, s);
    case RDecide => DecideWakes(c, s);
    case RRelease => ReleaseWakes(c, s);
    case _ => WriterWakes(c, s, step);
  }

  // ---- Judging ----

  // What one judgement does to the loop variables.
  lemma JudgeCases(c: Config, s: State)
    requires Valid(c) && Core(c, s) && s.s.pc.Judging?
    ensures s.s.pc.k < |s.s.cur| && Live(s.s.cur[s.s.pc.k].rec)
    ensures var pc, sc, used, k, look := JudgeIt(c, s).s.pc, s.s.pc.sc, s.s.pc.used, s.s.pc.k, s.s.pc.look;
            var cur' := JudgeIt(c, s).s.cur; var r := s.s.cur[k].rec; var age := s.clock - r.at;
            || (pc.Scanning? && pc.used == used && pc.k == k + 1 && cur' == Settled(s.s.cur, k)
                && pc.sc.fully == sc.fully && pc.sc.minRem == sc.minRem)
            || (pc.Scanning? && pc.used == used && pc.k == k + 1 && cur' == s.s.cur && !look.interesting
                && pc.sc.minRem == Smaller(sc.minRem, c.wait - age) && age < c.wait)
            || (pc.Deciding? && pc.used == used && k == 0 && |s.s.cur| == 1 && cur' == s.s.cur && !look.interesting && !sc.dirty
                && pc.sc.minRem == Smaller(sc.minRem, c.wait - age) && age < c.wait)
            || (pc.Gathering? && pc.used == used && k == 0 && cur' == s.s.cur && pc.sc == sc)
  {
    hide Core;
    CoreParts(c, s);
    hide SweeperOk, KindAt, Turn, TidAt, TimeAt, IsLargeGroup, JudgeIt;
    var g := JudgedHead(c, s);
    TurnBasics(c, g, s.s.cur, s.s.pc.sc, s.s.pc.used, s.s.pc.k, s.s.closing);
    if IsLargeGroup(c, g) {
      KindLarge(c, g, s.s.cur, s.s.pc.sc, s.s.pc.used, s.s.pc.k, s.s.closing);
      JudgeLargeCases(c, s);
    } else {
      KindSmallOnly(c, g, s.s.cur, s.s.pc.sc, s.s.pc.used, s.s.pc.k, s.s.closing);
      RecordBytes(c, g, s.s.cur, s.s.pc.sc, s.s.pc.used, s.s.pc.k, s.s.closing);
      JudgeSmallCases(c, s);
    }
  }

  lemma JudgedHead(c: Config, s: State) returns (g: seq<Tagged>)
    requires Valid(c) && SweeperOk(c, s.s, s.h.groups) && s.s.pc.Judging?
    ensures Turn(c, g, s.s.cur, s.s.pc.sc, s.s.pc.used, s.s.pc.k, s.s.closing)
    ensures s.s.pc.k < |s.s.cur| && Live(s.s.cur[s.s.pc.k].rec)
  {
    hide Turn, GroupsOk;
    g := s.h.groups[0].recs;
  }

  lemma JudgeSmallCases(c: Config, s: State)
    requires Valid(c) && s.s.pc.Judging? && KindAt(c, s.s.pc.sc, s.s.pc.used).Small?
    requires s.s.pc.sc.pos + HDR <= |s.s.pc.sc.page|
    ensures var pc, sc, used, k, look := JudgeIt(c, s).s.pc, s.s.pc.sc, s.s.pc.used, s.s.pc.k, s.s.pc.look;
            var cur' := JudgeIt(c, s).s.cur; var age := s.clock - TimeAt(sc.page, sc.pos);
            && pc.Scanning? && pc.used == used && pc.k == k + 1
            && (|| (cur' == Settled(s.s.cur, k) && pc.sc.fully == sc.fully && pc.sc.minRem == sc.minRem)
                || (cur' == s.s.cur && !look.interesting && pc.sc.minRem == Smaller(sc.minRem, c.wait - age) && age < c.wait))
  {
    hide Settled, Log, OutcomeOf, TidAt, TimeAt, PayloadAt, Pressure, Overwrite;
  }

  lemma JudgeLargeCases(c: Config, s: State)
    requires Valid(c) && s.s.pc.Judging? && KindAt(c, s.s.pc.sc, s.s.pc.used).Large?
    requires s.s.pc.sc.pos + HDR <= |s.s.pc.sc.page|
    ensures var pc, sc, used, look := JudgeIt(c, s).s.pc, s.s.pc.sc, s.s.pc.used, s.s.pc.look;
            var age := s.clock - TimeAt(sc.page, sc.pos);
            && pc.used == used && JudgeIt(c, s).s.cur == s.s.cur
            && (|| (pc == AfterLoop(pc.sc, used) && pc.sc.dirty == sc.dirty && !look.interesting
                    && pc.sc.minRem == Smaller(sc.minRem, c.wait - age) && age < c.wait)
                || (pc.Gathering? && pc.sc == sc))
  {
    hide Settled, Log, OutcomeOf, TidAt, TimeAt, PayloadAt, Pressure, Overwrite;
  }

  lemma DueOne(c: Config, cur: seq<Tagged>, k: nat, t: int)
    requires k < |cur| && Live(cur[k].rec) && cur[k].rec.at + c.wait <= t
    ensures DueBy(c, cur, k + 1, t)
  {
  }

  lemma SettledWatch(c: Config, s: State, sc: Scan, used: int, k: nat, s': State, sc': Scan)
    requires ScanWatch(c, s, sc, used, k) && ScanFrame(s, s') && s'.s.cur == Settled(s.s.cur, k) && k < |s.s.cur|
    requires sc'.fully == sc.fully && sc'.minRem == sc.minRem
    ensures ScanWatch(c, s', sc', used, k + 1)
  {
    var cur, cur' := s.s.cur, s'.s.cur;
    if !sc.fully {
      var j :| 0 <= j < k && j < |cur| && Live(cur[j].rec) && cur[j].rec.at + c.wait <= s.clock + sc.minRem;
      assert cur'[j] == cur[j];
    }
  }

  lemma KeptWatch(c: Config, s: State, sc: Scan, used: int, k: nat, s': State, sc': Scan)
    requires ScanWatch(c, s, sc, used, k) && ScanFrame(s, s') && s'.s.cur == s.s.cur && k < |s.s.cur| && Live(s.s.cur[k].rec)
    requires Watched(c, s.s.cur, k + 1, s.index, Alerted(s))
    requires sc'.minRem == Smaller(sc.minRem, c.wait - (s.clock - s.s.cur[k].rec.at)) && s.s.cur[k].rec.at <= s.clock
    requires sc.fully ==> sc.minRem == 0
    ensures ScanWatch(c, s', sc', used, k + 1)
  {
    hide Watched;
    var r := s.s.cur[k].rec;
    if sc'.minRem == c.wait - (s.clock - r.at) {
      DueOne(c, s.s.cur, k, s.clock + sc'.minRem);
    }
  }

  lemma JudgeWakes(c: Config, s: State)
    requires Valid(c) && Core(c, s) && Balance(s) && Wakes(c, s) && s.s.pc.Judging?
    ensures Wakes(c, JudgeIt(c, s))
  {
    hide Core, Balance, JudgeIt, WriterWatch, Watched, DueBy, Settled, FromThePast, SweeperWatch, ScanWatch, ScanFrame;
    CoreParts(c, s);
    WatchJudging(c, s);
    JudgeFrame(c, s);
    JudgeCases(c, s);
    var s', sc, used, k := JudgeIt(c, s), s.s.pc.sc, s.s.pc.used, s.s.pc.k;
    WriterWatchFrame(c, s, s');
    ScannedFromThePast(c, s, k);
    JudgingFresh(c, s);
    if s'.s.pc.Gathering? {
      WatchMoves(c, s, sc, used, 0, s', sc, 0);
      WatchGathering(c, s');
    } else if s'.s.cur == s.s.cur && s'.s.pc.sc.minRem == Smaller(sc.minRem, c.wait - (s.clock - s.s.cur[k].rec.at)) && !s.s.pc.look.interesting {
      KeptWatch(c, s, sc, used, k, s', s'.s.pc.sc);
      JudgedWatch(c, s');
    } else {
      SettledWatch(c, s, sc, used, k, s', s'.s.pc.sc);
      JudgedWatch(c, s');
    }
  }

  lemma JudgedWatch(c: Config, s: State)
    requires Valid(c) && (s.s.pc.Scanning? || (s.s.pc.Deciding? && |s.s.cur| == 1))
    requires ScanWatch(c, s, s.s.pc.sc, s.s.pc.used, if s.s.pc.Scanning? then s.s.pc.k else 1)
    ensures SweeperWatch(c, s)
  {
    hide ScanWatch;
  }

  lemma JudgingFresh(c: Config, s: State)
    requires Valid(c) && SweeperOk(c, s.s, s.h.groups) && s.s.pc.Judging?
    ensures s.s.pc.sc.fully ==> s.s.pc.sc.minRem == 0
  {
    hide Mid, AllDead, GroupPages, GroupsOk, Pressure, Offset;
  }

  lemma GatherSweeperWatch(c: Config, s: State)
    requires Valid(c) && Core(c, s) && SweeperWatch(c, s) && s.s.pc.Gathering?
    ensures SweeperWatch(c, GatherMore(c, s))
  {
    hide Core, GatherMore, Pressure, DueBy;
    CoreParts(c, s);
    GatherFrame(c, s);
    GatherCases(c, s);
    GatheringFresh(c, s);
  }

  lemma GatherWakes(c: Config, s: State)
    requires Valid(c) && Core(c, s) && Wakes(c, s) && s.s.pc.Gathering?
    ensures Wakes(c, GatherMore(c, s))
  {
    hide Core, GatherMore, WriterWatch, FromThePast, SweeperWatch;
    GatherSweeperWatch(c, s);
    GatherFrame(c, s);
    WriterWatchFrame(c, s, GatherMore(c, s));
  }

  lemma GatheringFresh(c: Config, s: State)
    requires Valid(c) && SweeperOk(c, s.s, s.h.groups) && s.s.pc.Gathering?
    ensures s.s.pc.sc.fully && |s.s.cur| == 1
  {
    hide Mid, GroupPages, GroupsOk, Pressure, Offset;
  }

  lemma GatherCases(c: Config, s: State)
    requires Valid(c) && s.s.pc.Gathering?
    ensures var pc, sc, used := GatherMore(c, s).s.pc, s.s.pc.sc, s.s.pc.used;
            || (pc.Gathering? && pc.sc == sc && pc.used == used && GatherMore(c, s).s.cur == s.s.cur)
            || (pc.Writing? && pc.used == used && pc.sc.fully == sc.fully && pc.sc.minRem == sc.minRem
                && GatherMore(c, s).s.cur == Settled(s.s.cur, 0))
  {
    hide Settled, Log, Put, ReadAt, GatherStep, OutcomeOf, TidAt, LenAt, Moved;
  }
}
