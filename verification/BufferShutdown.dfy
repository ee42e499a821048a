// After Close: the writer drains without blocking and stops, then the sweeper empties the ring.
module BufferShutdown {
  import opened Records
  import opened PageCodec
  import opened SweepPage
  import opened BufferMachine
  import opened BufferRing
  import opened BufferWriter
  import opened BufferSweeper
  import opened BufferInvariant
  import opened BufferAccounts
  import opened BufferOrder
  import opened BufferEvidence
  import opened BufferWakeups
  import opened BufferTheorems

  // ---- The writer ----

  predicate InFlush(pc: WriterPc)
  {
    pc.FlushCheck? || pc.FlushPark? || pc.FlushWrite? || pc.FlushAdd?
  }

  // Steps the writer can still take, paid for in advance: a flush may add a page to `used`, and
  // every page released lets a parked writer look again.
  function StageFuel(c: Config, w: Writer): nat
    requires Valid(c)
  {
    if w.staged == [] then 0 else 6 * MaxBytes(c) + (if InFlush(w.pc) then 10 else 20)
  }

  function SmallFuel(c: Config): nat
    requires Valid(c)
  {
    6 * MaxBytes(c) + 21
  }

  function BigFuel(c: Config): nat
    requires Valid(c)
  {
    6 * MaxBytes(c) + c.m + 20
  }

  function ContFuel(c: Config, cont: Cont): nat
    requires Valid(c)
  {
    match cont
    case ThenStage(_) => SmallFuel(c)
    case ThenLarge(_) => BigFuel(c)
    case _ => 0
  }

  function PcFuel(c: Config, pc: WriterPc): int
    requires Valid(c)
  {
    match pc
    case WriterDone => 0
    case WriterExit => 1
    case Idle => 2
    case FlushWake(cont) => 3 + ContFuel(c, cont)
    case FlushAdd(cont) => 4 + ContFuel(c, cont)
    case FlushWrite(cont) => 5 + ContFuel(c, cont)
    case FlushPark(cont) => 6 + ContFuel(c, cont)
    case FlushCheck(cont) => 7 + ContFuel(c, cont)
    case LargeWake => 3
    case LargeAdd(_) => 6 * MaxBytes(c) + 4
    case LargeWrite(big, i) => 6 * MaxBytes(c) + 4 + ChunksOf(c, big.rec) - i
    case LargePark(_) => 6 * MaxBytes(c) + c.m + 5
    case LargeCheck(_) => 6 * MaxBytes(c) + c.m + 6
  }

  // How often the sweeper can still signal a freed page.
  function TokenFuel(s: State): int
  {
    3 * s.used + (if s.s.pc.Signalling? then 2 else 0) + (if s.pageFreed then 1 else 0)
  }

  function QueueFuel(c: Config, n: nat): nat
    requires Valid(c)
  {
    n * (12 * MaxBytes(c) + c.m + 60)
  }

  function WriterFuel(c: Config, s: State): int
    requires Valid(c)
  {
    QueueFuel(c, |s.queue|) + StageFuel(c, s.w) + PcFuel(c, s.w.pc) + 2 * TokenFuel(s) + (if s.w.draining then 0 else 2)
  }

  predicate WriterStep(step: Step)
  {
    step.WReceive? || step.WTicker? || step.WSeeClose? || step.WDrained? || step.WCheck? || step.WPageFreed?
    || step.WGiveUp? || step.WWrite? || step.WAdd? || step.WWake? || step.WFinish?
  }

  // A tick that finds nothing staged.
  predicate IdleTick(s: State, step: Step)
  {
    step.WTicker? && s.w.staged == []
  }

  lemma WriterFacts(c: Config, s: State)
    requires Valid(c) && Core(c, s)
    ensures 0 <= s.used <= MaxBytes(c)
    ensures s.w.stageN == 0 <==> s.w.staged == []
    ensures InFlush(s.w.pc) ==> s.w.staged != []
    ensures s.w.pc.FlushWake? || s.w.pc.LargeCheck? || s.w.pc.LargePark? || s.w.pc.LargeWrite? || s.w.pc.LargeAdd? ==> s.w.staged == []
    ensures s.w.pc.LargeWrite? ==> s.w.pc.i < ChunksOf(c, s.w.pc.big.rec) <= c.m
    ensures s.w.pc.LargeCheck? ==> ChunksOf(c, s.w.pc.big.rec) <= c.m
  {
    StageEmptyIff(c, s.w);
    RingRoom(c, s.file, s.used, s.s.at, s.s.head, s.w.head, s.h.groups, s.h.inflight, 0);
    hide RingOk, SweeperOk, StageOk, EncodePage, Acceptable, NumChunks;
  }

  lemma FuelNonNegative(c: Config, s: State)
    requires Valid(c) && Core(c, s)
    ensures WriterFuel(c, s) >= 0
  {
    hide Core, NumChunks;
    WriterFacts(c, s);
  }

  lemma QueueFuelStep(c: Config, n: nat)
    requires Valid(c) && n > 0
    ensures QueueFuel(c, n) == QueueFuel(c, n - 1) + 12 * MaxBytes(c) + c.m + 60
  {
    var k := 12 * MaxBytes(c) + c.m + 60;
    assert n * k == (n - 1) * k + k;
  }

  lemma ReceiveBurns(c: Config, s: State)
    requires Valid(c) && Core(c, s) && s.w.pc.Idle? && s.queue != []
    ensures WriterFuel(c, Receive(c, s)) < WriterFuel(c, s)
  {
    hide Core, NumChunks, QueueFuel;
    WriterFacts(c, s);
    QueueFuelStep(c, |s.queue|);
    var s' := Receive(c, s);
    ReceiveParts(c, s);
    assert StageFuel(c, s'.w) <= 6 * MaxBytes(c) + 20;
  }

  lemma ReceiveParts(c: Config, s: State)
    requires Valid(c) && s.w.pc.Idle? && s.queue != []
    ensures var s' := Receive(c, s);
            && |s'.queue| == |s.queue| - 1 && s'.used == s.used && s'.s == s.s && s'.pageFreed == s.pageFreed
            && s'.w.draining == s.w.draining && PcFuel(c, s'.w.pc) <= 6 * MaxBytes(c) + c.m + 28
  {
    hide NumChunks, EncodeRecord, Put, ClearTail;
  }

  lemma AddBurns(c: Config, s: State)
    requires Valid(c) && Core(c, s) && (s.w.pc.FlushAdd? || s.w.pc.LargeAdd?)
    ensures WriterFuel(c, AddUsed(c, s)) < WriterFuel(c, s)
  {
    hide Core, QueueFuel, NumChunks;
    WriterFacts(c, s);
    WriterAddKeepsCore(c, s);
    WriterFacts(c, AddUsed(c, s));
  }

  lemma WakeBurns(c: Config, s: State)
    requires Valid(c) && Core(c, s) && (s.w.pc.FlushWake? || s.w.pc.LargeWake?)
    ensures WriterFuel(c, WakeSweeper(c, s)) < WriterFuel(c, s)
  {
    hide Core, QueueFuel, NumChunks, EncodeRecord, Put;
    WriterFacts(c, s);
  }

  lemma MovesBurn(c: Config, s: State, step: Step)
    requires Valid(c) && Core(c, s) && Enabled(c, s, step) && !IdleTick(s, step)
    requires step.WTicker? || step.WSeeClose? || step.WDrained? || step.WFinish?
    ensures WriterFuel(c, Apply(c, s, step)) < WriterFuel(c, s)
  {
    hide Core, QueueFuel, ClearTail;
    WriterFacts(c, s);
  }

  lemma CheckBurns(c: Config, s: State)
    requires Valid(c) && Core(c, s) && (s.w.pc.FlushCheck? || s.w.pc.LargeCheck?)
    ensures WriterFuel(c, CheckRoom(c, s)) < WriterFuel(c, s)
  {
    hide Core, QueueFuel, NumChunks;
    WriterFacts(c, s);
  }

  lemma FreedBurns(c: Config, s: State)
    requires Valid(c) && Core(c, s) && (s.w.pc.FlushPark? || s.w.pc.LargePark?) && s.pageFreed
    ensures WriterFuel(c, TakePageFreed(s)) < WriterFuel(c, s)
  {
    hide Core, QueueFuel;
    WriterFacts(c, s);
  }

  lemma GiveUpBurns(c: Config, s: State)
    requires Valid(c) && Core(c, s) && (s.w.pc.FlushPark? || s.w.pc.LargePark?)
    ensures WriterFuel(c, GiveUp(s)) < WriterFuel(c, s)
  {
    hide Core, QueueFuel;
    WriterFacts(c, s);
  }

  lemma PageBurns(c: Config, s: State)
    requires Valid(c) && Core(c, s) && (s.w.pc.FlushWrite? || s.w.pc.LargeWrite?)
    ensures WriterFuel(c, WritePage(c, s)) < WriterFuel(c, s)
  {
    hide Core, QueueFuel, NumChunks, Put, Chunk, Moved;
    WriterFacts(c, s);
  }

  // After Close each step of the writer except an idle tick burns fuel, and no one else's step
  // adds any. So the writer takes at most WriterFuel further steps.
  lemma WriterFuelBurns(c: Config, s: State, step: Step)
    requires Valid(c) && Core(c, s) && s.closed && Enabled(c, s, step)
    ensures WriterStep(step) && !IdleTick(s, step) ==> WriterFuel(c, Apply(c, s, step)) < WriterFuel(c, s)
    ensures WriterFuel(c, Apply(c, s, step)) <= WriterFuel(c, s)
  {
    hide Core, WriterFuel;
    match step
    case WReceive => ReceiveBurns(c, s);
    case WAdd => AddBurns(c, s);
    case WWake => WakeBurns(c, s);
    case WTicker =>
      if s.w.staged == [] {
        WriterFacts(c, s);
      } else {
        MovesBurn(c, s, step);
      }
    case WSeeClose => MovesBurn(c, s, step);
    case WDrained => MovesBurn(c, s, step);
    case WFinish => MovesBurn(c, s, step);
    case WCheck => CheckBurns(c, s);
    case WPageFreed => FreedBurns(c, s);
    case WGiveUp => GiveUpBurns(c, s);
    case WWrite => PageBurns(c, s);
    case _ => OthersAddNoFuel(c, s, step);
  }

  lemma OthersAddNoFuel(c: Config, s: State, step: Step)
    requires Valid(c) && Core(c, s) && s.closed && Enabled(c, s, step) && !WriterStep(step)
    ensures WriterFuel(c, Apply(c, s, step)) <= WriterFuel(c, s)
  {
    hide Core, QueueFuel, StageFuel, PcFuel, LookAt, JudgeIt, GatherMore, ReadAt, Put, Moved;
    match step
    case RLook => LookFrame(c, s);
      LookPc(c, s);
    case RJudge => JudgeFrame(c, s);
      JudgePc(c, s);
    case RGather => GatherFrame(c, s);
      GatherPc(c, s);
    case RRelease => ReleaseBurnsUsed(c, s);
    case _ =>
  }

  lemma ReleaseBurnsUsed(c: Config, s: State)
    requires Valid(c) && Core(c, s) && s.s.pc.Releasing?
    ensures TokenFuel(Release(c, s)) < TokenFuel(s)
  {
    hide Core, GroupPages, Moved;
    CoreParts(c, s);
    ReleasingCount(c, s);
    GroupPageCount(c, s.h.groups[0].recs);
    TimesMonotone(1, s.s.pc.chunks, c.p);
  }

  // Once Close has been called the writer always has a step to take until it is done.
  lemma WriterNeverBlocks(c: Config, s: State)
    requires Valid(c) && Core(c, s) && s.closed && !s.w.pc.WriterDone?
    ensures exists step :: WriterStep(step) && !IdleTick(s, step) && Enabled(c, s, step)
  {
    hide Core;
    var step :=
      match s.w.pc
      case Idle => if s.queue != [] then WReceive else if s.w.draining then WDrained else WSeeClose
      case FlushCheck(_) => WCheck
      case LargeCheck(_) => WCheck
      case FlushPark(_) => WGiveUp
      case LargePark(_) => WGiveUp
      case FlushWrite(_) => WWrite
      case LargeWrite(_, _) => WWrite
      case FlushAdd(_) => WAdd
      case LargeAdd(_) => WAdd
      case FlushWake(_) => WWake
      case LargeWake => WWake
      case _ => WFinish;
    assert WriterStep(step) && !IdleTick(s, step) && Enabled(c, s, step);
  }

  // Number of writer steps, idle ticks aside, among the first n of a run.
  ghost function WriterSteps(run: seq<State>, steps: seq<Step>, n: nat): nat
    requires n <= |steps| < |run|
  {
    if n == 0 then 0
    else WriterSteps(run, steps, n - 1)
         + (if WriterStep(steps[n - 1]) && !IdleTick(run[n - 1], steps[n - 1]) then 1 else 0)
  }

  // On every run from a closed state the writer takes boundedly many steps.
  lemma {:induction false} WriterStops(c: Config, run: seq<State>, steps: seq<Step>, n: nat)
    requires Valid(c) && IsRun(c, run, steps) && Inv(c, run[0]) && run[0].closed && n <= |steps|
    ensures run[n].closed
    ensures WriterSteps(run, steps, n) + WriterFuel(c, run[n]) <= WriterFuel(c, run[0])
    ensures WriterSteps(run, steps, n) <= WriterFuel(c, run[0])
  {
    hide Enabled, Apply, WriterFuel, Core, Balance, Order, Evidence, Wakes;
    InvAlongRun(c, run, steps, n);
    FuelNonNegative(c, run[n]);
    if n > 0 {
      WriterStops(c, run, steps, n - 1);
      InvAlongRun(c, run, steps, n - 1);
      WriterFuelBurns(c, run[n - 1], steps[n - 1]);
      StaysClosed(c, run[n - 1], steps[n - 1]);
    }
  }

  lemma StaysClosed(c: Config, s: State, step: Step)
    requires Valid(c) && s.closed && Enabled(c, s, step)
    ensures Apply(c, s, step).closed
  {
    hide LookAt, JudgeIt, GatherMore, ReadAt, Put, Moved, Chunk, NumChunks, EncodeRecord, ClearTail;
    match step
    case RLook => LookFrame(c, s);
    case RJudge => JudgeFrame(c, s);
    case RGather => GatherFrame(c, s);
    case _ =>
  }

  // ---- The sweeper ----

  function GroupFuel(c: Config, g: Group): nat
    requires Valid(c)
  {
    2 * |g.recs| + |GroupPages(c, g.recs)| + 10
  }

  function RingFuel(c: Config, groups: seq<Group>): nat
    requires Valid(c)
  {
    if groups == [] then 0 else GroupFuel(c, groups[0]) + RingFuel(c, groups[1..])
  }

  // Steps the sweeper can still take before it has emptied the ring.
  function SweeperFuel(c: Config, s: State): int
    requires Valid(c)
  {
    var rest := if s.h.groups == [] then 0 else RingFuel(c, s.h.groups[1..]);
    var pages := |GroupPages(c, s.s.cur)|;
    match s.s.pc
    case Exited => 0
    case Top => RingFuel(c, s.h.groups) + 1
    case Signalling => RingFuel(c, s.h.groups) + 2
    case Releasing(_) => rest + 3
    case Deciding(_, _) => rest + 4
    case Writing(_, _) => rest + 5
    case Gathering(_, _, _, _, _, n, i, _) => rest + n - i + 6
    case Judging(_, _, k, _) => rest + 2 * (|s.s.cur| - k) + pages + 6
    case Scanning(_, _, k) => rest + 2 * (|s.s.cur| - k) + pages + 7
    case Snapping(_) => rest + 2 * |s.s.cur| + pages + 8
    case Reading => RingFuel(c, s.h.groups)
    case _ => 0
  }

  predicate SweeperStep(step: Step)
  {
    step.RLoad? || step.RWakeup? || step.RWriterDone? || step.RRead? || step.RSnap? || step.RLook? || step.RJudge?
    || step.RGather? || step.RWriteBack? || step.RDecide? || step.RRelease? || step.RSignal?
  }

  // Once closing, the sweeper never parks: every record is settled on sight.
  lemma ClosingNeverParks(c: Config, s: State)
    requires Valid(c) && Inv(c, s) && s.s.closing
    ensures !s.s.pc.ParkPage?
    ensures s.s.pc.Deciding? ==> s.s.pc.sc.fully
    ensures s.w.pc.WriterDone?
  {
    hide RingOk, WriterOk, Balance, Order, Evidence, Wakes, Mid, GroupsOk, GroupPages, AllDead;
  }

  predicate Drains(c: Config, s: State)
    requires Valid(c)
  {
    s.s.closing && !s.s.pc.ParkEmpty?
  }

  lemma RingFuelHead(c: Config, groups: seq<Group>)
    requires Valid(c) && groups != []
    ensures RingFuel(c, groups) == 2 * |groups[0].recs| + |GroupPages(c, groups[0].recs)| + 10 + RingFuel(c, groups[1..])
  {
    hide GroupPages;
  }

  lemma ScanShape(c: Config, s: State)
    requires Valid(c) && SweeperOk(c, s.s, s.h.groups) && (s.s.pc.Scanning? || s.s.pc.Judging? || s.s.pc.Gathering?)
    ensures s.h.groups != []
    ensures s.s.pc.Scanning? ==> s.s.pc.k <= |s.s.cur|
    ensures s.s.pc.Judging? ==> s.s.pc.k < |s.s.cur|
    ensures s.s.pc.Gathering? ==> s.s.pc.i <= s.s.pc.n == |GroupPages(c, s.s.cur)|
  {
    hide GroupsOk, Mid, AllDead, GroupPages, Pressure, Offset;
  }

  lemma LookBurns(c: Config, s: State)
    requires Valid(c) && Core(c, s) && s.s.pc.Scanning?
    ensures SweeperFuel(c, LookAt(c, s)) < SweeperFuel(c, s)
  {
    hide Core, LookAt, GroupPages, RingFuel, ScanFrame;
    CoreParts(c, s);
    ScanShape(c, s);
    LookAtAny(c, s);
    LookCases(c, s);
  }

  lemma JudgeBurns(c: Config, s: State)
    requires Valid(c) && Core(c, s) && s.s.pc.Judging?
    ensures SweeperFuel(c, JudgeIt(c, s)) < SweeperFuel(c, s)
  {
    hide Core, JudgeIt, GroupPages, RingFuel, Settled;
    CoreParts(c, s);
    ScanShape(c, s);
    JudgeFrame(c, s);
    JudgeCases(c, s);
    SameGroups(s, JudgeIt(c, s));
    SameSize(c, s, JudgeIt(c, s));
    JudgeGatherCount(c, s);
  }

  lemma SameGroups(s: State, s': State)
    requires ScanFrame(s, s')
    ensures s'.h.groups == s.h.groups
  {
  }

  // Settling does not change how many records or pages the scanned group has.
  lemma SameSize(c: Config, s: State, s': State)
    requires Valid(c) && SweeperOk(c, s.s, s.h.groups) && (s.s.pc.Judging? || s.s.pc.Gathering?)
    requires s'.s.cur == s.s.cur || exists k :: 0 <= k < |s.s.cur| && s'.s.cur == Settled(s.s.cur, k)
    ensures |s'.s.cur| == |s.s.cur| && |GroupPages(c, s'.s.cur)| == |GroupPages(c, s.s.cur)|
  {
    hide Turn, GroupsOk, GroupPages;
    if s'.s.cur != s.s.cur {
      var k :| 0 <= k < |s.s.cur| && s'.s.cur == Settled(s.s.cur, k);
      SettledSize(c, s.s.cur, k);
    }
  }

  lemma SettledSize(c: Config, cur: seq<Tagged>, k: nat)
    requires Valid(c) && k < |cur|
    ensures |Settled(cur, k)| == |cur| && |GroupPages(c, Settled(cur, k))| == |GroupPages(c, cur)|
  {
    hide EncodePage, Chunk, NumChunks;
  }

  lemma JudgeGatherCount(c: Config, s: State)
    requires Valid(c) && Core(c, s) && s.s.pc.Judging?
    ensures var pc := JudgeIt(c, s).s.pc; pc.Gathering? ==> pc.i == 1 && pc.n == |GroupPages(c, s.s.cur)|
  {
    hide Core, JudgeIt, GroupPages, KindAt, Turn, IsLargeGroup;
    CoreParts(c, s);
    JudgeGatherFrom(c, s);
    var g := JudgedHead(c, s);
    TurnBasics(c, g, s.s.cur, s.s.pc.sc, s.s.pc.used, s.s.pc.k, s.s.closing);
    if IsLargeGroup(c, g) {
      KindLargeOnly(c, g, s.s.cur, s.s.pc.sc, s.s.pc.used, s.s.pc.k, s.s.closing);
    } else {
      KindSmallOnly(c, g, s.s.cur, s.s.pc.sc, s.s.pc.used, s.s.pc.k, s.s.closing);
    }
  }

  lemma JudgeGatherFrom(c: Config, s: State)
    requires Valid(c) && s.s.pc.Judging?
    ensures var pc, kind := JudgeIt(c, s).s.pc, KindAt(c, s.s.pc.sc, s.s.pc.used);
            pc.Gathering? ==> kind.Large? && pc.i == 1 && pc.n == kind.chunks
  {
    hide Settle, Settled, Log, OutcomeOf, TidAt, TimeAt, PayloadAt, Pressure, KindAt;
  }

  lemma GatherBurns(c: Config, s: State)
    requires Valid(c) && Core(c, s) && s.s.pc.Gathering?
    ensures SweeperFuel(c, GatherMore(c, s)) < SweeperFuel(c, s)
  {
    hide Core, GatherMore, GroupPages, RingFuel, Settled;
    CoreParts(c, s);
    ScanShape(c, s);
    GatherFrame(c, s);
    SameGroups(s, GatherMore(c, s));
    GatherCounts(c, s);
  }

  lemma GatherCounts(c: Config, s: State)
    requires Valid(c) && SweeperOk(c, s.s, s.h.groups) && s.s.pc.Gathering?
    ensures var pc := GatherMore(c, s).s.pc;
            (pc.Gathering? && pc.n == s.s.pc.n && pc.i == s.s.pc.i + 1 && s.s.pc.i < s.s.pc.n) || pc.Writing?
  {
    assert |s.s.pc.sc.page| == c.p by { hide GroupsOk, GroupPages, GroupOk; }
    hide SweeperOk, Settled, Log, Put, ReadAt, GatherStep, OutcomeOf, TidAt, LenAt, Moved;
  }

  lemma QuietBurns(c: Config, s: State, step: Step)
    requires Valid(c) && Core(c, s) && Enabled(c, s, step)
    requires step.RRead? || step.RSnap? || step.RSignal?
    ensures SweeperFuel(c, Apply(c, s, step)) < SweeperFuel(c, s)
    ensures Drains(c, s) ==> Drains(c, Apply(c, s, step))
  {
    hide Core, GroupPages, RingFuel, ReadAt, Start;
    CoreParts(c, s);
    if s.h.groups != [] {
      RingFuelHead(c, s.h.groups);
    }
  }

  lemma LoadBurns(c: Config, s: State)
    requires Valid(c) && Core(c, s) && s.s.pc.Top?
    ensures SweeperFuel(c, LoadUsed(s)) < SweeperFuel(c, s)
    ensures Drains(c, s) ==> Drains(c, LoadUsed(s))
  {
    hide Core, GroupPages;
    CoreParts(c, s);
    LoadUsedOk(c, s);
  }

  lemma WriteBackBurns(c: Config, s: State)
    requires Valid(c) && Core(c, s) && s.s.pc.Writing?
    ensures SweeperFuel(c, WriteBack(s)) < SweeperFuel(c, s)
    ensures Drains(c, s) ==> Drains(c, WriteBack(s))
  {
    hide Core, GroupPages, RingFuel, Put, WriteBack, SweeperFuel;
    WriteBackTail(c, s);
    WriteBackPc(s);
    WritingFuel(c, s);
    WritingFuel(c, WriteBack(s));
  }

  lemma WriteBackPc(s: State)
    requires s.s.pc.Writing?
    ensures var s' := WriteBack(s); s'.s.pc.Deciding? && s'.s.closing == s.s.closing
  {
    hide Put;
  }

  lemma WritingFuel(c: Config, s: State)
    requires Valid(c) && s.h.groups != []
    ensures s.s.pc.Writing? ==> SweeperFuel(c, s) == RingFuel(c, s.h.groups[1..]) + 5
    ensures s.s.pc.Deciding? ==> SweeperFuel(c, s) == RingFuel(c, s.h.groups[1..]) + 4
  {
    hide GroupPages, RingFuel;
  }

  lemma DecideBurns(c: Config, s: State)
    requires Valid(c) && Core(c, s) && s.s.pc.Deciding?
    ensures SweeperFuel(c, Decide(s)) < SweeperFuel(c, s)
    ensures Drains(c, s) && s.s.pc.sc.fully ==> Drains(c, Decide(s))
  {
    hide Core, GroupPages, RingFuel;
  }

  lemma ReleaseBurns(c: Config, s: State)
    requires Valid(c) && Core(c, s) && s.s.pc.Releasing?
    ensures SweeperFuel(c, Release(c, s)) < SweeperFuel(c, s)
    ensures Drains(c, s) ==> Drains(c, Release(c, s))
  {
    hide Core, GroupPages, RingFuel, Moved;
    CoreParts(c, s);
  }

  lemma WriteBackTail(c: Config, s: State)
    requires Valid(c) && Core(c, s) && s.s.pc.Writing?
    ensures s.h.groups != [] && WriteBack(s).h.groups != [] && WriteBack(s).h.groups[1..] == s.h.groups[1..]
  {
    hide Core, Put;
    MidHasHead(c, s);
  }

  // While draining, every sweeper step burns fuel, nobody adds any, and draining goes on.
  lemma SweeperFuelBurns(c: Config, s: State, step: Step)
    requires Valid(c) && Inv(c, s) && Drains(c, s) && Enabled(c, s, step)
    ensures Drains(c, Apply(c, s, step))
    ensures SweeperStep(step) ==> SweeperFuel(c, Apply(c, s, step)) < SweeperFuel(c, s)
    ensures !SweeperStep(step) ==> SweeperFuel(c, Apply(c, s, step)) == SweeperFuel(c, s)
  {
    ClosingNeverParks(c, s);
    assert Core(c, s) by { hide Core, Balance, Order, Evidence, Wakes; }
    hide Inv, Core, SweeperFuel, Apply, Enabled;
    if step.RLook? || step.RJudge? || step.RGather? {
      ScanBurns(c, s, step);
    } else if step.RWriteBack? || step.RDecide? || step.RRelease? || step.RLoad? {
      HeadBurns(c, s, step);
    } else if step.RRead? || step.RSnap? || step.RSignal? {
      QuietBurns(c, s, step);
    } else {
      NotParked(c, s, step);
      EnvironmentKeepsFuel(c, s, step);
    }
  }

  lemma NotParked(c: Config, s: State, step: Step)
    requires Valid(c) && Enabled(c, s, step) && !s.s.pc.ParkEmpty? && !s.s.pc.ParkPage? && s.w.pc.WriterDone?
    ensures !step.RWakeup? && !step.RWriterDone?
    ensures !WriterStep(step)
  {
  }

  lemma ScanBurns(c: Config, s: State, step: Step)
    requires Valid(c) && Core(c, s) && Enabled(c, s, step)
    requires step.RLook? || step.RJudge? || step.RGather?
    ensures SweeperFuel(c, Apply(c, s, step)) < SweeperFuel(c, s)
    ensures Drains(c, s) ==> Drains(c, Apply(c, s, step))
  {
    hide Core, SweeperFuel, LookAt, JudgeIt, GatherMore;
    if step.RLook? {
      LookBurns(c, s);
      LookFrame(c, s);
      LookPc(c, s);
    } else if step.RJudge? {
      JudgeBurns(c, s);
      JudgeFrame(c, s);
      JudgePc(c, s);
    } else {
      GatherBurns(c, s);
      GatherFrame(c, s);
      GatherPc(c, s);
    }
  }

  lemma HeadBurns(c: Config, s: State, step: Step)
    requires Valid(c) && Core(c, s) && Enabled(c, s, step)
    requires step.RWriteBack? || step.RDecide? || step.RRelease? || step.RLoad?
    ensures SweeperFuel(c, Apply(c, s, step)) < SweeperFuel(c, s)
    ensures Drains(c, s) && (s.s.pc.Deciding? ==> s.s.pc.sc.fully) ==> Drains(c, Apply(c, s, step))
  {
    hide Core, SweeperFuel, Drains, WriteBack, Decide, Release, LoadUsed;
    if step.RWriteBack? {
      WriteBackBurns(c, s);
    } else if step.RDecide? {
      DecideBurns(c, s);
    } else if step.RRelease? {
      ReleaseBurns(c, s);
    } else {
      LoadBurns(c, s);
    }
  }

  lemma EnvironmentKeepsFuel(c: Config, s: State, step: Step)
    requires Valid(c) && Enabled(c, s, step)
    requires step.SWrite? || step.SAddInterest? || step.SSendWakeup? || step.STick? || step.SFire? || step.SClose?
    ensures Apply(c, s, step).s == s.s && SweeperFuel(c, Apply(c, s, step)) == SweeperFuel(c, s)
  {
    hide GroupPages, RingFuel, NumChunks;
  }

  // While draining, the sweeper always has a step to take until it has exited.
  lemma SweeperNeverBlocks(c: Config, s: State)
    requires Valid(c) && Inv(c, s) && Drains(c, s) && !s.s.pc.Exited?
    ensures exists step :: SweeperStep(step) && Enabled(c, s, step)
  {
    hide Inv, SweeperStep, Enabled;
    ClosingNeverParks(c, s);
    SomeSweeperStep(c, s);
  }

  lemma SomeSweeperStep(c: Config, s: State)
    requires Valid(c) && !s.s.pc.Exited? && !s.s.pc.ParkPage? && !s.s.pc.ParkEmpty?
    ensures exists step :: SweeperStep(step) && Enabled(c, s, step)
  {
    var step :=
      match s.s.pc
      case Top => RLoad
      case Reading => RRead
      case Snapping(_) => RSnap
      case Scanning(_, _, _) => RLook
      case Judging(_, _, _, _) => RJudge
      case Gathering(_, _, _, _, _, _, _, _) => RGather
      case Writing(_, _) => RWriteBack
      case Deciding(_, _) => RDecide
      case Releasing(_) => RRelease
      case _ => RSignal;
    assert SweeperStep(step) && Enabled(c, s, step);
  }

  ghost function SweeperSteps(steps: seq<Step>, n: nat): nat
    requires n <= |steps|
  {
    if n == 0 then 0 else SweeperSteps(steps, n - 1) + (if SweeperStep(steps[n - 1]) then 1 else 0)
  }

  lemma SweeperFuelNonNegative(c: Config, s: State)
    requires Valid(c) && Core(c, s)
    ensures SweeperFuel(c, s) >= 0
  {
    hide Core, GroupPages, RingFuel;
    CoreParts(c, s);
    if s.s.pc.Scanning? || s.s.pc.Judging? || s.s.pc.Gathering? {
      ScanShape(c, s);
    }
  }

  // On every run from a state in which the sweeper drains, it takes boundedly many steps.
  lemma {:induction false} SweeperStops(c: Config, run: seq<State>, steps: seq<Step>, n: nat)
    requires Valid(c) && IsRun(c, run, steps) && Inv(c, run[0]) && Drains(c, run[0]) && n <= |steps|
    ensures Drains(c, run[n])
    ensures SweeperSteps(steps, n) + SweeperFuel(c, run[n]) <= SweeperFuel(c, run[0])
    ensures SweeperSteps(steps, n) <= SweeperFuel(c, run[0])
  {
    hide Enabled, Apply, SweeperFuel, Core, Balance, Order, Evidence, Wakes;
    InvAlongRun(c, run, steps, n);
    SweeperFuelNonNegative(c, run[n]);
    if n > 0 {
      SweeperStops(c, run, steps, n - 1);
      InvAlongRun(c, run, steps, n - 1);
      SweeperFuelBurns(c, run[n - 1], steps[n - 1]);
    }
  }

  // When the sweeper has exited the ring is empty, the writer is done, and every accepted record
  // was delivered, evicted, or dropped because the ring was full at shutdown.
  lemma ExitLeavesNothing(c: Config, s: State)
    requires Valid(c) && Reachable(c, s) && s.s.pc.Exited?
    ensures s.used == 0 && s.w.pc.WriterDone? && s.queue == [] && s.w.staged == []
    ensures multiset(s.h.accepted) == multiset(Tags(s.h.resolved)) + multiset(s.h.dropped)
  {
    hide Core, Order, Evidence, Wakes, Tags;
    ReachableInv(c, s);
    ExitedMeansDone(c, s);
    CoreParts(c, s);
    RingRoom(c, s.file, s.used, s.s.at, s.s.head, s.w.head, s.h.groups, s.h.inflight, 0);
    DoneIsEmpty(c, s);
  }

  lemma DoneIsEmpty(c: Config, s: State)
    requires Valid(c) && Core(c, s) && s.w.pc.WriterDone?
    ensures s.queue == [] && s.w.staged == []
  {
    hide RingOk, SweeperOk, StageOk;
  }
}
