// The span buffer as two processes over shared state (buffer.go). A step is one atomic access to
// something shared: a load or add of `used`, a file operation, a channel operation, a look at the
// interest index or at the clock. Local computation between two accesses belongs to the first.
module BufferMachine {
  import opened Bytes
  import opened Records
  import opened PageCodec
  import opened Ring
  import opened SweepPage
  import opened Interest

  // Page size, number of pages of the file, decision window.
  datatype Config = Config(p: nat, m: nat, wait: int)

  predicate Valid(c: Config)
  {
    c.p > HDR && c.m >= 2 && c.wait > 0
  }

  function MaxBytes(c: Config): nat
  {
    c.m * c.p
  }

  // An accepted record with its place in the order of acceptance.
  datatype Tagged = Tagged(id: nat, rec: Record)

  // What the writer does after a flush.
  datatype Cont = Loop | ThenStage(req: Tagged) | ThenLarge(req: Tagged) | ThenExit

  datatype WriterPc =
    | Idle                                    // selecting on writeCh, ticker, closeCh (or draining)
    | FlushCheck(cont: Cont)                  // about to load `used`
    | FlushPark(cont: Cont)                   // no room: selecting on pageFreed, closeCh
    | FlushWrite(cont: Cont)                  // about to write the staged page
    | FlushAdd(cont: Cont)                    // about to add the page to `used`
    | FlushWake(cont: Cont)                   // about to signal the sweeper
    | LargeCheck(big: Tagged)
    | LargePark(big: Tagged)
    | LargeWrite(big: Tagged, i: nat)         // about to write page i of the record
    | LargeAdd(big: Tagged)
    | LargeWake
    | WriterExit                              // about to close writerDone
    | WriterDone

  datatype Writer = Writer(
    pc: WriterPc, draining: bool,
    stage: Page, stageN: nat, head: nat,
    staged: seq<Tagged>)                      // history: the records in the stage

  datatype SweeperPc =
    | Top                                     // about to load `used`
    | ParkEmpty                               // selecting on wakeup, writerDone
    | Reading                                 // about to read the page at the head
    | Snapping(page: Page)                    // page read, about to load `used` once more
    | Scanning(sc: Scan, used: int, k: nat)   // at record k of the page
    | Judging(sc: Scan, used: int, k: nat, look: Seen)
    | Gathering(sc: Scan, used: int, v: Verdict, age: int, look: Seen, n: nat, i: nat, payload: seq<byte>)
    | Writing(sc: Scan, used: int)            // about to write the page back
    | Deciding(sc: Scan, used: int)
    | Releasing(chunks: nat)                  // about to subtract from `used`
    | Signalling                              // about to signal the writer
    | ParkPage(deadline: int)                 // selecting on wakeup, writerDone, timer armed
    | Exited

  // The interest answer for one record, the history of decisions behind it, and when it was read.
  datatype Seen = Seen(interesting: bool, adds: seq<Entry<TraceId>>, time: int)

  datatype Sweeper = Sweeper(
    pc: SweeperPc, head: nat, closing: bool,
    at: nat,                                  // history: head as a page number
    cur: seq<Tagged>)                         // history: the group being scanned, as settled so far

  // The records published together, and a bound above their ids.
  datatype Group = Group(recs: seq<Tagged>, hi: nat)

  // One callback of the sweeper, with the evidence it acted on.
  datatype Resolution = Resolution(rec: Tagged, out: Outcome, look: Seen, used: int, closing: bool)

  datatype History = History(
    accepted: seq<Tagged>,                    // records for which Write returned nil
    taken: nat,                               // how many of them left the channel
    groups: seq<Group>,                       // committed page groups, oldest first
    base: nat,                                // bound above the ids of released groups
    inflight: seq<Page>,                      // pages written but not yet added to `used`
    resolved: seq<Resolution>,                // delivered and evicted, in order
    dropped: seq<Tagged>,                     // given up at shutdown
    adds: seq<Entry<TraceId>>)                // every AddInterest

  datatype State = State(
    file: seq<byte>, used: int, wakeup: bool, pageFreed: bool, closed: bool,
    queue: seq<Tagged>,
    clock: int, index: Index<TraceId>, senders: nat, timers: multiset<int>,
    w: Writer, s: Sweeper, h: History)

  predicate Init(c: Config, s: State)
  {
    && |s.file| == MaxBytes(c) && s.used == 0
    && !s.wakeup && !s.pageFreed && !s.closed
    && s.queue == [] && s.index == map[] && s.senders == 0 && s.timers == multiset{}
    && s.w == Writer(Idle, false, Zeros(c.p), 0, 0, [])
    && s.s == Sweeper(Top, 0, false, 0, [])
    && s.h == History([], 0, [], 0, [], [], [], [])
  }

  // A record the writer and the sweeper can handle: its header can be stored, its trace ID is
  // neither the end-of-page mark nor the tombstone (BufferWedge shows what happens otherwise).
  predicate Acceptable(r: Record)
  {
    Representable(r) && r.tid != ZERO_ID && r.tid != TOMBSTONE
  }

  predicate IsLarge(c: Config, r: Record)
  {
    Size(r) > c.p
  }

  function ChunksOf(c: Config, r: Record): nat
    requires Valid(c)
  {
    NumChunks(c.p, Size(r))
  }

  // The size guard of Write: a record that needs several pages must fit in the file.
  predicate Fits(c: Config, r: Record)
    requires Valid(c)
  {
    IsLarge(c, r) ==> ChunksOf(c, r) * c.p <= MaxBytes(c)
  }

  // Go's slice write and ReadAt/WriteAt, total: out of range has no effect (and never happens).
  function Put(buf: seq<byte>, off: nat, src: seq<byte>): seq<byte>
  {
    if off + |src| <= |buf| then Overwrite(buf, off, src) else buf
  }

  function ReadAt(file: seq<byte>, off: nat, n: nat): (page: seq<byte>)
    ensures |page| == n
  {
    if off + n <= |file| then file[off..off + n] else Zeros(n)
  }

  function ClearTail(stage: Page, n: nat): Page
  {
    if n <= |stage| then stage[..n] + Zeros(|stage| - n) else stage
  }

  function Moved(c: Config, head: nat, n: nat): nat
    requires Valid(c)
  {
    TimesMonotone(1, c.m, c.p);
    (head + n * c.p) % MaxBytes(c)
  }

  // ---- Callers and environment ----

  // Write: returns nil exactly when the guard holds; ErrFull changes nothing.
  predicate WriteAccepted(c: Config, s: State, r: Record)
    requires Valid(c)
  {
    Fits(c, r) && |s.queue| < c.m
  }

  function Write(c: Config, s: State, r: Record): State
    requires Valid(c)
  {
    if WriteAccepted(c, s, r) then
      var t := Tagged(|s.h.accepted|, r);
      s.(queue := s.queue + [t], h := s.h.(accepted := s.h.accepted + [t]))
    else s
  }

  // AddInterest under its lock: prune as of t1, insert or renew as of t2.
  function AddInterest(c: Config, s: State, tid: TraceId, t1: int, t2: int): State
  {
    s.(index := Prune(s.index, t1, c.wait)[tid := t2], clock := t2, senders := s.senders + 1,
       h := s.h.(adds := s.h.adds + [Entry(tid, t2)]))
  }

  // ---- Writer ----

  function BeginFlush(s: State, cont: Cont): State
  {
    s.(w := s.w.(pc := FlushCheck(cont), stage := ClearTail(s.w.stage, s.w.stageN)))
  }

  function StageRecord(s: State, req: Tagged): State
  {
    s.(w := s.w.(pc := Idle, stage := Put(s.w.stage, s.w.stageN, EncodeRecord(req.rec)),
                 stageN := s.w.stageN + Size(req.rec), staged := s.w.staged + [req]))
  }

  // A large record on an empty stage. The size guard repeats the one of Write.
  function BeginLarge(c: Config, s: State, req: Tagged): State
    requires Valid(c)
  {
    if ChunksOf(c, req.rec) * c.p > MaxBytes(c)
    then s.(w := s.w.(pc := Idle), h := s.h.(dropped := s.h.dropped + [req]))
    else s.(w := s.w.(pc := LargeCheck(req)))
  }

  function Handle(c: Config, s: State, req: Tagged): State
    requires Valid(c)
  {
    if !IsLarge(c, req.rec) then
      if s.w.stageN + Size(req.rec) > c.p then BeginFlush(s, ThenStage(req)) else StageRecord(s, req)
    else if s.w.stageN > 0 then BeginFlush(s, ThenLarge(req))
    else BeginLarge(c, s, req)
  }

  function Receive(c: Config, s: State): State
    requires Valid(c) && s.queue != []
  {
    Handle(c, s.(queue := s.queue[1..], h := s.h.(taken := s.h.taken + 1)), s.queue[0])
  }

  function Ticker(s: State): State
  {
    if s.w.stageN > 0 then BeginFlush(s, Loop) else s
  }

  function Drained(s: State): State
  {
    if s.w.stageN > 0 then BeginFlush(s, ThenExit) else s.(w := s.w.(pc := WriterExit))
  }

  // Load `used` and decide whether the pages fit.
  function CheckRoom(c: Config, s: State): State
    requires Valid(c) && (s.w.pc.FlushCheck? || s.w.pc.LargeCheck?)
  {
    match s.w.pc
    case FlushCheck(cont) =>
      s.(w := s.w.(pc := if s.used + c.p > MaxBytes(c) then FlushPark(cont) else FlushWrite(cont)))
    case LargeCheck(req) =>
      var n := ChunksOf(c, req.rec);
      s.(w := s.w.(pc := if s.used + n * c.p > MaxBytes(c) then LargePark(req) else LargeWrite(req, 0)))
  }

  function TakePageFreed(s: State): State
    requires s.w.pc.FlushPark? || s.w.pc.LargePark?
  {
    s.(pageFreed := false,
       w := s.w.(pc := if s.w.pc.FlushPark? then FlushCheck(s.w.pc.cont) else LargeCheck(s.w.pc.big)))
  }

  function RequestOf(cont: Cont): seq<Tagged>
  {
    if cont.ThenStage? || cont.ThenLarge? then [cont.req] else []
  }

  // closeCh is closed and there is no room: the stage and the request at hand are dropped.
  function GiveUp(s: State): State
    requires s.w.pc.FlushPark? || s.w.pc.LargePark?
  {
    match s.w.pc
    case FlushPark(cont) =>
      s.(w := s.w.(pc := if cont.ThenExit? then WriterExit else Idle, stageN := 0, staged := []),
         h := s.h.(dropped := s.h.dropped + s.w.staged + RequestOf(cont)))
    case LargePark(req) =>
      s.(w := s.w.(pc := Idle), h := s.h.(dropped := s.h.dropped + [req]))
  }

  function WritePage(c: Config, s: State): State
    requires Valid(c) && (s.w.pc.FlushWrite? || s.w.pc.LargeWrite?)
  {
    match s.w.pc
    case FlushWrite(cont) =>
      s.(file := Put(s.file, s.w.head, s.w.stage),
         w := s.w.(pc := FlushAdd(cont), head := Moved(c, s.w.head, 1)),
         h := s.h.(inflight := s.h.inflight + [s.w.stage]))
    case LargeWrite(req, i) =>
      var page := if i < ChunksOf(c, req.rec) then Chunk(c.p, req.rec, i) else s.w.stage;
      s.(file := Put(s.file, s.w.head, page),
         w := s.w.(pc := if i + 1 < ChunksOf(c, req.rec) then LargeWrite(req, i + 1) else LargeAdd(req),
                   stage := page, head := Moved(c, s.w.head, 1)),
         h := s.h.(inflight := s.h.inflight + [page]))
  }

  // Commit: the pages in flight become part of the ring in one atomic add.
  function AddUsed(c: Config, s: State): State
    requires Valid(c) && (s.w.pc.FlushAdd? || s.w.pc.LargeAdd?)
  {
    match s.w.pc
    case FlushAdd(cont) =>
      var hi := if RequestOf(cont) == [] then s.h.taken else RequestOf(cont)[0].id;
      s.(used := s.used + c.p,
         w := s.w.(pc := FlushWake(cont), stageN := 0, staged := []),
         h := s.h.(groups := s.h.groups + [Group(s.w.staged, hi)], inflight := []))
    case LargeAdd(req) =>
      s.(used := s.used + ChunksOf(c, req.rec) * c.p,
         w := s.w.(pc := LargeWake),
         h := s.h.(groups := s.h.groups + [Group([req], s.h.taken)], inflight := []))
  }

  function WakeSweeper(c: Config, s: State): State
    requires Valid(c) && (s.w.pc.FlushWake? || s.w.pc.LargeWake?)
  {
    var s' := s.(wakeup := true);
    match s.w.pc
    case LargeWake => s'.(w := s.w.(pc := Idle))
    case FlushWake(cont) =>
      match cont
      case Loop => s'.(w := s.w.(pc := Idle))
      case ThenExit => s'.(w := s.w.(pc := WriterExit))
      case ThenStage(req) => StageRecord(s', req)
      case ThenLarge(req) => BeginLarge(c, s', req)
  }

  // ---- Sweeper ----

  function LoadUsed(s: State): State
  {
    s.(s := s.s.(pc := if s.used != 0 then Reading else if s.s.closing then Exited else ParkEmpty))
  }

  function TakeWakeup(s: State): State
  {
    s.(wakeup := false, s := s.s.(pc := Top))
  }

  function SeeWriterDone(s: State): State
  {
    s.(s := s.s.(pc := Top, closing := true))
  }

  function ReadHead(c: Config, s: State): State
  {
    s.(s := s.s.(pc := Snapping(ReadAt(s.file, s.s.head, c.p)),
                 cur := if s.h.groups == [] then [] else s.h.groups[0].recs))
  }

  function Snapshot(s: State): State
    requires s.s.pc.Snapping?
  {
    s.(s := s.s.(pc := Scanning(Start(s.s.pc.page), s.used, 0)))
  }

  function AfterLoop(sc: Scan, used: int): SweeperPc
  {
    if sc.dirty then Writing(sc, used) else Deciding(sc, used)
  }

  function KindAt(c: Config, sc: Scan, used: int): Kind
    requires Valid(c)
  {
    if |sc.page| == c.p then Classify(c.p, sc.page, sc.pos, used) else Stop
  }

  // One turn of the loop up to the interest lookup.
  function LookAt(c: Config, s: State): State
    requires Valid(c) && s.s.pc.Scanning?
  {
    var sc, used, k := s.s.pc.sc, s.s.pc.used, s.s.pc.k;
    match KindAt(c, sc, used)
    case Stop => s.(s := s.s.(pc := AfterLoop(sc, used)))
    case Finished(size) => s.(s := s.s.(pc := Scanning(sc.(pos := sc.pos + size), used, k + 1)))
    case LargeFinished(n) => s.(s := s.s.(pc := AfterLoop(sc.(chunks := n), used)))
    case LargeEarly => s.(s := s.s.(pc := AfterLoop(sc.(fully := false), used)))
    case _ =>
      var yes := HasForSpan(s.index, TidAt(sc.page, sc.pos), TimeAt(sc.page, sc.pos), c.wait);
      s.(s := s.s.(pc := Judging(sc, used, k, Seen(yes, s.h.adds, s.clock))))
  }

  predicate Pressure(c: Config, used: int, closing: bool)
  {
    used > MaxBytes(c) * 3 / 4 || closing
  }

  function Settled(cur: seq<Tagged>, k: nat): seq<Tagged>
  {
    if k < |cur| then cur[k := cur[k].(rec := cur[k].rec.(tid := TOMBSTONE))] else cur
  }

  function Log(s: State, k: nat, outs: seq<Outcome>, look: Seen, used: int): seq<Resolution>
  {
    if outs == [] || k >= |s.s.cur| then s.h.resolved
    else s.h.resolved + [Resolution(s.s.cur[k], outs[0], look, used, s.s.closing)]
  }

  // The rest of the turn: read the clock, then deliver, evict or keep.
  function JudgeIt(c: Config, s: State): State
    requires Valid(c) && s.s.pc.Judging?
  {
    var sc, used, k, look := s.s.pc.sc, s.s.pc.used, s.s.pc.k, s.s.pc.look;
    match KindAt(c, sc, used)
    case Small(size) =>
      var age := s.clock - TimeAt(sc.page, sc.pos);
      var v := Judge(c.wait, Pressure(c, used, s.s.closing), Look(look.interesting, age));
      var outs := OutcomeOf(v, TidAt(sc.page, sc.pos), PayloadAt(sc.page, sc.pos, size - HDR), age);
      s.(s := s.s.(pc := Scanning(Settle(sc, size, v, Look(look.interesting, age), c.wait), used, k + 1),
                   cur := if v.Keep? then s.s.cur else Settled(s.s.cur, k)),
         h := s.h.(resolved := Log(s, k, outs, look, used)))
    case Large(n) =>
      var age := s.clock - TimeAt(sc.page, sc.pos);
      var v := Judge(c.wait, Pressure(c, used, s.s.closing), Look(look.interesting, age));
      if v.Keep? then
        s.(s := s.s.(pc := AfterLoop(sc.(fully := false, minRem := Smaller(sc.minRem, c.wait - age)), used)))
      else
        s.(s := s.s.(pc := Gathering(sc, used, v, age, look, n, 1, sc.page[HDR..])))
    case _ => s
  }

  // Read the next continuation page, or, when all are read, hand the record over.
  function GatherMore(c: Config, s: State): State
    requires Valid(c) && s.s.pc.Gathering?
  {
    var sc, used, v, age, look := s.s.pc.sc, s.s.pc.used, s.s.pc.v, s.s.pc.age, s.s.pc.look;
    var n, i, payload := s.s.pc.n, s.s.pc.i, s.s.pc.payload;
    if |sc.page| != c.p then s
    else if i < n then
      var page := ReadAt(s.file, Moved(c, s.s.head, i), c.p);
      var more := GatherStep(c.p, page, LenAt(sc.page, 0), |payload|);
      s.(s := s.s.(pc := Gathering(sc, used, v, age, look, n, i + 1, payload + more)))
    else
      var outs := OutcomeOf(v, TidAt(sc.page, 0), payload, age);
      var sc' := sc.(page := Put(sc.page, 0, TOMBSTONE), dirty := true, chunks := n);
      s.(s := s.s.(pc := AfterLoop(sc', used), cur := Settled(s.s.cur, 0)),
         h := s.h.(resolved := Log(s, 0, outs, look, used)))
  }

  function WriteBack(s: State): State
    requires s.s.pc.Writing?
  {
    s.(file := Put(s.file, s.s.head, s.s.pc.sc.page),
       s := s.s.(pc := Deciding(s.s.pc.sc, s.s.pc.used)),
       h := s.h.(groups := if s.h.groups == [] then [] else s.h.groups[0 := s.h.groups[0].(recs := s.s.cur)]))
  }

  // Release the group, or arm a timer and park.
  function Decide(s: State): State
    requires s.s.pc.Deciding?
  {
    var sc := s.s.pc.sc;
    if sc.fully then s.(s := s.s.(pc := Releasing(sc.chunks)))
    else
      var d := s.clock + sc.minRem;
      s.(timers := if sc.minRem > 0 then s.timers + multiset{d} else s.timers, s := s.s.(pc := ParkPage(d)))
  }

  function Release(c: Config, s: State): State
    requires Valid(c) && s.s.pc.Releasing?
  {
    var n := s.s.pc.chunks;
    s.(used := s.used - n * c.p,
       s := s.s.(pc := Signalling, head := Moved(c, s.s.head, n), at := (s.s.at + n) % c.m),
       h := if s.h.groups == [] then s.h else s.h.(groups := s.h.groups[1..], base := s.h.groups[0].hi))
  }

  function SignalWriter(s: State): State
  {
    s.(pageFreed := true, s := s.s.(pc := Top))
  }

  // ---- All steps ----

  datatype Step =
    | SWrite(r: Record) | SAddInterest(tid: TraceId, t1: int, t2: int) | SSendWakeup | STick(t: int)
    | SFire(deadline: int) | SClose
    | WReceive | WTicker | WSeeClose | WDrained | WCheck | WPageFreed | WGiveUp | WWrite | WAdd | WWake | WFinish
    | RLoad | RWakeup | RWriterDone | RRead | RSnap | RLook | RJudge | RGather | RWriteBack | RDecide | RRelease | RSignal

  predicate Enabled(c: Config, s: State, step: Step)
    requires Valid(c)
  {
    match step
    case SWrite(r) => !s.closed && Acceptable(r) && r.at <= s.clock
    case SAddInterest(tid, t1, t2) => s.clock <= t1 <= t2
    case SSendWakeup => s.senders > 0
    case STick(t) => s.clock <= t
    case SFire(d) => d in s.timers && d <= s.clock
    case SClose => !s.closed
    case WReceive => s.w.pc.Idle? && s.queue != []
    case WTicker => s.w.pc.Idle? && !s.w.draining
    case WSeeClose => s.w.pc.Idle? && !s.w.draining && s.closed
    case WDrained => s.w.pc.Idle? && s.w.draining && s.queue == []
    case WCheck => s.w.pc.FlushCheck? || s.w.pc.LargeCheck?
    case WPageFreed => (s.w.pc.FlushPark? || s.w.pc.LargePark?) && s.pageFreed
    case WGiveUp => (s.w.pc.FlushPark? || s.w.pc.LargePark?) && s.closed
    case WWrite => s.w.pc.FlushWrite? || s.w.pc.LargeWrite?
    case WAdd => s.w.pc.FlushAdd? || s.w.pc.LargeAdd?
    case WWake => s.w.pc.FlushWake? || s.w.pc.LargeWake?
    case WFinish => s.w.pc.WriterExit?
    case RLoad => s.s.pc.Top?
    case RWakeup => (s.s.pc.ParkEmpty? || s.s.pc.ParkPage?) && s.wakeup
    case RWriterDone => (s.s.pc.ParkEmpty? || s.s.pc.ParkPage?) && s.w.pc.WriterDone?
    case RRead => s.s.pc.Reading?
    case RSnap => s.s.pc.Snapping?
    case RLook => s.s.pc.Scanning?
    case RJudge => s.s.pc.Judging?
    case RGather => s.s.pc.Gathering?
    case RWriteBack => s.s.pc.Writing?
    case RDecide => s.s.pc.Deciding?
    case RRelease => s.s.pc.Releasing?
    case RSignal => s.s.pc.Signalling?
  }

  function Apply(c: Config, s: State, step: Step): State
    requires Valid(c) && Enabled(c, s, step)
  {
    match step
    case SWrite(r) => Write(c, s, r)
    case SAddInterest(tid, t1, t2) => AddInterest(c, s, tid, t1, t2)
    case SSendWakeup => s.(wakeup := true, senders := s.senders - 1)
    case STick(t) => s.(clock := t)
    case SFire(d) => s.(wakeup := true, timers := s.timers - multiset{d})
    case SClose => s.(closed := true)
    case WReceive => Receive(c, s)
    case WTicker => Ticker(s)
    case WSeeClose => s.(w := s.w.(draining := true))
    case WDrained => Drained(s)
    case WCheck => CheckRoom(c, s)
    case WPageFreed => TakePageFreed(s)
    case WGiveUp => GiveUp(s)
    case WWrite => WritePage(c, s)
    case WAdd => AddUsed(c, s)
    case WWake => WakeSweeper(c, s)
    case WFinish => s.(w := s.w.(pc := WriterDone))
    case RLoad => LoadUsed(s)
    case RWakeup => TakeWakeup(s)
    case RWriterDone => SeeWriterDone(s)
    case RRead => ReadHead(c, s)
    case RSnap => Snapshot(s)
    case RLook => LookAt(c, s)
    case RJudge => JudgeIt(c, s)
    case RGather => GatherMore(c, s)
    case RWriteBack => WriteBack(s)
    case RDecide => Decide(s)
    case RRelease => Release(c, s)
    case RSignal => SignalWriter(s)
  }

  // A run is a start state and the steps taken from it.
  ghost predicate IsRun(c: Config, run: seq<State>, steps: seq<Step>)
    requires Valid(c)
  {
    && |run| == |steps| + 1
    && forall i :: 0 <= i < |steps| ==> Enabled(c, run[i], steps[i]) && run[i + 1] == Apply(c, run[i], steps[i])
  }

  ghost predicate Reachable(c: Config, s: State)
    requires Valid(c)
  {
    exists run, steps :: IsRun(c, run, steps) && Init(c, run[0]) && run[|steps|] == s
  }
}
