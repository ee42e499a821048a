// Conservation and order: where every accepted record is, once, and in which order they settle.
module BufferAccounts {
  import opened Records
  import opened PageCodec
  import opened SweepPage
  import opened BufferMachine
  import opened BufferRing
  import opened BufferWriter
  import opened BufferSweeper
  import opened BufferInvariant

  // ---- Live records ----

  function LiveUpTo(ts: seq<Tagged>, k: nat): multiset<Tagged>
    requires k <= |ts|
  {
    if k == 0 then multiset{}
    else LiveUpTo(ts, k - 1) + (if Live(ts[k - 1].rec) then multiset{ts[k - 1]} else multiset{})
  }

  function LiveIn(ts: seq<Tagged>): multiset<Tagged>
  {
    LiveUpTo(ts, |ts|)
  }

  lemma {:induction false} LiveUpToSettled(ts: seq<Tagged>, k: nat, n: nat)
    requires k < |ts| && n <= |ts| && Live(ts[k].rec)
    ensures LiveUpTo(ts, n) == LiveUpTo(Settled(ts, k), n) + (if k < n then multiset{ts[k]} else multiset{})
  {
    if n > 0 {
      LiveUpToSettled(ts, k, n - 1);
    }
  }

  lemma {:induction false} LiveUpToAll(ts: seq<Tagged>, n: nat)
    requires n <= |ts| && forall i :: 0 <= i < |ts| ==> Live(ts[i].rec)
    ensures LiveUpTo(ts, n) == multiset(ts[..n])
  {
    if n > 0 {
      LiveUpToAll(ts, n - 1);
      assert ts[..n] == ts[..n - 1] + [ts[n - 1]];
    }
  }

  lemma {:induction false} LiveUpToNone(ts: seq<Tagged>, n: nat)
    requires n <= |ts| && AllDead(ts, |ts|)
    ensures LiveUpTo(ts, n) == multiset{}
  {
    if n > 0 {
      LiveUpToNone(ts, n - 1);
    }
  }

  function LiveInGroups(groups: seq<Group>): multiset<Tagged>
  {
    if groups == [] then multiset{} else LiveIn(groups[0].recs) + LiveInGroups(groups[1..])
  }

  lemma {:induction false} LiveAppend(groups: seq<Group>, g: Group)
    ensures LiveInGroups(groups + [g]) == LiveInGroups(groups) + LiveIn(g.recs)
  {
    hide LiveIn;
    if groups == [] {
      assert groups + [g] == [g];
      assert LiveInGroups([g]) == LiveIn(g.recs) + LiveInGroups([g][1..]);
    } else {
      LiveAppend(groups[1..], g);
      assert (groups + [g])[1..] == groups[1..] + [g];
    }
  }

  lemma LiveHead(groups: seq<Group>, cur: seq<Tagged>)
    requires groups != []
    ensures LiveInGroups(groups[0 := groups[0].(recs := cur)]) == LiveIn(cur) + LiveInGroups(groups[1..])
  {
    hide LiveIn;
    assert groups[0 := groups[0].(recs := cur)][1..] == groups[1..];
  }

  // ---- Where the records are ----

  predicate MidScan(pc: SweeperPc)
  {
    pc.Scanning? || pc.Judging? || pc.Gathering? || pc.Writing?
  }

  // The committed groups, the head one as the sweeper has settled it so far.
  function View(pc: SweeperPc, cur: seq<Tagged>, groups: seq<Group>): seq<Group>
  {
    if MidScan(pc) && groups != [] then groups[0 := groups[0].(recs := cur)] else groups
  }

  // The request the writer has taken from the channel and not yet placed.
  function AtHand(pc: WriterPc): seq<Tagged>
  {
    match pc
    case FlushCheck(cont) => RequestOf(cont)
    case FlushPark(cont) => RequestOf(cont)
    case FlushWrite(cont) => RequestOf(cont)
    case FlushAdd(cont) => RequestOf(cont)
    case FlushWake(cont) => RequestOf(cont)
    case LargeCheck(big) => [big]
    case LargePark(big) => [big]
    case LargeWrite(big, _) => [big]
    case LargeAdd(big) => [big]
    case _ => []
  }

  function Tags(log: seq<Resolution>): (ts: seq<Tagged>)
    ensures |ts| == |log|
    ensures forall i :: 0 <= i < |log| ==> ts[i] == log[i].rec
  {
    seq(|log|, i requires 0 <= i < |log| => log[i].rec)
  }

  // accepted = delivered + evicted + dropped + in the ring + staged + at hand + in the channel.
  predicate Balanced(accepted: seq<Tagged>, resolved: seq<Resolution>, dropped: seq<Tagged>,
                     view: seq<Group>, staged: seq<Tagged>, hand: seq<Tagged>, queue: seq<Tagged>)
  {
    multiset(accepted)
    == multiset(Tags(resolved)) + multiset(dropped) + LiveInGroups(view)
     + multiset(staged) + multiset(hand) + multiset(queue)
  }

  predicate Balance(s: State)
  {
    Balanced(s.h.accepted, s.h.resolved, s.h.dropped, View(s.s.pc, s.s.cur, s.h.groups),
             s.w.staged, AtHand(s.w.pc), s.queue)
  }

  lemma BalanceInit(c: Config, s: State)
    requires Valid(c) && Init(c, s)
    ensures Balance(s)
  {
    assert Tags([]) == [];
  }

  lemma WriteBalance(c: Config, s: State, r: Record)
    requires Valid(c) && Balance(s)
    ensures Balance(Write(c, s, r))
  {
    hide LiveInGroups, Tags;
  }

  lemma DropBalance(accepted: seq<Tagged>, resolved: seq<Resolution>, dropped: seq<Tagged>, view: seq<Group>,
                    staged: seq<Tagged>, hand: seq<Tagged>, queue: seq<Tagged>)
    requires Balanced(accepted, resolved, dropped, view, staged, hand, queue)
    ensures Balanced(accepted, resolved, dropped + staged + hand, view, [], [], queue)
  {
    hide LiveInGroups, Tags;
  }

  lemma GiveUpBalance(s: State)
    requires Balance(s) && (s.w.pc.FlushPark? || s.w.pc.LargePark?)
    requires s.w.pc.LargePark? ==> s.w.staged == []
    ensures Balance(GiveUp(s))
  {
    hide Balanced, View;
    DropBalance(s.h.accepted, s.h.resolved, s.h.dropped, View(s.s.pc, s.s.cur, s.h.groups), s.w.staged, AtHand(s.w.pc), s.queue);
    assert s.h.dropped + [] == s.h.dropped;
  }

  lemma LargeParkEmpty(c: Config, s: State)
    requires Valid(c) && Core(c, s)
    ensures s.w.pc.LargePark? ==> s.w.staged == []
  {
    hide RingOk, SweeperOk, StageOk, Good;
  }

  // A request at hand ends up at hand, in the stage, or (if it can never fit) dropped.
  ghost predicate Placed(s: State, s': State, req: Tagged)
  {
    && s'.s == s.s && s'.queue == s.queue && s'.h == s.h.(dropped := s'.h.dropped)
    && (|| (s'.h.dropped == s.h.dropped && s'.w.staged == s.w.staged && AtHand(s'.w.pc) == [req])
        || (s'.h.dropped == s.h.dropped && s'.w.staged == s.w.staged + [req] && AtHand(s'.w.pc) == [])
        || (s'.h.dropped == s.h.dropped + [req] && s'.w.staged == s.w.staged && AtHand(s'.w.pc) == []))
  }

  lemma HandlePlaces(c: Config, s: State, req: Tagged)
    requires Valid(c)
    ensures Placed(s, Handle(c, s, req), req)
  {
    hide BeginFlush, StageRecord, BeginLarge, NumChunks;
    FlushAccounts(s, ThenStage(req));
    FlushAccounts(s, ThenLarge(req));
    StageAccounts(s, req);
    LargeAccounts(c, s, req);
  }

  lemma PlacedBalance(s: State, s': State, req: Tagged)
    requires Placed(s, s', req)
    requires Balanced(s.h.accepted, s.h.resolved, s.h.dropped, View(s.s.pc, s.s.cur, s.h.groups), s.w.staged, [req], s.queue)
    ensures Balance(s')
  {
    hide LiveInGroups, Tags;
  }

  lemma ReceiveBalance(c: Config, s: State)
    requires Valid(c) && Balance(s) && s.w.pc.Idle? && s.queue != []
    ensures Balance(Receive(c, s))
  {
    hide LiveInGroups, Tags, Handle;
    var q := s.queue[0];
    var s1 := s.(queue := s.queue[1..], h := s.h.(taken := s.h.taken + 1));
    assert s.queue == [q] + s.queue[1..];
    HandlePlaces(c, s1, q);
    PlacedBalance(s1, Receive(c, s), q);
  }

  lemma FlushAccounts(s: State, cont: Cont)
    ensures var s' := BeginFlush(s, cont);
            && s'.h == s.h && s'.s == s.s && s'.queue == s.queue && s'.w.staged == s.w.staged && AtHand(s'.w.pc) == RequestOf(cont)
  {
  }

  lemma StageAccounts(s: State, req: Tagged)
    ensures var s' := StageRecord(s, req);
            && s'.h == s.h && s'.s == s.s && s'.queue == s.queue && s'.w.staged == s.w.staged + [req] && AtHand(s'.w.pc) == []
  {
    hide EncodeRecord, Put;
  }

  lemma LargeAccounts(c: Config, s: State, req: Tagged)
    requires Valid(c)
    ensures var s' := BeginLarge(c, s, req);
            && s'.s == s.s && s'.queue == s.queue && s'.w.staged == s.w.staged
            && (|| (s'.h == s.h && AtHand(s'.w.pc) == [req])
                || (s'.h == s.h.(dropped := s.h.dropped + [req]) && AtHand(s'.w.pc) == []))
  {
    hide NumChunks;
  }

  lemma CommitBalance(accepted: seq<Tagged>, resolved: seq<Resolution>, dropped: seq<Tagged>, view: seq<Group>,
                      staged: seq<Tagged>, hand: seq<Tagged>, queue: seq<Tagged>, g: Group, staged': seq<Tagged>, hand': seq<Tagged>)
    requires Balanced(accepted, resolved, dropped, view, staged, hand, queue)
    requires LiveIn(g.recs) == multiset(g.recs)
    requires (staged == g.recs && staged' == [] && hand' == hand) || (hand == g.recs && hand' == [] && staged' == staged)
    ensures Balanced(accepted, resolved, dropped, view + [g], staged', hand', queue)
  {
    hide LiveInGroups, Tags, LiveIn;
    LiveAppend(view, g);
  }

  lemma AllLive(ts: seq<Tagged>)
    requires forall i :: 0 <= i < |ts| ==> Live(ts[i].rec)
    ensures LiveIn(ts) == multiset(ts)
  {
    LiveUpToAll(ts, |ts|);
    assert ts[..|ts|] == ts;
  }

  lemma ViewAppend(pc: SweeperPc, cur: seq<Tagged>, groups: seq<Group>, g: Group)
    requires MidScan(pc) ==> groups != []
    ensures View(pc, cur, groups + [g]) == View(pc, cur, groups) + [g]
  {
  }

  lemma AddEffects(c: Config, s: State)
    requires Valid(c) && WriterOk(c, s.w, s.used, s.h.inflight) && (s.w.pc.FlushAdd? || s.w.pc.LargeAdd?)
    ensures var s' := AddUsed(c, s); var g := s'.h.groups[|s.h.groups|];
            && s'.h.groups == s.h.groups + [g] && s'.s == s.s && s'.queue == s.queue
            && s'.h.accepted == s.h.accepted && s'.h.resolved == s.h.resolved && s'.h.dropped == s.h.dropped
            && (|| (s.w.staged == g.recs && s'.w.staged == [] && AtHand(s'.w.pc) == AtHand(s.w.pc))
                || (AtHand(s.w.pc) == g.recs && AtHand(s'.w.pc) == [] && s'.w.staged == s.w.staged))
            && LiveIn(g.recs) == multiset(g.recs)
  {
    hide NumChunks, LiveIn, WriterOk;
    var g := AddUsed(c, s).h.groups[|s.h.groups|];
    CommittedLive(c, s, g.recs);
    AllLive(g.recs);
  }

  lemma AddBalance(c: Config, s: State)
    requires Valid(c) && Core(c, s) && Balance(s) && (s.w.pc.FlushAdd? || s.w.pc.LargeAdd?)
    ensures Balance(AddUsed(c, s))
  {
    hide Core, Balanced, LiveIn, View, AddUsed, AtHand;
    CoreParts(c, s);
    AddEffects(c, s);
    var s' := AddUsed(c, s);
    var g := s'.h.groups[|s.h.groups|];
    if MidScan(s.s.pc) {
      MidHasHead(c, s);
    }
    ViewAppend(s.s.pc, s.s.cur, s.h.groups, g);
    CommitBalance(s.h.accepted, s.h.resolved, s.h.dropped, View(s.s.pc, s.s.cur, s.h.groups),
                  s.w.staged, AtHand(s.w.pc), s.queue, g, s'.w.staged, AtHand(s'.w.pc));
  }

  lemma MidHasHead(c: Config, s: State)
    requires Valid(c) && Core(c, s) && MidScan(s.s.pc)
    ensures s.h.groups != []
    ensures Shape(s.h.groups[0].recs, s.s.cur)
  {
    hide RingOk, WriterOk, GroupsOk, GroupPages, GroupOk, Pressure, Offset;
  }

  // What the writer commits is live: accepted records never carry the tombstone ID.
  lemma CommittedLive(c: Config, s: State, g: seq<Tagged>)
    requires Valid(c) && WriterOk(c, s.w, s.used, s.h.inflight)
    requires (s.w.pc.FlushAdd? && g == s.w.staged) || (s.w.pc.LargeAdd? && g == [s.w.pc.big])
    ensures forall i :: 0 <= i < |g| ==> Live(g[i].rec)
  {
    hide EncodePage, EncodeFirst, Chunk, NumChunks;
  }

  lemma WakeBalance(c: Config, s: State)
    requires Valid(c) && Balance(s) && (s.w.pc.FlushWake? || s.w.pc.LargeWake?)
    ensures Balance(WakeSweeper(c, s))
  {
    hide LiveInGroups, Tags, StageRecord, BeginLarge, Balanced;
    var s1 := s.(wakeup := true);
    if s.w.pc.FlushWake? && RequestOf(s.w.pc.cont) != [] {
      var req := s.w.pc.cont.req;
      StageAccounts(s1, req);
      LargeAccounts(c, s1, req);
      PlacedBalance(s1, WakeSweeper(c, s), req);
    }
  }

  // One callback moves exactly one record from the ring to the log.
  lemma SettleBalance(c: Config, s: State, s': State, k: nat)
    requires Valid(c) && Core(c, s) && Balance(s) && MidScan(s.s.pc)
    requires Settles(c, s, s', k) && ScanFrame(s, s') && MidScan(s'.s.pc)
    ensures Balance(s')
  {
    hide LiveInGroups, Tags, LiveIn, RingOk, SweeperOk, WriterOk, OutcomeOk, Settled;
    MidHasHead(c, s);
    var groups := s.h.groups;
    LiveHead(groups, s.s.cur);
    LiveHead(groups, s'.s.cur);
    assert LiveIn(s.s.cur) == LiveIn(s'.s.cur) + multiset{s.s.cur[k]} by {
      LiveUpToSettled(s.s.cur, k, |s.s.cur|);
      OneSettled(s.s.cur, k);
      LiveInDef(s.s.cur);
      LiveInDef(s'.s.cur);
    }
    var x := s'.h.resolved[|s.h.resolved|];
    TagsAppend(s.h.resolved, x);
  }

  lemma LiveInDef(ts: seq<Tagged>)
    ensures LiveIn(ts) == LiveUpTo(ts, |ts|)
  {
  }

  lemma TagsAppend(log: seq<Resolution>, x: Resolution)
    ensures Tags(log + [x]) == Tags(log) + [x.rec]
  {
  }

  lemma SameView(c: Config, s: State, s': State)
    requires Balance(s) && SettlesNone(s, s') && ScanFrame(s, s')
    requires View(s'.s.pc, s'.s.cur, s'.h.groups) == View(s.s.pc, s.s.cur, s.h.groups)
    ensures Balance(s')
  {
  }

  lemma ScanBalance(c: Config, s: State, step: Step)
    requires Valid(c) && Core(c, s) && Balance(s) && Enabled(c, s, step)
    requires step.RLook? || step.RJudge? || step.RGather?
    ensures Balance(Apply(c, s, step))
  {
    hide Balance, Core, LookAt, JudgeIt, GatherMore, Settles, SettlesNone;
    var s' := Apply(c, s, step);
    SweeperFrame(c, s, step);
    CoreKept(c, s, step);
    CoreParts(c, s);
    CoreParts(c, s');
    match step
    case RLook =>
      LookAtAny(c, s);
      ScanView(c, s, step);
      SameView(c, s, s');
    case RJudge =>
      JudgeAny(c, s);
      if SettlesNone(s, s') {
        ScanView(c, s, step);
        SameView(c, s, s');
      } else {
        SettledStaysMid(c, s, step);
        SettleBalance(c, s, s', s.s.pc.k);
      }
    case RGather =>
      GatherOk(c, s);
      if SettlesNone(s, s') {
        ScanView(c, s, step);
        SameView(c, s, s');
      } else {
        SettledStaysMid(c, s, step);
        SettleBalance(c, s, s', 0);
      }
  }

  lemma CoreParts(c: Config, s: State)
    requires Valid(c) && Core(c, s)
    ensures RingOk(c, s.file, s.used, s.s.at, s.s.head, s.w.head, s.h.groups, s.h.inflight)
    ensures SweeperOk(c, s.s, s.h.groups) && WriterOk(c, s.w, s.used, s.h.inflight) && GroupsOk(c, s.h.groups)
    ensures s.s.pc.Deciding? || s.s.pc.Releasing? || s.s.pc.ParkPage? ==> s.h.groups != [] && s.s.cur == s.h.groups[0].recs
    ensures s.s.pc.Reading? ==> s.h.groups != []
    ensures s.s.pc.Snapping? ==> s.h.groups != [] && s.s.cur == s.h.groups[0].recs
    ensures s.s.pc.Writing? ==> s.s.pc.sc.dirty
  {
    hide RingOk, WriterOk, Over, Turn;
  }

  // A turn that settles nothing leaves the view as it was, also when the loop ends.
  lemma ScanView(c: Config, s: State, step: Step)
    requires Valid(c) && Core(c, s) && Enabled(c, s, step) && Core(c, Apply(c, s, step))
    requires (step.RLook? || step.RJudge? || step.RGather?) && SettlesNone(s, Apply(c, s, step))
    ensures var s' := Apply(c, s, step);
            View(s'.s.pc, s'.s.cur, s'.h.groups) == View(s.s.pc, s.s.cur, s.h.groups)
  {
    hide Core, Apply, SettlesNone;
    var s' := Apply(c, s, step);
    ScanPc(c, s, step);
    CoreParts(c, s');
    MidHasHead(c, s);
    NoneFrame(s, s');
  }

  lemma NoneFrame(s: State, s': State)
    requires SettlesNone(s, s')
    ensures s'.s.cur == s.s.cur && s'.h.groups == s.h.groups
  {
  }

  lemma ScanPc(c: Config, s: State, step: Step)
    requires Valid(c) && Enabled(c, s, step) && (step.RLook? || step.RJudge? || step.RGather?)
    ensures var pc := Apply(c, s, step).s.pc; MidScan(pc) || pc.Deciding?
  {
    hide LookAt, JudgeIt, GatherMore;
    match step
    case RLook => LookPc(c, s);
    case RJudge => JudgePc(c, s);
    case RGather => GatherPc(c, s);
  }

  lemma LookPc(c: Config, s: State)
    requires Valid(c) && s.s.pc.Scanning?
    ensures var pc := LookAt(c, s).s.pc; MidScan(pc) || pc.Deciding?
  {
    hide TidAt, TimeAt;
  }

  lemma JudgePc(c: Config, s: State)
    requires Valid(c) && s.s.pc.Judging?
    ensures var pc := JudgeIt(c, s).s.pc; MidScan(pc) || pc.Deciding?
  {
    hide Settle, Settled, Log, OutcomeOf, Judge, TidAt, TimeAt, PayloadAt, Pressure;
  }

  lemma GatherPc(c: Config, s: State)
    requires Valid(c) && s.s.pc.Gathering?
    ensures var pc := GatherMore(c, s).s.pc; MidScan(pc) || pc.Deciding?
  {
    hide Settled, Log, Put, ReadAt, GatherStep, OutcomeOf, TidAt, LenAt, Moved;
  }

  lemma SettledStaysMid(c: Config, s: State, step: Step)
    requires Valid(c) && Core(c, s) && Enabled(c, s, step) && (step.RJudge? || step.RGather?)
    requires !SettlesNone(s, Apply(c, s, step))
    ensures MidScan(Apply(c, s, step).s.pc)
  {
    hide Core, JudgeIt, GatherMore;
    if step.RJudge? {
      JudgeStays(c, s);
    } else {
      GatherStays(c, s);
    }
  }

  lemma JudgeStays(c: Config, s: State)
    requires Valid(c) && s.s.pc.Judging? && !SettlesNone(s, JudgeIt(c, s))
    ensures MidScan(JudgeIt(c, s).s.pc)
  {
    hide Settle, Settled, Log, OutcomeOf, Judge, TidAt, TimeAt, PayloadAt, Pressure;
  }

  lemma GatherStays(c: Config, s: State)
    requires Valid(c) && s.s.pc.Gathering? && !SettlesNone(s, GatherMore(c, s))
    ensures MidScan(GatherMore(c, s).s.pc)
  {
    hide Settled, Log, Put, ReadAt, GatherStep, OutcomeOf, TidAt, LenAt, Moved;
  }

  // Starting a scan and the moves between scans keep the view.
  lemma SnapBalance(c: Config, s: State)
    requires Valid(c) && Core(c, s) && Balance(s) && s.s.pc.Snapping?
    ensures Balance(Snapshot(s))
  {
    hide Core, Balanced, Start;
    CoreParts(c, s);
    assert s.h.groups[0 := s.h.groups[0].(recs := s.s.cur)] == s.h.groups;
  }

  lemma SweeperBalance(c: Config, s: State, step: Step)
    requires Valid(c) && Balance(s) && Enabled(c, s, step)
    requires step.RLoad? || step.RWakeup? || step.RWriterDone? || step.RRead? || step.RDecide? || step.RSignal?
    ensures Balance(Apply(c, s, step))
  {
    hide Balanced, ReadAt;
  }

  lemma WriteBackBalance(c: Config, s: State)
    requires Valid(c) && Core(c, s) && Balance(s) && s.s.pc.Writing?
    ensures Balance(WriteBack(s))
  {
    hide Core, Balanced, Put;
    MidHasHead(c, s);
  }

  lemma ReleaseBalance(c: Config, s: State)
    requires Valid(c) && Core(c, s) && Balance(s) && s.s.pc.Releasing?
    ensures Balance(Release(c, s))
  {
    hide Core, Tags, LiveIn, Moved, SweeperOk, RingOk;
    CoreParts(c, s);
    ReleaseOk(c, s);
    var g := s.h.groups[0].recs;
    LiveUpToNone(g, |g|);
    LiveInDef(g);
  }

  lemma BalanceKept(c: Config, s: State, step: Step)
    requires Valid(c) && Core(c, s) && Balance(s) && Enabled(c, s, step)
    ensures Balance(Apply(c, s, step))
  {
    hide Core;
    match step
    case SWrite(r) => WriteBalance(c, s, r);
    case WReceive => ReceiveBalance(c, s);
    case WGiveUp =>
      LargeParkEmpty(c, s);
      GiveUpBalance(s);
    case WAdd => AddBalance(c, s);
    case WWake => WakeBalance(c, s);
    case RLook => ScanBalance(c, s, step);
    case RJudge => ScanBalance(c, s, step);
    case RGather => ScanBalance(c, s, step);
    case RRelease => ReleaseBalance(c, s);
    case RLoad => SweeperBalance(c, s, step);
    case RWakeup => SweeperBalance(c, s, step);
    case RWriterDone => SweeperBalance(c, s, step);
    case RRead => SweeperBalance(c, s, step);
    case RSnap => SnapBalance(c, s);
    case RWriteBack => WriteBackBalance(c, s);
    case RDecide => SweeperBalance(c, s, step);
    case RSignal => SweeperBalance(c, s, step);
    case SAddInterest(_, _, _) => EnvironmentBalance(c, s, step);
    case SSendWakeup => EnvironmentBalance(c, s, step);
    case STick(_) => EnvironmentBalance(c, s, step);
    case SFire(_) => EnvironmentBalance(c, s, step);
    case SClose => EnvironmentBalance(c, s, step);
    case _ => WriterPlainBalance(c, s, step);
  }

  // Steps that move no record.
  lemma EnvironmentBalance(c: Config, s: State, step: Step)
    requires Valid(c) && Balance(s) && Enabled(c, s, step)
    requires step.SAddInterest? || step.SSendWakeup? || step.STick? || step.SFire? || step.SClose?
    ensures Balance(Apply(c, s, step))
  {
    hide Balanced, View, AtHand;
  }

  lemma WriterPlainBalance(c: Config, s: State, step: Step)
    requires Valid(c) && Balance(s) && Enabled(c, s, step)
    requires step.WTicker? || step.WSeeClose? || step.WDrained? || step.WCheck? || step.WPageFreed? || step.WWrite? || step.WFinish?
    ensures Balance(Apply(c, s, step))
  {
    hide Balanced, View, Put, Chunk, NumChunks, Moved, ClearTail;
  }

  // ---- Time ----

  // Write is called once the span is there, so no record was inserted in the future.
  predicate FromThePast(s: State)
  {
    forall i :: 0 <= i < |s.h.accepted| ==> s.h.accepted[i].rec.at <= s.clock
  }

  lemma {:induction false} LiveMember(ts: seq<Tagged>, n: nat, k: nat)
    requires k < n <= |ts| && Live(ts[k].rec)
    ensures ts[k] in LiveUpTo(ts, n)
  {
    if k < n - 1 {
      LiveMember(ts, n - 1, k);
    }
  }

  // A live record under scan is an accepted one, so it was inserted in the past.
  lemma ScannedFromThePast(c: Config, s: State, k: nat)
    requires Valid(c) && Core(c, s) && Balance(s) && FromThePast(s) && MidScan(s.s.pc) && k < |s.s.cur| && Live(s.s.cur[k].rec)
    ensures s.s.cur[k].rec.at <= s.clock
  {
    hide Core, Tags;
    MidHasHead(c, s);
    LiveMember(s.s.cur, |s.s.cur|, k);
    LiveInDef(s.s.cur);
    LiveHead(s.h.groups, s.s.cur);
    assert s.s.cur[k] in multiset(s.h.accepted);
  }
}
