// Nobody waits for nothing, and Close leads to the end: what BufferTheorems says about single
// wake-ups and BufferShutdown about the two drains, put together.
module BufferProgress {
  import opened Records
  import opened PageCodec
  import opened SweepPage
  import opened BufferMachine
  import opened BufferRing
  import opened BufferWriter
  import opened BufferSweeper
  import opened BufferInvariant
  import opened BufferAccounts
  import opened BufferOrder
  import opened BufferEvidence
  import opened BufferWakeups
  import opened BufferTheorems
  import opened BufferShutdown

  // ---- Before Close ----

  predicate WriterParked(s: State)
  {
    s.w.pc.FlushPark? || s.w.pc.LargePark?
  }

  predicate SweeperParked(s: State)
  {
    s.s.pc.ParkEmpty? || s.s.pc.ParkPage?
  }

  // The two never wait for each other: when both are parked, one of them can go on at once, or
  // the sweeper's timer is armed.
  lemma ParkedPairGoesOn(c: Config, s: State)
    requires Valid(c) && Reachable(c, s) && WriterParked(s) && SweeperParked(s)
    ensures s.s.pc.ParkEmpty? ==> s.pageFreed || s.wakeup
    ensures s.s.pc.ParkPage? ==> s.wakeup || s.s.pc.deadline in s.timers
  {
    hide Core, Balance, Order, Evidence, NumChunks, FromThePast, Watched, DueBy;
    ReachableInv(c, s);
    WriterFacts(c, s);
    ParkedFits(c, s);
  }

  // Whatever the writer waits for fits in an empty ring.
  lemma ParkedFits(c: Config, s: State)
    requires Valid(c) && Core(c, s) && WriterParked(s)
    ensures s.used == 0 ==> HasRoom(c, s)
  {
    hide RingOk, SweeperOk, StageOk, EncodePage, Acceptable, NumChunks;
    TimesMonotone(1, c.m, c.p);
  }

  predicate CanStep(c: Config, s: State, step: Step)
    requires Valid(c)
  {
    ((WriterStep(step) && !IdleTick(s, step)) || SweeperStep(step)) && Enabled(c, s, step)
  }

  // Quiet means that nothing is pending: if neither process has a step to take, no signal is on
  // its way and no timer of the sweeper is armed, then every accepted record has its outcome.
  lemma QuietMeansDone(c: Config, s: State)
    requires Valid(c) && Reachable(c, s)
    ensures || (exists step :: CanStep(c, s, step))
            || s.senders > 0
            || (s.s.pc.ParkPage? && s.s.pc.deadline in s.timers)
            || (s.used == 0 && Pending(s) == multiset{})
  {
    hide Balance, Order, Evidence, Core, Wakes, CanStep, Pending;
    ReachableInv(c, s);
    WriterBlocked(c, s);
    SweeperBlocked(c, s);
    WriterFacts(c, s);
    if exists step :: CanStep(c, s, step) {
    } else if s.s.pc.Exited? {
      ExitedMeansDone(c, s);
      EmptyMeansDone(c, s);
    } else if s.s.pc.ParkPage? {
      ParkedTimer(c, s);
    } else if WriterParked(s) {
      ParkedPairGoesOn(c, s);
    } else {
      if s.used > 0 {
        SweeperNotForgotten(c, s);
      }
      EmptyMeansDone(c, s);
    }
  }

  lemma ParkedTimer(c: Config, s: State)
    requires Valid(c) && Wakes(c, s) && s.s.pc.ParkPage?
    ensures s.wakeup || s.s.pc.deadline in s.timers
  {
    hide WriterWatch, Watched, DueBy, FromThePast;
  }

  // When the writer has no step to take.
  lemma WriterBlocked(c: Config, s: State)
    requires Valid(c)
    ensures (exists step :: CanStep(c, s, step))
         || (WriterParked(s) && !s.pageFreed && !s.closed)
         || (s.w.pc.Idle? && s.queue == [] && s.w.staged == [] && !s.closed)
         || s.w.pc.WriterDone?
  {
    var step :=
      match s.w.pc
      case Idle =>
        if s.queue != [] then WReceive
        else if s.w.draining then WDrained
        else if s.w.staged != [] then WTicker
        else WSeeClose
      case FlushCheck(_) => WCheck
      case LargeCheck(_) => WCheck
      case FlushPark(_) => if s.pageFreed then WPageFreed else WGiveUp
      case LargePark(_) => if s.pageFreed then WPageFreed else WGiveUp
      case FlushWrite(_) => WWrite
      case LargeWrite(_, _) => WWrite
      case FlushAdd(_) => WAdd
      case LargeAdd(_) => WAdd
      case FlushWake(_) => WWake
      case LargeWake => WWake
      case _ => WFinish;
    assert CanStep(c, s, step) <==> WriterStep(step) && !IdleTick(s, step) && Enabled(c, s, step);
  }

  // When the sweeper has no step to take.
  lemma SweeperBlocked(c: Config, s: State)
    requires Valid(c)
    ensures (exists step :: CanStep(c, s, step))
         || s.s.pc.Exited?
         || (SweeperParked(s) && !s.wakeup && !s.w.pc.WriterDone?)
  {
    if SweeperParked(s) {
      assert CanStep(c, s, RWakeup) <==> s.wakeup;
      assert CanStep(c, s, RWriterDone) <==> s.w.pc.WriterDone?;
    } else if !s.s.pc.Exited? {
      SomeSweeperStep(c, s);
      var step :| SweeperStep(step) && Enabled(c, s, step);
      assert CanStep(c, s, step);
    }
  }

  lemma EmptyMeansDone(c: Config, s: State)
    requires Valid(c) && Inv(c, s) && (s.s.pc.Exited? || (s.s.pc.ParkEmpty? && s.used == 0))
    requires (s.w.pc.Idle? && s.queue == [] && s.w.staged == []) || s.w.pc.WriterDone?
    ensures s.used == 0 && Pending(s) == multiset{}
  {
    hide Balance, Order, Evidence, Wakes, Core;
    CoreParts(c, s);
    RingEmpty(c, s);
    if s.s.pc.Exited? {
      ExitedMeansDone(c, s);
      ExitedIsEmpty(c, s);
    }
    if s.w.pc.WriterDone? {
      DoneIsEmpty(c, s);
    }
    assert LiveInGroups([]) == multiset{};
  }

  lemma RingEmpty(c: Config, s: State)
    requires Valid(c) && Core(c, s)
    ensures s.used == 0 <==> s.h.groups == []
  {
    hide Core;
    CoreParts(c, s);
    hide SweeperOk, GroupPages, RingOk, WriterOk, GroupOk;
    RingRoom(c, s.file, s.used, s.s.at, s.s.head, s.w.head, s.h.groups, s.h.inflight, 0);
    if s.h.groups != [] {
      FlatHead(c, s.h.groups);
      GroupPageCount(c, s.h.groups[0].recs);
    }
  }

  lemma ExitedIsEmpty(c: Config, s: State)
    requires Valid(c) && SweeperOk(c, s.s, s.h.groups) && s.s.pc.Exited?
    ensures s.h.groups == []
  {
    hide GroupsOk;
  }

  // ---- The sweeper's turns, before and after Close ----

  lemma {:induction false} RingFuelAppend(c: Config, groups: seq<Group>, g: Group)
    requires Valid(c)
    ensures RingFuel(c, groups + [g]) == RingFuel(c, groups) + GroupFuel(c, g)
    ensures RingFuel(c, groups) >= 0
  {
    hide GroupFuel;
    if groups == [] {
      assert [g][1..] == [];
      assert RingFuel(c, []) == 0;
      assert groups + [g] == [g];
    } else {
      RingFuelAppend(c, groups[1..], g);
      assert (groups + [g])[1..] == groups[1..] + [g];
    }
  }

  predicate Unparks(step: Step)
  {
    step.RWakeup? || step.RWriterDone?
  }

  // Every step of the sweeper burns fuel except the one out of a park, which sets it to the fuel
  // of the ring; only a commit adds fuel, no more than its group is worth.
  lemma FuelAccounts(c: Config, s: State, step: Step)
    requires Valid(c) && Inv(c, s) && Enabled(c, s, step)
    ensures Unparks(step) ==>
              SweeperFuel(c, s) == 0 && SweeperFuel(c, Apply(c, s, step)) == RingFuel(c, Apply(c, s, step).h.groups) + 1
    ensures SweeperStep(step) && !Unparks(step) ==> SweeperFuel(c, Apply(c, s, step)) < SweeperFuel(c, s)
    ensures step.WAdd? ==> SweeperFuel(c, Apply(c, s, step)) <= SweeperFuel(c, s) + NewFuel(c, s, step)
    ensures !SweeperStep(step) && !step.WAdd? ==> SweeperFuel(c, Apply(c, s, step)) == SweeperFuel(c, s)
  {
    assert Core(c, s) by { hide Core, Balance, Order, Evidence, Wakes; }
    hide Inv, Core, SweeperFuel, Apply, Enabled, NewFuel;
    if step.RLook? || step.RJudge? || step.RGather? {
      ScanBurns(c, s, step);
    } else if step.RWriteBack? || step.RDecide? || step.RRelease? || step.RLoad? {
      HeadBurns(c, s, step);
    } else if step.RRead? || step.RSnap? || step.RSignal? {
      QuietBurns(c, s, step);
    } else if Unparks(step) {
      UnparkFuel(c, s, step);
    } else if step.WAdd? {
      AddFuel(c, s);
    } else {
      StillFuel(c, s, step);
    }
  }

  function NewFuel(c: Config, s: State, step: Step): nat
    requires Valid(c) && Enabled(c, s, step)
  {
    var groups := Apply(c, s, step).h.groups;
    if step.WAdd? && groups != [] then GroupFuel(c, groups[|groups| - 1]) else 0
  }

  lemma UnparkFuel(c: Config, s: State, step: Step)
    requires Valid(c) && Enabled(c, s, step) && Unparks(step)
    ensures SweeperFuel(c, s) == 0 && SweeperFuel(c, Apply(c, s, step)) == RingFuel(c, s.h.groups) + 1
    ensures Apply(c, s, step).h.groups == s.h.groups
  {
    hide RingFuel, GroupPages;
  }

  lemma AddFuel(c: Config, s: State)
    requires Valid(c) && Core(c, s) && Enabled(c, s, WAdd)
    ensures SweeperFuel(c, AddUsed(c, s)) <= SweeperFuel(c, s) + NewFuel(c, s, WAdd)
  {
    hide Core, AddUsed, GroupFuel, SweeperFuel, LiveIn, AtHand;
    CoreParts(c, s);
    AddEffects(c, s);
    FuelGrows(c, s, AddUsed(c, s), AddUsed(c, s).h.groups[|s.h.groups|]);
  }

  lemma FuelGrows(c: Config, s: State, s': State, g: Group)
    requires Valid(c) && s'.s == s.s && s'.h.groups == s.h.groups + [g]
    ensures SweeperFuel(c, s') <= SweeperFuel(c, s) + GroupFuel(c, g)
  {
    hide RingFuel, GroupFuel, GroupPages;
    RingFuelAppend(c, s.h.groups, g);
    RingFuelNone(c);
    if s.h.groups != [] {
      assert s'.h.groups[1..] == s.h.groups[1..] + [g];
      RingFuelAppend(c, s.h.groups[1..], g);
    } else {
      assert s'.h.groups[1..] == [];
    }
  }

  lemma RingFuelNone(c: Config)
    requires Valid(c)
    ensures RingFuel(c, []) == 0
  {
  }

  lemma StillFuel(c: Config, s: State, step: Step)
    requires Valid(c) && Enabled(c, s, step) && !SweeperStep(step) && !step.WAdd?
    ensures Apply(c, s, step).s == s.s && Apply(c, s, step).h.groups == s.h.groups
    ensures SweeperFuel(c, Apply(c, s, step)) == SweeperFuel(c, s)
  {
    hide SweeperFuel, Receive, WakeSweeper;
    if step.WReceive? {
      ReceiveStill(c, s);
    } else if step.WWake? {
      WakeFrame(c, s);
    } else {
      OthersStill(c, s, step);
    }
    SameFuel(c, s, Apply(c, s, step));
  }

  lemma ReceiveStill(c: Config, s: State)
    requires Valid(c) && s.w.pc.Idle? && s.queue != []
    ensures Receive(c, s).s == s.s && Receive(c, s).h.groups == s.h.groups
  {
    hide Handle;
    HandleFrame(c, s.(queue := s.queue[1..], h := s.h.(taken := s.h.taken + 1)), s.queue[0]);
  }

  lemma OthersStill(c: Config, s: State, step: Step)
    requires Valid(c) && Enabled(c, s, step) && !SweeperStep(step) && !step.WAdd? && !step.WReceive? && !step.WWake?
    ensures Apply(c, s, step).s == s.s && Apply(c, s, step).h.groups == s.h.groups
  {
    hide Put, Chunk, NumChunks, Moved, ClearTail, RequestOf;
  }

  lemma SameFuel(c: Config, s: State, s': State)
    requires Valid(c) && s'.s == s.s && s'.h.groups == s.h.groups
    ensures SweeperFuel(c, s') == SweeperFuel(c, s)
  {
    hide RingFuel, GroupPages;
  }

  // Fuel of the groups committed by the first n steps of a run.
  ghost function Added(c: Config, run: seq<State>, steps: seq<Step>, n: nat): nat
    requires Valid(c) && IsRun(c, run, steps) && n <= |steps|
  {
    if n == 0 then 0 else Added(c, run, steps, n - 1) + NewFuel(c, run[n - 1], steps[n - 1])
  }

  // On any run, from park to park: the sweeper takes no more steps than it had fuel for at the
  // start plus what the groups committed meanwhile are worth. So it comes to a park, or exits,
  // unless the writer goes on committing.
  lemma {:induction false} SweeperComesToPark(c: Config, run: seq<State>, steps: seq<Step>, n: nat)
    requires Valid(c) && IsRun(c, run, steps) && Inv(c, run[0]) && n <= |steps|
    requires forall i :: 0 <= i < n ==> !Unparks(steps[i])
    ensures SweeperSteps(steps, n) + SweeperFuel(c, run[n]) <= SweeperFuel(c, run[0]) + Added(c, run, steps, n)
    ensures SweeperSteps(steps, n) <= SweeperFuel(c, run[0]) + Added(c, run, steps, n)
  {
    hide Enabled, Apply, SweeperFuel, Core, Balance, Order, Evidence, Wakes, NewFuel;
    InvAlongRun(c, run, steps, n);
    SweeperFuelNonNegative(c, run[n]);
    if n > 0 {
      SweeperComesToPark(c, run, steps, n - 1);
      InvAlongRun(c, run, steps, n - 1);
      FuelAccounts(c, run[n - 1], steps[n - 1]);
    }
  }

  // ---- From Close to the end ----

  // A closing sweeper does not park on an empty ring: it exits.
  predicate ClosingMoves(s: State)
  {
    s.s.closing ==> !s.s.pc.ParkEmpty?
  }

  lemma ClosingMovesKept(c: Config, s: State, step: Step)
    requires Valid(c) && Enabled(c, s, step) && ClosingMoves(s)
    ensures ClosingMoves(Apply(c, s, step))
  {
    hide Apply, LookAt, JudgeIt, GatherMore;
    if step.RLook? || step.RJudge? || step.RGather? {
      ScanPc(c, s, step);
      SweeperFrame(c, s, step);
    } else if !SweeperStep(step) && !step.WAdd? {
      StillFuel(c, s, step);
    } else {
      QuietMoves(c, s, step);
    }
  }

  lemma QuietMoves(c: Config, s: State, step: Step)
    requires Valid(c) && Enabled(c, s, step) && ClosingMoves(s) && (SweeperStep(step) || step.WAdd?)
    requires !step.RLook? && !step.RJudge? && !step.RGather?
    ensures ClosingMoves(Apply(c, s, step))
  {
    hide Put, ReadAt, Moved, Start, NumChunks, RequestOf;
  }

  lemma {:induction false} ClosingMovesAlong(c: Config, run: seq<State>, steps: seq<Step>, k: nat)
    requires Valid(c) && IsRun(c, run, steps) && ClosingMoves(run[0]) && k < |run|
    ensures ClosingMoves(run[k])
  {
    hide Enabled, Apply;
    if k > 0 {
      ClosingMovesAlong(c, run, steps, k - 1);
      ClosingMovesKept(c, run[k - 1], steps[k - 1]);
    }
  }

  lemma ReachableMoves(c: Config, s: State)
    requires Valid(c) && Reachable(c, s)
    ensures ClosingMoves(s)
  {
    hide Enabled, Apply;
    var run, steps :| IsRun(c, run, steps) && Init(c, run[0]) && run[|steps|] == s;
    ClosingMovesAlong(c, run, steps, |steps|);
  }

  // Nothing adds to the ring once the writer is done.
  lemma RingShrinks(c: Config, s: State, step: Step)
    requires Valid(c) && Inv(c, s) && Enabled(c, s, step) && s.w.pc.WriterDone?
    ensures Apply(c, s, step).w.pc.WriterDone? && !step.WAdd?
    ensures RingFuel(c, Apply(c, s, step).h.groups) <= RingFuel(c, s.h.groups)
  {
    assert Core(c, s) by { hide Core, Balance, Order, Evidence, Wakes; }
    hide Inv, Core, RingFuel, LookAt, JudgeIt, GatherMore, WriteBack, Release;
    if step.RWriteBack? {
      CoreParts(c, s);
      WriteBackOk(c, s);
      ResizedHead(c, s);
      WriteBackWriter(s);
    } else if step.RRelease? {
      CoreParts(c, s);
      ReleaseGroups(c, s);
      RingFuelHead(c, s.h.groups);
    } else if step.RLook? || step.RJudge? || step.RGather? {
      SweeperFrame(c, s, step);
    } else {
      DoneStill(c, s, step);
    }
  }

  lemma DoneStill(c: Config, s: State, step: Step)
    requires Valid(c) && Enabled(c, s, step) && s.w.pc.WriterDone?
    requires !step.RLook? && !step.RJudge? && !step.RGather? && !step.RWriteBack? && !step.RRelease?
    ensures Apply(c, s, step).w == s.w && Apply(c, s, step).h.groups == s.h.groups && !step.WAdd?
  {
    hide ReadAt, Start, NumChunks;
  }

  lemma WriteBackWriter(s: State)
    requires s.s.pc.Writing?
    ensures WriteBack(s).w == s.w
  {
    hide Put;
  }

  lemma ReleaseGroups(c: Config, s: State)
    requires Valid(c) && SweeperOk(c, s.s, s.h.groups) && s.s.pc.Releasing?
    ensures s.h.groups != [] && Release(c, s).h.groups == s.h.groups[1..] && Release(c, s).w == s.w
  {
    hide Moved, GroupsOk, GroupPages;
  }

  lemma ResizedHead(c: Config, s: State)
    requires Valid(c) && SweeperOk(c, s.s, s.h.groups) && s.s.pc.Writing?
    ensures s.h.groups != []
    ensures var groups' := s.h.groups[0 := s.h.groups[0].(recs := s.s.cur)];
            RingFuel(c, groups') == RingFuel(c, s.h.groups)
  {
    hide GroupPages, GroupsOk, GroupOk, RingFuel, Pressure;
    var groups' := s.h.groups[0 := s.h.groups[0].(recs := s.s.cur)];
    assert groups'[1..] == s.h.groups[1..];
    RingFuelHead(c, s.h.groups);
    RingFuelHead(c, groups');
  }

  // What the sweeper can still do once the writer is done: at most one more park to come out of.
  function ClosingFuel(c: Config, s: State): int
    requires Valid(c)
  {
    SweeperFuel(c, s) + (if s.s.closing then 0 else RingFuel(c, s.h.groups) + 2)
  }

  lemma ClosingFuelNonNegative(c: Config, s: State)
    requires Valid(c) && Inv(c, s)
    ensures ClosingFuel(c, s) >= 0
  {
    hide Core, Balance, Order, Evidence, Wakes, SweeperFuel, RingFuel;
    SweeperFuelNonNegative(c, s);
  }

  lemma ClosingFuelBurns(c: Config, s: State, step: Step)
    requires Valid(c) && Inv(c, s) && ClosingMoves(s) && Enabled(c, s, step) && s.w.pc.WriterDone?
    ensures SweeperStep(step) && !step.RWakeup? ==> ClosingFuel(c, Apply(c, s, step)) < ClosingFuel(c, s)
    ensures !SweeperStep(step) ==> ClosingFuel(c, Apply(c, s, step)) <= ClosingFuel(c, s)
    ensures step.RWakeup? ==> ClosingFuel(c, Apply(c, s, step)) <= ClosingFuel(c, s) + RingFuel(c, s.h.groups) + 1
  {
    FuelAccounts(c, s, step);
    RingShrinks(c, s, step);
    ClosingStays(c, s, step);
    if s.s.closing {
      ClosingNeverParks(c, s);
      ClosingDone(c, s, step);
    }
    hide Inv, SweeperFuel, RingFuel, Apply, Enabled;
  }

  lemma ClosingDone(c: Config, s: State, step: Step)
    requires Valid(c) && Enabled(c, s, step) && s.s.closing && ClosingMoves(s) && !s.s.pc.ParkPage?
    ensures !Unparks(step)
  {
  }

  lemma ClosingStays(c: Config, s: State, step: Step)
    requires Valid(c) && Enabled(c, s, step)
    ensures Apply(c, s, step).s.closing == (s.s.closing || step.RWriterDone?)
  {
    hide Apply, LookAt, JudgeIt, GatherMore;
    if step.RLook? || step.RJudge? || step.RGather? {
      SweeperFrame(c, s, step);
    } else if !SweeperStep(step) && !step.WAdd? {
      StillFuel(c, s, step);
    } else {
      QuietClosing(c, s, step);
    }
  }

  lemma QuietClosing(c: Config, s: State, step: Step)
    requires Valid(c) && Enabled(c, s, step) && (SweeperStep(step) || step.WAdd?)
    requires !step.RLook? && !step.RJudge? && !step.RGather?
    ensures Apply(c, s, step).s.closing == (s.s.closing || step.RWriterDone?)
  {
    hide Put, ReadAt, Moved, Start, NumChunks, RequestOf;
  }

  ghost function Wakeups(steps: seq<Step>, n: nat): nat
    requires n <= |steps|
  {
    if n == 0 then 0 else Wakeups(steps, n - 1) + (if steps[n - 1].RWakeup? then 1 else 0)
  }

  // On every run from a reachable state whose writer is done, the sweeper takes boundedly many
  // steps for each wakeup token that its select prefers to the writer's end, and without such
  // tokens boundedly many in all.
  lemma {:induction false} SweeperFinishes(c: Config, run: seq<State>, steps: seq<Step>, n: nat)
    requires Valid(c) && IsRun(c, run, steps) && Inv(c, run[0]) && ClosingMoves(run[0])
    requires run[0].w.pc.WriterDone? && n <= |steps|
    ensures run[n].w.pc.WriterDone? && RingFuel(c, run[n].h.groups) <= RingFuel(c, run[0].h.groups)
    ensures SweeperSteps(steps, n) + ClosingFuel(c, run[n])
         <= ClosingFuel(c, run[0]) + Wakeups(steps, n) * (RingFuel(c, run[0].h.groups) + 2)
    ensures ClosingFuel(c, run[n]) >= 0
  {
    hide Enabled, Apply, ClosingFuel, RingFuel, Inv;
    InvAlongRun(c, run, steps, n);
    ClosingFuelNonNegative(c, run[n]);
    if n > 0 {
      var s, step, ring := run[n - 1], steps[n - 1], RingFuel(c, run[0].h.groups) + 2;
      SweeperFinishes(c, run, steps, n - 1);
      InvAlongRun(c, run, steps, n - 1);
      ClosingMovesAlong(c, run, steps, n - 1);
      RingShrinks(c, s, step);
      ClosingFuelBurns(c, s, step);
      assert (Wakeups(steps, n - 1) + 1) * ring == Wakeups(steps, n - 1) * ring + ring;
    }
  }

  // Close leads to the end. In every reachable closed state somebody has a step to take until the
  // sweeper has exited; and a parked sweeper can see that the writer is done. With WriterStops and
  // SweeperFinishes the end is a bounded number of steps away, and ExitLeavesNothing says what it is.
  lemma CloseLeadsToExit(c: Config, s: State)
    requires Valid(c) && Reachable(c, s) && s.closed
    ensures !s.s.pc.Exited? ==> exists step :: CanStep(c, s, step)
    ensures s.w.pc.WriterDone? && SweeperParked(s) ==> Enabled(c, s, RWriterDone)
    ensures s.w.pc.WriterDone? && !s.s.pc.Exited? ==> exists step :: SweeperStep(step) && !step.RWakeup? && Enabled(c, s, step)
  {
    hide Reachable, CanStep;
    WriterBlocked(c, s);
    SweeperBlocked(c, s);
    if s.w.pc.WriterDone? && !s.s.pc.Exited? {
      if SweeperParked(s) {
        assert SweeperStep(RWriterDone) && Enabled(c, s, RWriterDone);
      } else {
        SomeSweeperStep(c, s);
        var step :| SweeperStep(step) && Enabled(c, s, step);
        assert !step.RWakeup?;
      }
    }
  }
}
