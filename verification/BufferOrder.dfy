// First in, first out by page group: ids grow along the ring, the stage and the channel.
module BufferOrder {
  import opened Records
  import opened PageCodec
  import opened SweepPage
  import opened BufferMachine
  import opened BufferWriter
  import opened BufferSweeper
  import opened BufferInvariant
  import opened BufferAccounts

  predicate InRange(ts: seq<Tagged>, lo: nat, hi: nat)
  {
    forall i :: 0 <= i < |ts| ==> lo <= ts[i].id < hi
  }

  // Each group's ids lie between the bound of the group before it and its own bound.
  predicate GroupsFrom(groups: seq<Group>, lo: nat)
  {
    groups == [] || (lo <= groups[0].hi && InRange(groups[0].recs, lo, groups[0].hi) && GroupsFrom(groups[1..], groups[0].hi))
  }

  function LastHi(groups: seq<Group>, lo: nat): nat
  {
    if groups == [] then lo else LastHi(groups[1..], groups[0].hi)
  }

  lemma {:induction false} LastHiBound(groups: seq<Group>, lo: nat)
    requires GroupsFrom(groups, lo)
    ensures lo <= LastHi(groups, lo)
  {
    if groups != [] {
      LastHiBound(groups[1..], groups[0].hi);
    }
  }

  lemma {:induction false} GroupsAppend(groups: seq<Group>, lo: nat, g: Group)
    requires GroupsFrom(groups, lo) && LastHi(groups, lo) <= g.hi && InRange(g.recs, LastHi(groups, lo), g.hi)
    ensures GroupsFrom(groups + [g], lo) && LastHi(groups + [g], lo) == g.hi
  {
    if groups == [] {
      assert groups + [g] == [g];
      assert GroupsFrom([g][1..], g.hi);
      assert LastHi([g], lo) == LastHi([g][1..], g.hi);
    } else {
      GroupsAppend(groups[1..], groups[0].hi, g);
      assert (groups + [g])[1..] == groups[1..] + [g];
    }
  }

  // A bound above every id released or in the head group.
  function Front(groups: seq<Group>, base: nat): nat
  {
    if groups == [] then base else groups[0].hi
  }

  predicate LaterLive(groups: seq<Group>)
  {
    forall i :: 1 <= i < |groups| ==> forall j :: 0 <= j < |groups[i].recs| ==> Live(groups[i].recs[j].rec)
  }

  predicate ResolvedBelow(resolved: seq<Resolution>, bound: nat)
  {
    forall i :: 0 <= i < |resolved| ==> resolved[i].rec.id < bound
  }

  predicate Line(groups: seq<Group>, base: nat, staged: seq<Tagged>, hand: seq<Tagged>, taken: nat)
  {
    && GroupsFrom(groups, base)
    && LastHi(groups, base) <= taken
    && |hand| <= 1
    && (hand != [] ==> hand[0].id + 1 == taken && LastHi(groups, base) <= hand[0].id)
    && InRange(staged, LastHi(groups, base), if hand != [] then hand[0].id else taken)
  }

  predicate Channel(accepted: seq<Tagged>, taken: nat, queue: seq<Tagged>)
  {
    && taken <= |accepted| && queue == accepted[taken..]
    && forall i :: 0 <= i < |accepted| ==> accepted[i].id == i
  }

  predicate Order(s: State)
  {
    && Line(s.h.groups, s.h.base, s.w.staged, AtHand(s.w.pc), s.h.taken)
    && Channel(s.h.accepted, s.h.taken, s.queue)
    && ResolvedBelow(s.h.resolved, Front(s.h.groups, s.h.base))
    && LaterLive(s.h.groups)
  }

  lemma OrderInit(c: Config, s: State)
    requires Valid(c) && Init(c, s)
    ensures Order(s)
  {
  }

  lemma WriteOrder(c: Config, s: State, r: Record)
    requires Valid(c) && Order(s)
    ensures Order(Write(c, s, r))
  {
    hide Line, ResolvedBelow, LaterLive;
    if WriteAccepted(c, s, r) {
      var t := Tagged(|s.h.accepted|, r);
      assert (s.h.accepted + [t])[s.h.taken..] == s.h.accepted[s.h.taken..] + [t];
    }
  }

  lemma ReceiveOrder(c: Config, s: State)
    requires Valid(c) && Order(s) && s.w.pc.Idle? && s.queue != []
    ensures Order(Receive(c, s))
  {
    hide Handle, ResolvedBelow, LaterLive, GroupsFrom, LastHi;
    var q := s.queue[0];
    var s1 := s.(queue := s.queue[1..], h := s.h.(taken := s.h.taken + 1));
    HandlePlaces(c, s1, q);
    assert q == s.h.accepted[s.h.taken];
    assert s.h.accepted[s.h.taken + 1..] == s.h.accepted[s.h.taken..][1..];
    PlacedOrder(s1, Receive(c, s), q);
  }

  lemma PlacedOrder(s: State, s': State, req: Tagged)
    requires Placed(s, s', req)
    requires Line(s.h.groups, s.h.base, s.w.staged, [req], s.h.taken)
    requires Channel(s.h.accepted, s.h.taken, s.queue)
    requires ResolvedBelow(s.h.resolved, Front(s.h.groups, s.h.base)) && LaterLive(s.h.groups)
    ensures Order(s')
  {
    hide ResolvedBelow, LaterLive, GroupsFrom, LastHi, Channel, AtHand;
  }

  lemma CommitStagedLine(groups: seq<Group>, base: nat, staged: seq<Tagged>, hand: seq<Tagged>, taken: nat)
    requires Line(groups, base, staged, hand, taken)
    ensures var g := Group(staged, if hand == [] then taken else hand[0].id);
            LastHi(groups, base) <= g.hi && Line(groups + [g], base, [], hand, taken)
  {
    hide GroupsFrom, LastHi;
    GroupsAppend(groups, base, Group(staged, if hand == [] then taken else hand[0].id));
  }

  lemma CommitBigLine(groups: seq<Group>, base: nat, big: Tagged, taken: nat)
    requires Line(groups, base, [], [big], taken)
    ensures Line(groups + [Group([big], taken)], base, [], [], taken)
  {
    hide GroupsFrom, LastHi;
    GroupsAppend(groups, base, Group([big], taken));
  }

  lemma AddOrder(c: Config, s: State)
    requires Valid(c) && Core(c, s) && Order(s) && (s.w.pc.FlushAdd? || s.w.pc.LargeAdd?)
    ensures Order(AddUsed(c, s))
  {
    hide Core, LaterLive, ResolvedBelow, Channel, GroupsFrom, LastHi, NumChunks, Line;
    CoreParts(c, s);
    var s' := AddUsed(c, s);
    var g := s'.h.groups[|s.h.groups|];
    CommittedLive(c, s, g.recs);
    LaterLiveAppend(s.h.groups, g);
    LineBounds(s);
    if s.w.pc.FlushAdd? {
      CommitStagedLine(s.h.groups, s.h.base, s.w.staged, AtHand(s.w.pc), s.h.taken);
    } else {
      BigStaged(c, s);
      CommitBigLine(s.h.groups, s.h.base, s.w.pc.big, s.h.taken);
    }
    ResolvedAppend(s.h.resolved, s.h.groups, s.h.base, g);
  }

  lemma LineBounds(s: State)
    requires Order(s)
    ensures s.h.base <= LastHi(s.h.groups, s.h.base) <= s.h.taken
  {
    hide ResolvedBelow, LaterLive, Channel, GroupsFrom, LastHi;
    LastHiBound(s.h.groups, s.h.base);
  }

  lemma BigStaged(c: Config, s: State)
    requires Valid(c) && WriterOk(c, s.w, s.used, s.h.inflight)
    ensures s.w.pc.LargeAdd? ==> s.w.staged == []
    ensures s.w.pc.FlushWake? ==> s.w.staged == []
  {
    hide StageOk, Good, EncodePage;
  }

  lemma LaterLiveAppend(groups: seq<Group>, g: Group)
    requires LaterLive(groups) && forall i :: 0 <= i < |g.recs| ==> Live(g.recs[i].rec)
    ensures LaterLive(groups + [g])
  {
  }

  lemma ResolvedAppend(resolved: seq<Resolution>, groups: seq<Group>, base: nat, g: Group)
    requires ResolvedBelow(resolved, Front(groups, base)) && base <= LastHi(groups, base) <= g.hi
    ensures ResolvedBelow(resolved, Front(groups + [g], base))
  {
  }

  lemma WakeOrder(c: Config, s: State)
    requires Valid(c) && Order(s) && (s.w.pc.FlushWake? || s.w.pc.LargeWake?)
    ensures Order(WakeSweeper(c, s))
  {
    hide ResolvedBelow, LaterLive, GroupsFrom, LastHi, Channel, StageRecord, BeginLarge;
    var s1 := s.(wakeup := true);
    if s.w.pc.FlushWake? && RequestOf(s.w.pc.cont) != [] {
      var req := s.w.pc.cont.req;
      StageAccounts(s1, req);
      LargeAccounts(c, s1, req);
      PlacedOrder(s1, WakeSweeper(c, s), req);
    }
  }

  // The rest of the writer's steps keep the line; giving up empties part of it.
  lemma WriterPlainOrder(c: Config, s: State, step: Step)
    requires Valid(c) && Order(s) && Enabled(c, s, step)
    requires step.WTicker? || step.WSeeClose? || step.WDrained? || step.WCheck? || step.WPageFreed? || step.WWrite? || step.WFinish?
    ensures Order(Apply(c, s, step))
  {
    hide Put, Chunk, NumChunks, Moved, ClearTail, ResolvedBelow, LaterLive, Line, Channel;
  }

  lemma GiveUpOrder(c: Config, s: State)
    requires Valid(c) && Order(s) && (s.w.pc.FlushPark? || s.w.pc.LargePark?)
    requires s.w.pc.LargePark? ==> s.w.staged == []
    ensures Order(GiveUp(s))
  {
    hide ResolvedBelow, LaterLive, GroupsFrom, LastHi, Channel;
  }

  lemma EnvironmentOrder(c: Config, s: State, step: Step)
    requires Valid(c) && Order(s) && Enabled(c, s, step)
    requires step.SAddInterest? || step.SSendWakeup? || step.STick? || step.SFire? || step.SClose?
    ensures Order(Apply(c, s, step))
  {
    hide Line, ResolvedBelow, LaterLive, Channel, AtHand;
  }

  lemma ScanOrder(c: Config, s: State, step: Step)
    requires Valid(c) && Core(c, s) && Order(s) && Enabled(c, s, step)
    requires step.RLook? || step.RJudge? || step.RGather? || step.RLoad? || step.RRead? || step.RSnap? || step.RDecide?
    ensures Order(Apply(c, s, step))
  {
    hide Core, Line, LaterLive, Channel, Apply, Settles, SettlesNone, AtHand, ResolvedBelow;
    var s' := Apply(c, s, step);
    SweeperFrame(c, s, step);
    if step.RJudge? || step.RGather? {
      var k := if step.RJudge? then s.s.pc.k else 0;
      ScanEffect(c, s, step, k);
      MidHasHead(c, s);
      if Settles(c, s, s', k) {
        SettledBelow(c, s, s', k);
      } else {
        NoneResolved(s, s');
      }
    } else {
      QuietResolved(c, s, step);
    }
  }

  lemma ScanEffect(c: Config, s: State, step: Step, k: nat)
    requires Valid(c) && Core(c, s) && Enabled(c, s, step) && (step.RJudge? || step.RGather?)
    requires k == if step.RJudge? then s.s.pc.k else 0
    ensures Settles(c, s, Apply(c, s, step), k) || SettlesNone(s, Apply(c, s, step))
    ensures MidScan(s.s.pc)
  {
    hide Core, Settles, SettlesNone, JudgeIt, GatherMore;
    CoreParts(c, s);
    if step.RJudge? {
      JudgeAny(c, s);
    } else {
      GatherOk(c, s);
    }
  }

  lemma SettledBelow(c: Config, s: State, s': State, k: nat)
    requires Settles(c, s, s', k) && s.h.groups != [] && Shape(s.h.groups[0].recs, s.s.cur)
    requires Line(s.h.groups, s.h.base, s.w.staged, AtHand(s.w.pc), s.h.taken)
    requires ResolvedBelow(s.h.resolved, Front(s.h.groups, s.h.base))
    ensures ResolvedBelow(s'.h.resolved, Front(s.h.groups, s.h.base))
  {
    hide OutcomeOk, AtHand, LastHi, Settled;
    assert s.s.cur[k].id == s.h.groups[0].recs[k].id < s.h.groups[0].hi;
  }

  lemma NoneResolved(s: State, s': State)
    requires SettlesNone(s, s')
    ensures s'.h.resolved == s.h.resolved
  {
  }

  lemma QuietResolved(c: Config, s: State, step: Step)
    requires Valid(c) && Enabled(c, s, step)
    requires step.RLook? || step.RLoad? || step.RRead? || step.RSnap? || step.RDecide?
    ensures Apply(c, s, step).h.resolved == s.h.resolved
  {
    hide TidAt, TimeAt, ReadAt;
  }

  lemma WriteBackOrder(c: Config, s: State)
    requires Valid(c) && Core(c, s) && Order(s) && s.s.pc.Writing?
    ensures Order(WriteBack(s))
  {
    hide Core, Put, AtHand, ResolvedBelow, Channel;
    MidHasHead(c, s);
    var groups, groups' := s.h.groups, WriteBack(s).h.groups;
    assert groups'[1..] == groups[1..];
  }

  lemma ReleaseOrder(c: Config, s: State)
    requires Valid(c) && Core(c, s) && Order(s) && s.s.pc.Releasing?
    ensures Order(Release(c, s))
  {
    hide Core, Moved, AtHand, Channel;
    CoreParts(c, s);
    assert GroupsFrom(s.h.groups[1..], s.h.groups[0].hi);
  }

  lemma ParkOrder(c: Config, s: State, step: Step)
    requires Valid(c) && Order(s) && Enabled(c, s, step)
    requires step.RWakeup? || step.RWriterDone? || step.RSignal?
    ensures Order(Apply(c, s, step))
  {
    hide Line, ResolvedBelow, LaterLive, Channel, AtHand;
  }

  lemma OrderKept(c: Config, s: State, step: Step)
    requires Valid(c) && Core(c, s) && Order(s) && Enabled(c, s, step)
    ensures Order(Apply(c, s, step))
  {
    hide Core, Order;
    match step
    case SWrite(r) => WriteOrder(c, s, r);
    case SAddInterest(_, _, _) => EnvironmentOrder(c, s, step);
    case SSendWakeup => EnvironmentOrder(c, s, step);
    case STick(_) => EnvironmentOrder(c, s, step);
    case SFire(_) => EnvironmentOrder(c, s, step);
    case SClose => EnvironmentOrder(c, s, step);
    case WReceive => ReceiveOrder(c, s);
    case WAdd => AddOrder(c, s);
    case WWake => WakeOrder(c, s);
    case WGiveUp =>
      LargeParkEmpty(c, s);
      GiveUpOrder(c, s);
    case RWakeup => ParkOrder(c, s, step);
    case RWriterDone => ParkOrder(c, s, step);
    case RSignal => ParkOrder(c, s, step);
    case RWriteBack => WriteBackOrder(c, s);
    case RRelease => ReleaseOrder(c, s);
    case RLook => ScanOrder(c, s, step);
    case RJudge => ScanOrder(c, s, step);
    case RGather => ScanOrder(c, s, step);
    case RLoad => ScanOrder(c, s, step);
    case RRead => ScanOrder(c, s, step);
    case RSnap => ScanOrder(c, s, step);
    case RDecide => ScanOrder(c, s, step);
    case _ => WriterPlainOrder(c, s, step);
  }
}
