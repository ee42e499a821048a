// The writer goroutine as it runs: a staging array, a write head and a file changed in place.
module WriterCode {
  import opened Bytes
  import opened Records
  import opened PageCodec
  import opened BufferMachine
  import opened BufferRing
  import opened BufferWriter
  import opened BufferShared

  // The 28 bytes of a header at position `at`.
  method PutHeader(dst: array<byte>, at: nat, r: Record)
    requires at + HDR <= dst.Length
    modifies dst
    ensures dst[..] == Overwrite(old(dst[..]), at, Header(r))
  {
    hide PutBE;
    var h := Header(r);
    var n1 := Copy(dst, at, r.tid);
    var n2 := Copy(dst, at + 16, PutBE(ToU64(r.at), 8));
    var n3 := Copy(dst, at + 24, PutBE(|r.data|, 4));
    assert h[..16] == r.tid && h[16..24] == PutBE(ToU64(r.at), 8) && h[24..] == PutBE(|r.data|, 4);
  }

  ghost function Concat(groups: seq<seq<Tagged>>): seq<Tagged>
  {
    if groups == [] then [] else Concat(groups[..|groups| - 1]) + groups[|groups| - 1]
  }

  // The pages published before a large record: the stage, if it holds anything.
  ghost function Flushed(staged: seq<Tagged>): seq<seq<Tagged>>
  {
    if staged == [] then [] else [staged]
  }

  // What the writer has done with the requests it took.
  datatype Ledger = Ledger(published: seq<seq<Tagged>>, staged: seq<Tagged>, dropped: seq<Tagged>)

  // What was taken and not dropped, in the order it goes out.
  ghost function Line(l: Ledger): seq<Tagged>
  {
    Concat(l.published) + l.staged
  }

  ghost function Sum(l: Ledger): multiset<Tagged>
  {
    multiset(Line(l)) + multiset(l.dropped)
  }

  // Everything handed to the writer goes out in the order taken, unless it is dropped.
  ghost predicate Took(l: Ledger, l': Ledger, reqs: seq<Tagged>)
  {
    && l.dropped <= l'.dropped
    && (l'.dropped == l.dropped ==> Line(l') == Line(l) + reqs)
    && Sum(l') == Sum(l) + multiset(reqs)
  }

  // The exact effect of handling one request.
  ghost predicate Handled(c: Config, l: Ledger, l': Ledger, req: Tagged)
    requires BufferMachine.Valid(c)
  {
    var whole := l.dropped + l.staged + [req];
    if IsLarge(c, req.rec) then
      || l' == Ledger(l.published + Flushed(l.staged) + [[req]], [], l.dropped)
      || l' == Ledger(l.published + Flushed(l.staged), [], l.dropped + [req])
      || l' == Ledger(l.published, [], whole)
    else if RecordsLen(Recs(l.staged)) + Size(req.rec) <= c.p then
      l' == Ledger(l.published, l.staged + [req], l.dropped)
    else
      || l' == Ledger(l.published + [l.staged], [req], l.dropped)
      || l' == Ledger(l.published, [], whole)
  }

  lemma ConcatOne(groups: seq<seq<Tagged>>, g: seq<Tagged>)
    ensures Concat(groups + [g]) == Concat(groups) + g
  {
    assert (groups + [g])[..|groups|] == groups;
  }

  lemma ConcatFlushed(groups: seq<seq<Tagged>>, staged: seq<Tagged>)
    ensures Concat(groups + Flushed(staged)) == Concat(groups) + staged
  {
    if staged == [] {
      assert groups + [] == groups;
    } else {
      ConcatOne(groups, staged);
    }
  }

  lemma KeptTook(l: Ledger, l': Ledger, req: Tagged)
    requires l'.dropped == l.dropped && Line(l') == Line(l) + [req]
    ensures Took(l, l', [req])
  {
    hide Line;
    assert multiset(Line(l) + [req]) == multiset(Line(l)) + multiset([req]);
  }

  lemma LostTook(l: Ledger, l': Ledger, part: seq<Tagged>, req: Tagged)
    requires l'.dropped == l.dropped + part + [req] && Line(l') + part == Line(l)
    ensures Took(l, l', [req])
  {
    hide Line;
    assert multiset(Line(l)) == multiset(Line(l')) + multiset(part);
    assert multiset(l'.dropped) == multiset(l.dropped) + multiset(part) + multiset([req]);
  }

  lemma HandledTook(c: Config, l: Ledger, l': Ledger, req: Tagged)
    requires BufferMachine.Valid(c) && Handled(c, l, l', req)
    ensures Took(l, l', [req])
  {
    hide Concat, Recs, RecordsLen, IsLarge, Took, Flushed;
    ConcatFlushed(l.published, l.staged);
    ConcatOne(l.published + Flushed(l.staged), [req]);
    ConcatOne(l.published, l.staged);
    if l'.dropped == l.dropped {
      assert Line(l') == Line(l) + [req];
      KeptTook(l, l', req);
    } else if l'.dropped == l.dropped + [req] && Line(l') == Line(l) {
      LostTook(l, l', [], req);
    } else {
      LostTook(l, l', l.staged, req);
    }
  }

  lemma TookNone(l: Ledger)
    ensures Took(l, l, [])
  {
    assert Line(l) + [] == Line(l);
  }

  lemma TookThen(l: Ledger, l1: Ledger, l2: Ledger, reqs: seq<Tagged>, more: seq<Tagged>)
    requires Took(l, l1, reqs) && Took(l1, l2, more)
    ensures Took(l, l2, reqs + more)
  {
    hide Line, Sum;
    assert multiset(reqs + more) == multiset(reqs) + multiset(more);
  }

  lemma TookAll(l: Ledger, reqs: seq<Tagged>)
    requires Took(Ledger([], [], []), l, reqs) && l.staged == []
    ensures multiset(Concat(l.published)) + multiset(l.dropped) == multiset(reqs)
    ensures l.dropped == [] ==> Concat(l.published) == reqs
  {
    assert Line(Ledger([], [], [])) == [];
    assert Line(l) == Concat(l.published);
  }

  // Staged records form one page group.
  lemma StagedGroup(c: Config, w: Writer)
    requires BufferMachine.Valid(c) && StageOk(c, w) && w.stageN > 0
    ensures w.staged != [] && GroupOk(c, w.staged)
    ensures GroupPages(c, w.staged) == [w.stage[..w.stageN] + Zeros(c.p - w.stageN)]
  {
    hide EncodeFirst;
    StageEmptyIff(c, w);
  }

  lemma HeaderThenData(before: seq<byte>, after: seq<byte>, at: nat, r: Record)
    requires at + Size(r) <= |before|
    requires after == Overwrite(Overwrite(before, at, Header(r)), at + HDR, r.data)
    ensures after == Put(before, at, EncodeRecord(r))
  {
    hide Header;
  }

  lemma StageAppends(c: Config, w: Writer, stage: seq<byte>, req: Tagged)
    requires BufferMachine.Valid(c) && StageOk(c, w) && Acceptable(req.rec) && w.stageN + Size(req.rec) <= c.p
    requires stage == Put(w.stage, w.stageN, EncodeRecord(req.rec))
    ensures StageOk(c, Writer(Idle, false, stage, w.stageN + Size(req.rec), w.head, w.staged + [req]))
  {
    hide EncodeRecord, EncodeFirst, Put, Acceptable, RecordsLen;
    RecsAppend(w.staged, req);
    PutAppends(w.stage, w.stageN, EncodeRecord(req.rec));
  }

  lemma LargeGroup(c: Config, req: Tagged)
    requires BufferMachine.Valid(c) && Acceptable(req.rec) && IsLarge(c, req.rec)
    ensures GroupOk(c, [req]) && GroupPages(c, [req]) == Chunks(c.p, req.rec)
  {
  }

  // Payload bytes of a large record that its first i pages hold.
  predicate OffsetAt(p: nat, r: Record, i: nat, off: nat)
  {
    off == Min(|r.data|, i * p - HDR)
  }

  lemma OffsetStart(p: nat, r: Record, off: nat)
    requires p > HDR && Size(r) > p && off == p - HDR
    ensures OffsetAt(p, r, 1, off)
  {
  }

  lemma OffsetNext(p: nat, r: Record, i: nat, off: nat)
    requires p > HDR && Size(r) > p && 1 <= i <= NumChunks(p, Size(r)) && OffsetAt(p, r, i, off) && off < |r.data|
    ensures i < NumChunks(p, Size(r)) && off == i * p - HDR
    ensures OffsetAt(p, r, i + 1, off + Min(|r.data| - off, p))
  {
    NumChunksBounds(p, Size(r));
    hide NumChunks;
    assert (i + 1) * p == i * p + p;
  }

  lemma OffsetEnd(p: nat, r: Record, i: nat, off: nat)
    requires p > HDR && Size(r) > p && 1 <= i <= NumChunks(p, Size(r)) && OffsetAt(p, r, i, off) && off >= |r.data|
    ensures i == NumChunks(p, Size(r))
  {
    var n := NumChunks(p, Size(r));
    NumChunksBounds(p, Size(r));
    hide NumChunks;
    if i < n {
      TimesMonotone(i, n - 1, p);
    }
  }

  // Something the main loop selects on before Close.
  datatype Event = Request(req: Tagged) | Tick

  function Requests(events: seq<Event>): seq<Tagged>
  {
    if events == [] then []
    else
      var e := events[|events| - 1];
      Requests(events[..|events| - 1]) + (if e.Request? then [e.req] else [])
  }

  lemma RequestsNone()
    ensures Requests([]) == []
  {
  }

  lemma RequestsNext(events: seq<Event>, i: nat)
    requires i < |events|
    ensures Requests(events[..i + 1]) == Requests(events[..i]) + (if events[i].Request? then [events[i].req] else [])
  {
    assert events[..i + 1][..i] == events[..i];
  }

  // What Write lets through.
  predicate Writable(c: Config, req: Tagged)
    requires BufferMachine.Valid(c)
  {
    Acceptable(req.rec) && Fits(c, req.rec)
  }

  class WriterLoop {
    const ring: SharedRing
    const stage: array<byte>
    var stageN: nat
    var wHead: nat
    ghost var ledger: Ledger

    ghost predicate Valid()
      reads this, ring, ring.file, stage
    {
      && BufferMachine.Valid(ring.c) && stage != ring.file && stageN <= stage.Length == ring.c.p
      && ring.Owned(wHead, [])
      && StageOk(ring.c, Writer(Idle, false, stage[..], stageN, wHead, ledger.staged))
    }

    constructor (ring: SharedRing)
      requires BufferMachine.Valid(ring.c) && ring.Owned(0, [])
      ensures Valid() && fresh(stage) && this.ring == ring && ledger == Ledger([], [], [])
    {
      this.ring := ring;
      stage := new byte[ring.c.p](_ => 0);
      stageN, wHead := 0, 0;
      ledger := Ledger([], [], []);
      new;
      EmptyStageOk(ring.c, Writer(Idle, false, stage[..], stageN, wHead, []));
    }

    // Wait until n pages can be claimed.
    method AwaitRoom(n: nat) returns (closed: bool)
      requires ring.Owned(wHead, [])
      modifies ring, ring.file
      ensures ring.Owned(wHead, []) && (old(ring.closeCh) ==> ring.closeCh)
      ensures !closed ==> ring.used + n * ring.c.p <= MaxBytes(ring.c)
      ensures closed ==> ring.closeCh && old(ring.used) + n * ring.c.p > MaxBytes(ring.c)
    {
      closed := false;
      while ring.used + n * ring.c.p > MaxBytes(ring.c)
        invariant ring.Owned(wHead, []) && ring.used <= old(ring.used) && (old(ring.closeCh) ==> ring.closeCh)
        decreases ring.Patience()
      {
        closed := ring.AwaitPageFreed(wHead, []);
        if closed {
          return;
        }
      }
    }

    // Either the staged records are published as one page, or, with the ring full at shutdown,
    // they are dropped.
    method Flush() returns (closed: bool)
      requires Valid() && stageN > 0
      modifies this, stage, ring, ring.file
      ensures Valid() && stageN == 0
      ensures closed ==> ledger == Ledger(old(ledger).published, [], old(ledger).dropped + old(ledger).staged)
      ensures closed ==> ring.closeCh && old(ring.used) + ring.c.p > MaxBytes(ring.c)
      ensures old(ring.closeCh) ==> ring.closeCh
      ensures !closed ==> ledger == Ledger(old(ledger).published + [old(ledger).staged], [], old(ledger).dropped)
      ensures !closed ==> ring.groups != [] && ring.groups[|ring.groups| - 1].recs == old(ledger).staged && ring.wakeup
    {
      hide RingOk, StageOk, GroupOk, GroupPages, Moved;
      ghost var staged := ledger.staged;
      StagedGroup(ring.c, Writer(Idle, false, stage[..], stageN, wHead, staged));
      Clear(stage, stageN);
      closed := AwaitRoom(1);
      if closed {
        stageN := 0;
        ledger := Ledger(ledger.published, [], ledger.dropped + staged);
      } else {
        ring.WriteAt(stage, wHead, []);
        wHead := Moved(ring.c, wHead, 1);
        assert [] + [stage[..]] == [stage[..]];
        ring.Publish(wHead, [stage[..]], 1, Group(staged, 0));
        stageN := 0;
        ledger := Ledger(ledger.published + [staged], [], ledger.dropped);
      }
      EmptyStageOk(ring.c, Writer(Idle, false, stage[..], stageN, wHead, []));
    }

    // A record that fits behind the staged ones.
    method StageRecord(req: Tagged)
      requires Valid() && Acceptable(req.rec) && stageN + Size(req.rec) <= ring.c.p
      modifies this, stage
      ensures Valid() && wHead == old(wHead)
      ensures ledger == old(ledger).(staged := old(ledger).staged + [req])
    {
      hide RingOk, Header, Put, StageOk;
      var r := req.rec;
      PutHeader(stage, stageN, r);
      var n := Copy(stage, stageN + HDR, r.data);
      HeaderThenData(old(stage[..]), stage[..], stageN, r);
      StageAppends(ring.c, Writer(Idle, false, old(stage[..]), stageN, wHead, ledger.staged), stage[..], req);
      stageN := stageN + Size(r);
      ledger := ledger.(staged := ledger.staged + [req]);
    }

    // The first page of a large record: header and as much payload as fits.
    method LoadFirst(r: Record) returns (n: nat)
      requires stage.Length == ring.c.p > HDR && Representable(r) && Size(r) > ring.c.p
      modifies stage
      ensures NumChunks(ring.c.p, Size(r)) > 1 && stage[..] == Chunk(ring.c.p, r, 0) && n == ring.c.p - HDR
    {
      hide Header, Chunk, NumChunks;
      FirstChunk(ring.c.p, r);
      PutHeader(stage, 0, r);
      n := Copy(stage, HDR, r.data);
      Clear(stage, HDR + n);
    }

    // The next page: the payload from `off` on, zeros behind it.
    method LoadNext(r: Record, off: nat, ghost i: nat) returns (n: nat)
      requires stage.Length == ring.c.p > HDR && Representable(r)
      requires 1 <= i < NumChunks(ring.c.p, Size(r)) && off == i * ring.c.p - HDR
      modifies stage
      ensures off < |r.data| && n == Min(|r.data| - off, ring.c.p) && stage[..] == Chunk(ring.c.p, r, i)
    {
      hide Chunk, NumChunks;
      LaterChunk(ring.c.p, r, i);
      n := Copy(stage, 0, r.data[off..]);
      Clear(stage, n);
    }

    // There is room for all pages of r, and the first i of them are written.
    ghost predicate Writing(r: Record, i: nat)
      reads this, ring, ring.file
    {
      && BufferMachine.Valid(ring.c) && stage != ring.file && stage.Length == ring.c.p
      && Acceptable(r) && IsLarge(ring.c, r) && i <= NumChunks(ring.c.p, Size(r))
      && ring.used + NumChunks(ring.c.p, Size(r)) * ring.c.p <= MaxBytes(ring.c)
      && ring.Owned(wHead, Chunks(ring.c.p, r)[..i])
    }

    // The staging array holds page i of r: write it and move on.
    method WriteStage(r: Record, ghost i: nat)
      requires Writing(r, i) && i < NumChunks(ring.c.p, Size(r)) && stage[..] == Chunk(ring.c.p, r, i)
      modifies this`wHead, ring.file
      ensures Writing(r, i + 1)
    {
      hide RingOk, Chunk, Moved, NumChunks, Acceptable, GroupOk, IsLarge;
      ghost var n, all := NumChunks(ring.c.p, Size(r)), Chunks(ring.c.p, r);
      ChunkFits(i, n, ring.c.p);
      ring.WriteAt(stage, wHead, all[..i]);
      wHead := Moved(ring.c, wHead, 1);
      assert all[..i] + [all[i]] == all[..i + 1];
    }

    // Writes the pages of a large record for which there is room; nothing is published yet.
    method WriteChunks(r: Record)
      requires Writing(r, 0)
      modifies this`wHead, stage, ring.file
      ensures Writing(r, NumChunks(ring.c.p, Size(r)))
    {
      var p := ring.c.p;
      assert p > HDR && stage.Length == p && stage != ring.file && Representable(r) && Size(r) > p;
      hide Chunk, NumChunks, Representable, Writing, OffsetAt;
      ghost var n := NumChunks(p, Size(r));
      var off := LoadFirst(r);
      WriteStage(r, 0);
      ghost var i := 1;
      OffsetStart(p, r, off);
      while off < |r.data|
        invariant 1 <= i <= n && OffsetAt(p, r, i, off)
        invariant Writing(r, i)
        decreases |r.data| - off
      {
        OffsetNext(p, r, i, off);
        var m := LoadNext(r, off, i);
        WriteStage(r, i);
        off, i := off + m, i + 1;
      }
      OffsetEnd(p, r, i, off);
    }

    // A large record goes out alone, all its pages published by one add, or is dropped.
    method WriteLarge(req: Tagged) returns (closed: bool)
      requires Valid() && stageN == 0 && Acceptable(req.rec) && IsLarge(ring.c, req.rec)
      modifies this, stage, ring, ring.file
      ensures Valid() && stageN == 0
      ensures closed ==> ledger == old(ledger).(dropped := old(ledger).dropped + [req])
      ensures closed && Fits(ring.c, req.rec) ==>
                ring.closeCh && old(ring.used) + ChunksOf(ring.c, req.rec) * ring.c.p > MaxBytes(ring.c)
      ensures old(ring.closeCh) ==> ring.closeCh
      ensures !closed ==> ledger == old(ledger).(published := old(ledger).published + [[req]])
      ensures !closed ==> ring.groups != [] && ring.groups[|ring.groups| - 1].recs == [req] && ring.wakeup
    {
      hide RingOk, StageOk, Chunk, GroupOk, GroupPages, NumChunks, Acceptable;
      var n := NumChunks(ring.c.p, Size(req.rec));
      if n * ring.c.p > MaxBytes(ring.c) {
        closed := true;
      } else {
        closed := AwaitRoom(n);
      }
      StageEmptyIff(ring.c, Writer(Idle, false, old(stage[..]), stageN, wHead, ledger.staged));
      if closed {
        ledger := ledger.(dropped := ledger.dropped + [req]);
      } else {
        assert Chunks(ring.c.p, req.rec)[..0] == [];
        WriteChunks(req.rec);
        assert Chunks(ring.c.p, req.rec)[..n] == Chunks(ring.c.p, req.rec);
        LargeGroup(ring.c, req);
        ring.Publish(wHead, Chunks(ring.c.p, req.rec), n, Group([req], 0));
        ledger := ledger.(published := ledger.published + [[req]]);
      }
      EmptyStageOk(ring.c, Writer(Idle, false, stage[..], stageN, wHead, []));
    }

    // Nothing that fits is dropped before Close.
    ghost predicate OnlyAtClose(l: Ledger, fits: bool)
      reads this, ring
    {
      fits && ledger.dropped != l.dropped ==> ring.closeCh
    }

    ghost predicate DropsAtClose()
      reads this, ring
    {
      ledger.dropped == [] || ring.closeCh
    }

    method Handle(req: Tagged)
      requires Valid() && Acceptable(req.rec)
      modifies this, stage, ring, ring.file
      ensures Valid()
      ensures Handled(ring.c, old(ledger), ledger, req)
      ensures OnlyAtClose(old(ledger), Fits(ring.c, req.rec)) && (old(ring.closeCh) ==> ring.closeCh)
    {
      hide RingOk, StageOk, Acceptable;
      StageFacts();
      if !IsLarge(ring.c, req.rec) {
        if stageN + Size(req.rec) > ring.c.p {
          var closed := Flush();
          if closed {
            ledger := ledger.(dropped := ledger.dropped + [req]);
            return;
          }
        }
        StageRecord(req);
        return;
      }
      if stageN > 0 {
        var closed := Flush();
        if closed {
          ledger := ledger.(dropped := ledger.dropped + [req]);
          return;
        }
      }
      StageFacts();
      var closed := WriteLarge(req);
    }

    lemma StageFacts()
      requires Valid()
      ensures stageN == RecordsLen(Recs(ledger.staged)) && (stageN == 0 <==> ledger.staged == [])
    {
      StageEmptyIff(ring.c, Writer(Idle, false, stage[..], stageN, wHead, ledger.staged));
    }

    method FlushStage()
      requires Valid()
      modifies this, stage, ring, ring.file
      ensures Valid() && ledger.staged == [] && Took(old(ledger), ledger, [])
      ensures OnlyAtClose(old(ledger), true) && (old(ring.closeCh) ==> ring.closeCh)
    {
      hide RingOk, StageOk, Concat;
      StageFacts();
      if stageN > 0 {
        var closed := Flush();
        ConcatOne(old(ledger).published, old(ledger).staged);
      }
      StageFacts();
    }

    method HandleNext(req: Tagged, ghost l0: Ledger, ghost taken: seq<Tagged>)
      requires Valid() && Writable(ring.c, req) && DropsAtClose() && Took(l0, ledger, taken)
      modifies this, stage, ring, ring.file
      ensures Valid() && DropsAtClose() && Took(l0, ledger, taken + [req])
    {
      assert BufferMachine.Valid(ring.c);
      hide Acceptable, Valid, Handled, Took, Fits;
      ghost var l := ledger;
      Handle(req);
      HandledTook(ring.c, l, ledger, req);
      TookThen(l0, l, ledger, taken, [req]);
    }

    method Loop(events: seq<Event>)
      requires Valid() && DropsAtClose()
      requires forall i :: 0 <= i < |events| && events[i].Request? ==> Writable(ring.c, events[i].req)
      modifies this, stage, ring, ring.file
      ensures Valid() && DropsAtClose() && Took(old(ledger), ledger, Requests(events))
    {
      hide *;
      RequestsNone();
      ghost var l0, done: seq<Tagged> := ledger, [];
      TookNone(l0);
      var i := 0;
      while i < |events|
        invariant i <= |events| && Valid() && DropsAtClose() && done == Requests(events[..i]) && Took(l0, ledger, done)
      {
        RequestsNext(events, i);
        if events[i].Request? {
          HandleNext(events[i].req, l0, done);
          done := done + [events[i].req];
        } else {
          FlushLast(l0, done);
        }
        i := i + 1;
      }
      assert events[..i] == events;
    }

    method Drain(queue: seq<Tagged>)
      requires Valid() && DropsAtClose()
      requires forall i :: 0 <= i < |queue| ==> Writable(ring.c, queue[i])
      modifies this, stage, ring, ring.file
      ensures Valid() && DropsAtClose() && ledger.staged == [] && Took(old(ledger), ledger, queue)
    {
      hide *;
      ghost var l0, done: seq<Tagged> := ledger, [];
      TookNone(l0);
      var i := 0;
      while i < |queue|
        invariant i <= |queue| && Valid() && DropsAtClose() && done == queue[..i] && Took(l0, ledger, done)
      {
        HandleNext(queue[i], l0, done);
        done := done + [queue[i]];
        i := i + 1;
      }
      assert done == queue;
      FlushLast(l0, done);
    }

    method FlushLast(ghost l0: Ledger, ghost taken: seq<Tagged>)
      requires Valid() && DropsAtClose() && Took(l0, ledger, taken)
      modifies this, stage, ring, ring.file
      ensures Valid() && DropsAtClose() && ledger.staged == [] && Took(l0, ledger, taken)
    {
      hide Valid, Took;
      ghost var l := ledger;
      FlushStage();
      TookThen(l0, l, ledger, taken, []);
      assert taken + [] == taken;
    }

    // The main loop, then the drain after Close: `events` is what the loop selected before it saw
    // closeCh, `queue` what was left in the channel. Everything taken is published in order or
    // dropped, nothing is dropped before Close, and nothing stays staged.
    method RunWriter(events: seq<Event>, queue: seq<Tagged>)
      requires Valid() && ledger == Ledger([], [], [])
      requires forall i :: 0 <= i < |events| && events[i].Request? ==> Writable(ring.c, events[i].req)
      requires forall i :: 0 <= i < |queue| ==> Writable(ring.c, queue[i])
      modifies this, stage, ring, ring.file
      ensures Valid() && ledger.staged == []
      ensures multiset(Concat(ledger.published)) + multiset(ledger.dropped) == multiset(Requests(events) + queue)
      ensures ledger.dropped == [] ==> Concat(ledger.published) == Requests(events) + queue
      ensures ledger.dropped == [] || ring.closeCh
    {
      hide Writable, Valid, Concat, Took, Requests;
      Loop(events);
      ghost var l := ledger;
      Drain(queue);
      TookThen(Ledger([], [], []), l, ledger, Requests(events), queue);
      TookAll(ledger, Requests(events) + queue);
    }
  }
}
