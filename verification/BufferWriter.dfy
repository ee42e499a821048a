// The writer's side of the invariant: what the staging page holds and what is in flight.
module BufferWriter {
  import opened Bytes
  import opened Records
  import opened PageCodec
  import opened Ring
  import opened BufferMachine
  import opened BufferRing

  // An accepted record: storable under its own trace ID, and small enough for the file.
  predicate Good(c: Config, t: Tagged)
    requires Valid(c)
  {
    Acceptable(t.rec) && (IsLarge(c, t.rec) ==> ChunksOf(c, t.rec) <= c.m)
  }

  predicate AllGood(c: Config, ts: seq<Tagged>)
    requires Valid(c)
  {
    forall i :: 0 <= i < |ts| ==> Good(c, ts[i])
  }

  predicate ContOk(c: Config, cont: Cont)
    requires Valid(c)
  {
    match cont
    case ThenStage(req) => Good(c, req) && !IsLarge(c, req.rec)
    case ThenLarge(req) => Good(c, req) && IsLarge(c, req.rec)
    case _ => true
  }

  // The stage starts with the encodings of the staged records, which are all small.
  predicate StageOk(c: Config, w: Writer)
    requires Valid(c)
  {
    && |w.stage| == c.p
    && w.stageN == RecordsLen(Recs(w.staged)) <= c.p
    && w.stage[..w.stageN] == EncodeFirst(Recs(w.staged), |w.staged|)
    && forall i :: 0 <= i < |w.staged| ==> Good(c, w.staged[i]) && !IsLarge(c, w.staged[i].rec)
  }

  predicate FlushReady(c: Config, w: Writer, cont: Cont)
    requires Valid(c)
  {
    w.staged != [] && w.stage == EncodePage(c.p, Recs(w.staged)) && ContOk(c, cont)
  }

  predicate BigReady(c: Config, w: Writer, big: Tagged)
    requires Valid(c)
  {
    w.staged == [] && Good(c, big) && IsLarge(c, big.rec)
  }

  // Per program counter: what is staged, what is in flight, and that claimed room stays claimed.
  predicate WriterOk(c: Config, w: Writer, used: int, inflight: seq<Page>)
    requires Valid(c)
  {
    && StageOk(c, w)
    && match w.pc
       case Idle => inflight == []
       case FlushCheck(cont) => inflight == [] && FlushReady(c, w, cont)
       case FlushPark(cont) => inflight == [] && FlushReady(c, w, cont)
       case FlushWrite(cont) => inflight == [] && FlushReady(c, w, cont) && used + c.p <= MaxBytes(c)
       case FlushAdd(cont) => inflight == [EncodePage(c.p, Recs(w.staged))] && FlushReady(c, w, cont)
       case FlushWake(cont) => inflight == [] && w.staged == [] && ContOk(c, cont)
       case LargeCheck(big) => inflight == [] && BigReady(c, w, big)
       case LargePark(big) => inflight == [] && BigReady(c, w, big)
       case LargeWrite(big, i) =>
         && BigReady(c, w, big) && i < ChunksOf(c, big.rec) && inflight == Chunks(c.p, big.rec)[..i]
         && used + ChunksOf(c, big.rec) * c.p <= MaxBytes(c)
       case LargeAdd(big) => BigReady(c, w, big) && inflight == Chunks(c.p, big.rec)
       case LargeWake => inflight == [] && w.staged == []
       case WriterExit => inflight == [] && w.staged == []
       case WriterDone => inflight == [] && w.staged == []
  }

  lemma WriterInit(c: Config, w: Writer)
    requires Valid(c) && w == Writer(Idle, false, Zeros(c.p), 0, 0, [])
    ensures WriterOk(c, w, 0, [])
  {
  }

  // Less use never takes back claimed room.
  lemma WriterLessUsed(c: Config, w: Writer, used: int, used': int, inflight: seq<Page>)
    requires Valid(c) && WriterOk(c, w, used, inflight) && used' <= used
    ensures WriterOk(c, w, used', inflight)
  {
  }

  lemma RecsAppend(ts: seq<Tagged>, t: Tagged)
    ensures Recs(ts + [t]) == Recs(ts) + [t.rec]
    ensures RecordsLen(Recs(ts + [t])) == RecordsLen(Recs(ts)) + Size(t.rec)
    ensures EncodeFirst(Recs(ts + [t]), |ts| + 1) == EncodeFirst(Recs(ts), |ts|) + EncodeRecord(t.rec)
  {
    hide EncodeRecord;
    PrefixOnly(Recs(ts + [t]), Recs(ts), |ts|);
  }

  lemma StageEmptyIff(c: Config, w: Writer)
    requires Valid(c) && StageOk(c, w)
    ensures w.stageN == 0 <==> w.staged == []
  {
  }

  lemma PutAppends(stage: seq<byte>, n: nat, src: seq<byte>)
    requires n + |src| <= |stage|
    ensures |Put(stage, n, src)| == |stage|
    ensures Put(stage, n, src)[..n + |src|] == stage[..n] + src
  {
  }

  lemma StageRecordOk(c: Config, s: State, req: Tagged)
    requires Valid(c) && StageOk(c, s.w) && s.h.inflight == []
    requires Good(c, req) && !IsLarge(c, req.rec) && s.w.stageN + Size(req.rec) <= c.p
    ensures var s' := StageRecord(s, req); WriterOk(c, s'.w, s.used, [])
  {
    hide EncodeRecord, EncodeFirst, Put, Acceptable, RecordsLen;
    RecsAppend(s.w.staged, req);
    PutAppends(s.w.stage, s.w.stageN, EncodeRecord(req.rec));
  }

  lemma BeginFlushOk(c: Config, s: State, cont: Cont)
    requires Valid(c) && StageOk(c, s.w) && s.w.stageN > 0 && ContOk(c, cont) && s.h.inflight == []
    ensures var s' := BeginFlush(s, cont); WriterOk(c, s'.w, s.used, [])
  {
    hide EncodeFirst, Acceptable;
    StageEmptyIff(c, s.w);
    var stage := ClearTail(s.w.stage, s.w.stageN);
    assert stage[..s.w.stageN] == s.w.stage[..s.w.stageN];
    assert stage == EncodePage(c.p, Recs(s.w.staged));
  }

  lemma BeginLargeOk(c: Config, s: State, req: Tagged)
    requires Valid(c) && StageOk(c, s.w) && s.w.staged == [] && s.h.inflight == []
    requires Good(c, req) && IsLarge(c, req.rec)
    ensures BeginLarge(c, s, req) == s.(w := s.w.(pc := LargeCheck(req)))
    ensures WriterOk(c, BeginLarge(c, s, req).w, s.used, [])
  {
    hide EncodeFirst, Acceptable;
    TimesMonotone(ChunksOf(c, req.rec), c.m, c.p);
  }

  lemma HandleOk(c: Config, s: State, req: Tagged)
    requires Valid(c) && WriterOk(c, s.w, s.used, s.h.inflight) && s.w.pc.Idle? && Good(c, req)
    ensures var s' := Handle(c, s, req);
            s'.h == s.h && WriterOk(c, s'.w, s.used, s'.h.inflight)
  {
    hide EncodeFirst, Acceptable, StageOk, BeginLarge, BeginFlush, StageRecord;
    if !IsLarge(c, req.rec) {
      if s.w.stageN + Size(req.rec) > c.p {
        FullStage(c, s.w, req);
        BeginFlushOk(c, s, ThenStage(req));
        assert BeginFlush(s, ThenStage(req)).h == s.h by { BeginFlushFrame(s, ThenStage(req)); }
      } else {
        StageRecordOk(c, s, req);
        StageRecordFrame(s, req);
      }
    } else if s.w.stageN > 0 {
      BeginFlushOk(c, s, ThenLarge(req));
      BeginFlushFrame(s, ThenLarge(req));
    } else {
      StageEmptyIff(c, s.w);
      BeginLargeOk(c, s, req);
    }
  }

  lemma FullStage(c: Config, w: Writer, req: Tagged)
    requires Valid(c) && !IsLarge(c, req.rec) && w.stageN + Size(req.rec) > c.p
    ensures w.stageN > 0
  {
  }

  lemma BeginFlushFrame(s: State, cont: Cont)
    ensures BeginFlush(s, cont).h == s.h
  {
  }

  lemma StageRecordFrame(s: State, req: Tagged)
    ensures StageRecord(s, req).h == s.h
  {
  }

  lemma CheckRoomOk(c: Config, s: State)
    requires Valid(c) && WriterOk(c, s.w, s.used, s.h.inflight) && (s.w.pc.FlushCheck? || s.w.pc.LargeCheck?)
    ensures WriterOk(c, CheckRoom(c, s).w, s.used, s.h.inflight)
  {
    hide StageOk, EncodePage, Good;
    if s.w.pc.LargeCheck? {
      var big := s.w.pc.big;
      NumChunksBounds(c.p, Size(big.rec));
      assert Chunks(c.p, big.rec)[..0] == [];
      assert StageOk(c, s.w) ==> StageOk(c, CheckRoom(c, s).w) by { SameStage(c, s.w, CheckRoom(c, s).w.pc); }
    } else {
      SameStage(c, s.w, CheckRoom(c, s).w.pc);
    }
  }

  lemma SameStage(c: Config, w: Writer, pc: WriterPc)
    requires Valid(c)
    ensures StageOk(c, w) ==> StageOk(c, w.(pc := pc))
  {
    hide EncodeFirst, Good;
  }

  lemma EmptyStageOk(c: Config, w: Writer)
    requires Valid(c) && |w.stage| == c.p && w.stageN == 0 && w.staged == []
    ensures StageOk(c, w)
  {
  }

  lemma TakePageFreedOk(c: Config, s: State)
    requires Valid(c) && WriterOk(c, s.w, s.used, s.h.inflight) && (s.w.pc.FlushPark? || s.w.pc.LargePark?)
    ensures WriterOk(c, TakePageFreed(s).w, s.used, s.h.inflight)
  {
    hide StageOk, EncodePage, Good;
    SameStage(c, s.w, TakePageFreed(s).w.pc);
  }

  lemma GiveUpOk(c: Config, s: State)
    requires Valid(c) && WriterOk(c, s.w, s.used, s.h.inflight) && (s.w.pc.FlushPark? || s.w.pc.LargePark?)
    ensures WriterOk(c, GiveUp(s).w, s.used, GiveUp(s).h.inflight)
  {
    hide EncodePage, Good, EncodeFirst;
    if s.w.pc.FlushPark? {
      EmptyStageOk(c, GiveUp(s).w);
    }
  }

  // One more page in flight, with the page that the writer is about to write.
  lemma WritePageOk(c: Config, s: State)
    requires Valid(c) && WriterOk(c, s.w, s.used, s.h.inflight) && (s.w.pc.FlushWrite? || s.w.pc.LargeWrite?)
    ensures var s' := WritePage(c, s); var page := s'.w.stage;
            && |page| == c.p && s'.h.inflight == s.h.inflight + [page]
            && s'.file == Put(s.file, s.w.head, page) && s'.w.head == Moved(c, s.w.head, 1)
            && |s.h.inflight| * c.p + c.p + s.used <= MaxBytes(c)
            && WriterOk(c, s'.w, s.used, s'.h.inflight)
  {
    hide EncodePage, Good, EncodeFirst, Moved, Put, Chunk;
    if s.w.pc.LargeWrite? {
      var big, i := s.w.pc.big, s.w.pc.i;
      var all := Chunks(c.p, big.rec);
      ChunkFits(i, |all|, c.p);
      assert all[..i] + [all[i]] == all[..i + 1];
      assert i + 1 == |all| ==> all[..i + 1] == all;
      EmptyStageOk(c, WritePage(c, s).w);
    } else {
      SameStageHead(c, s.w, WritePage(c, s).w);
    }
  }

  lemma SameStageHead(c: Config, w: Writer, w': Writer)
    requires Valid(c) && w'.stage == w.stage && w'.stageN == w.stageN && w'.staged == w.staged
    ensures StageOk(c, w) ==> StageOk(c, w')
  {
    hide EncodeFirst, Good;
  }

  // The committed group is the staged records, or the large record alone.
  lemma AddUsedOk(c: Config, s: State)
    requires Valid(c) && WriterOk(c, s.w, s.used, s.h.inflight) && (s.w.pc.FlushAdd? || s.w.pc.LargeAdd?)
    ensures var s' := AddUsed(c, s); var g := s'.h.groups[|s.h.groups|];
            && s'.h.groups == s.h.groups + [g]
            && s'.h.inflight == [] && s'.used == s.used + |s.h.inflight| * c.p
            && GroupOk(c, g.recs) && s.h.inflight == GroupPages(c, g.recs)
            && WriterOk(c, s'.w, s'.used, s'.h.inflight)
  {
    hide EncodePage, EncodeFirst, Chunk;
    if s.w.pc.FlushAdd? {
      EmptyStageOk(c, AddUsed(c, s).w);
    } else {
      var big := s.w.pc.big;
      assert Recs([big]) == [big.rec];
      SameStage(c, s.w, LargeWake);
    }
  }

  lemma WakeSweeperOk(c: Config, s: State)
    requires Valid(c) && WriterOk(c, s.w, s.used, s.h.inflight) && (s.w.pc.FlushWake? || s.w.pc.LargeWake?)
    ensures var s' := WakeSweeper(c, s);
            && WriterOk(c, s'.w, s.used, s'.h.inflight) && s'.h == s.h && s'.wakeup
  {
    hide EncodePage, EncodeFirst, Acceptable, BeginLarge, StageOk;
    assert s.w.stageN == 0 by { StageEmptyIff(c, s.w); }
    SameStage(c, s.w, Idle);
    SameStage(c, s.w, WriterExit);
    if s.w.pc.FlushWake? {
      var s1, cont := s.(wakeup := true), s.w.pc.cont;
      if cont.ThenStage? {
        StageRecordOk(c, s1, cont.req);
      } else if cont.ThenLarge? {
        BeginLargeOk(c, s1, cont.req);
      }
    }
  }
}
