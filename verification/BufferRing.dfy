// Ring ownership: which pages of the file hold committed groups, which are in flight, and what
// each file operation does to them.
module BufferRing {
  import opened Bytes
  import opened Records
  import opened PageCodec
  import opened Ring
  import opened BufferMachine

  function Recs(ts: seq<Tagged>): (rs: seq<Record>)
    ensures |rs| == |ts|
    ensures forall i :: 0 <= i < |ts| ==> rs[i] == ts[i].rec
  {
    seq(|ts|, i requires 0 <= i < |ts| => ts[i].rec)
  }

  predicate IsLargeGroup(c: Config, ts: seq<Tagged>)
  {
    |ts| == 1 && IsLarge(c, ts[0].rec)
  }

  // The pages that hold a group: the chunks of one large record, or one page of small ones.
  function GroupPages(c: Config, ts: seq<Tagged>): seq<Page>
    requires Valid(c)
  {
    if IsLargeGroup(c, ts) then Chunks(c.p, ts[0].rec) else [EncodePage(c.p, Recs(ts))]
  }

  predicate GroupOk(c: Config, ts: seq<Tagged>)
    requires Valid(c)
  {
    && |ts| > 0
    && (forall i :: 0 <= i < |ts| ==> Representable(ts[i].rec) && ts[i].rec.tid != ZERO_ID)
    && (IsLargeGroup(c, ts) || RecordsLen(Recs(ts)) <= c.p)
  }

  function Flat(c: Config, groups: seq<Group>): seq<Page>
    requires Valid(c)
  {
    if groups == [] then [] else GroupPages(c, groups[0].recs) + Flat(c, groups[1..])
  }

  lemma {:induction false} FlatAppend(c: Config, groups: seq<Group>, g: Group)
    requires Valid(c)
    ensures Flat(c, groups + [g]) == Flat(c, groups) + GroupPages(c, g.recs)
  {
    hide GroupPages;
    if groups == [] {
      assert groups + [g] == [g];
      assert Flat(c, [g]) == GroupPages(c, g.recs) + Flat(c, [g][1..]);
    } else {
      FlatAppend(c, groups[1..], g);
      assert (groups + [g])[1..] == groups[1..] + [g];
    }
  }

  // Every page that `used` counts is the page of a committed group, in order from the sweeper's
  // head; behind them come the pages in flight; the writer's head is the page after those.
  predicate RingOk(c: Config, file: seq<byte>, used: int, at: nat, shead: nat, whead: nat,
                   groups: seq<Group>, inflight: seq<Page>)
    requires Valid(c)
  {
    var n := |Flat(c, groups)|;
    && |file| == MaxBytes(c)
    && at < c.m && n + |inflight| <= c.m
    && used == n * c.p
    && shead == at * c.p
    && whead == Wrap(at, n + |inflight|, c.m) * c.p
    && Region(file, c.p, c.m, at, n + |inflight|) == Flat(c, groups) + inflight
  }

  lemma RingInit(c: Config, file: seq<byte>)
    requires Valid(c) && |file| == MaxBytes(c)
    ensures RingOk(c, file, 0, 0, 0, 0, [], [])
  {
    assert Region(file, c.p, c.m, 0, 0) == [];
  }

  lemma MovedIsWrap(c: Config, at: nat, n: nat)
    requires Valid(c) && at < c.m && n <= c.m
    ensures Moved(c, at * c.p, n) == Wrap(at, n, c.m) * c.p
  {
    Advance(at, n, c.m, c.p);
  }

  // The writer's page goes to a free page: nothing committed or in flight is overwritten.
  lemma RingWrite(c: Config, file: seq<byte>, used: int, at: nat, shead: nat, whead: nat,
                  groups: seq<Group>, inflight: seq<Page>, page: Page)
    requires Valid(c) && RingOk(c, file, used, at, shead, whead, groups, inflight)
    requires |page| == c.p && |Flat(c, groups)| + |inflight| < c.m
    ensures RingOk(c, Put(file, whead, page), used, at, shead, Moved(c, whead, 1), groups, inflight + [page])
  {
    hide Flat, Region, Moved, Overwrite;
    var n := |Flat(c, groups)| + |inflight|;
    var k := Wrap(at, n, c.m);
    WriteFreePage(file, c.p, c.m, at, n, page);
    assert Put(file, whead, page) == Overwrite(file, k * c.p, page);
    MovedIsWrap(c, k, 1);
    assert Wrap(k, 1, c.m) == Wrap(at, n + 1, c.m);
    assert Flat(c, groups) + (inflight + [page]) == Flat(c, groups) + inflight + [page];
  }

  lemma RingCommit(c: Config, file: seq<byte>, used: int, at: nat, shead: nat, whead: nat,
                   groups: seq<Group>, inflight: seq<Page>, g: Group)
    requires Valid(c) && RingOk(c, file, used, at, shead, whead, groups, inflight)
    requires inflight == GroupPages(c, g.recs)
    ensures RingOk(c, file, used + |inflight| * c.p, at, shead, whead, groups + [g], [])
  {
    hide GroupPages, Region;
    var n := |Flat(c, groups)|;
    FlatAppend(c, groups, g);
    assert (n + |inflight|) * c.p == n * c.p + |inflight| * c.p;
    assert Flat(c, groups + [g]) + [] == Flat(c, groups) + inflight;
  }

  lemma FlatHead(c: Config, groups: seq<Group>)
    requires Valid(c) && groups != []
    ensures Flat(c, groups) == GroupPages(c, groups[0].recs) + Flat(c, groups[1..])
  {
  }

  // The sweeper reads what was written for the group at its head, wherever the ring wraps.
  lemma RingRead(c: Config, file: seq<byte>, used: int, at: nat, shead: nat, whead: nat,
                 groups: seq<Group>, inflight: seq<Page>, i: nat)
    requires Valid(c) && RingOk(c, file, used, at, shead, whead, groups, inflight)
    requires groups != [] && i < |GroupPages(c, groups[0].recs)|
    ensures ReadAt(file, Moved(c, shead, i), c.p) == GroupPages(c, groups[0].recs)[i]
    ensures Moved(c, shead, 0) == shead
  {
    hide Flat, GroupPages, Moved;
    FlatHead(c, groups);
    var n := |Flat(c, groups)| + |inflight|;
    var pages := GroupPages(c, groups[0].recs);
    assert |pages| <= |Flat(c, groups)|;
    assert pages[i] == Flat(c, groups)[i] == (Flat(c, groups) + inflight)[i];
    assert Region(file, c.p, c.m, at, n)[i] == RegionPage(file, c.p, c.m, at, i);
    MovedIsWrap(c, at, i);
    MovedIsWrap(c, at, 0);
    PageInFile(Wrap(at, i, c.m), c.m, c.p);
  }

  // Writing the scanned page back touches the first page of the head group only.
  lemma RingWriteBack(c: Config, file: seq<byte>, used: int, at: nat, shead: nat, whead: nat,
                      groups: seq<Group>, inflight: seq<Page>, cur: seq<Tagged>, page: Page)
    requires Valid(c) && RingOk(c, file, used, at, shead, whead, groups, inflight)
    requires groups != [] && |page| == c.p && |GroupPages(c, groups[0].recs)| > 0
    requires GroupPages(c, cur) == GroupPages(c, groups[0].recs)[0 := page]
    ensures RingOk(c, Put(file, shead, page), used, at, shead, whead, groups[0 := groups[0].(recs := cur)], inflight)
  {
    hide GroupPages, Region, Overwrite;
    var n := |Flat(c, groups)| + |inflight|;
    var groups' := groups[0 := groups[0].(recs := cur)];
    FlatHead(c, groups);
    FlatHead(c, groups');
    assert groups'[1..] == groups[1..];
    WriteFirstPage(file, c.p, c.m, at, n, page);
    assert Put(file, shead, page) == Overwrite(file, at * c.p, page);
    assert Flat(c, groups') + inflight == (Flat(c, groups) + inflight)[0 := page];
  }

  lemma RingRelease(c: Config, file: seq<byte>, used: int, at: nat, shead: nat, whead: nat,
                    groups: seq<Group>, inflight: seq<Page>, k: nat)
    requires Valid(c) && RingOk(c, file, used, at, shead, whead, groups, inflight)
    requires groups != [] && k == |GroupPages(c, groups[0].recs)|
    ensures (at + k) % c.m < c.m
    ensures RingOk(c, file, used - k * c.p, (at + k) % c.m, Moved(c, shead, k), whead, groups[1..], inflight)
  {
    hide GroupPages, Region, Moved;
    FlatHead(c, groups);
    var n := |Flat(c, groups)|;
    DropPages(file, c.p, c.m, at, n + |inflight|, k);
    MovedIsWrap(c, at, k);
    WrapIsMod(at, k, c.m);
    assert n * c.p - k * c.p == (n - k) * c.p;
    assert (Flat(c, groups) + inflight)[k..] == Flat(c, groups[1..]) + inflight;
  }

  lemma WrapIsMod(at: nat, k: nat, m: nat)
    requires at < m && k <= m
    ensures (at + k) % m == Wrap(at, k, m)
  {
    if at + k < m {
      SmallMod(at + k, m);
    } else {
      ModPlus(at + k - m, m);
    }
  }

  // A room check against `used` is a statement about pages.
  lemma RingRoom(c: Config, file: seq<byte>, used: int, at: nat, shead: nat, whead: nat,
                 groups: seq<Group>, inflight: seq<Page>, k: nat)
    requires Valid(c) && RingOk(c, file, used, at, shead, whead, groups, inflight)
    ensures used + k * c.p <= MaxBytes(c) <==> |Flat(c, groups)| + k <= c.m
    ensures used == 0 <==> |Flat(c, groups)| == 0
    ensures k * c.p <= used <==> k <= |Flat(c, groups)|
    ensures 0 <= used <= MaxBytes(c)
  {
    hide Flat, Region;
    RoomInPages(|Flat(c, groups)|, k, c.m, c.p);
    RoomInPages(|Flat(c, groups)|, 0, c.m, c.p);
  }
}
