// What a page means: the parser of a page of small records, and the split of a
// large record over several pages with its reassembly.
module PageCodec {
  import opened Bytes
  import opened Records

  // The records a pass over a page of small records visits, in order. It stops at the first
  // all-zero trace ID, at a header that does not fit, or at a record that does not fit.
  function Parse(page: seq<byte>, pos: nat): seq<Record>
    decreases |page| - pos
  {
    if pos + HDR > |page| || TidAt(page, pos) == ZERO_ID || pos + HDR + LenAt(page, pos) > |page| then []
    else
      var n := LenAt(page, pos);
      [Record(TidAt(page, pos), TimeAt(page, pos), PayloadAt(page, pos, n))] + Parse(page, pos + HDR + n)
  }

  // Index of the first record at or after k with an all-zero trace ID, or |rs|.
  function FirstZero(rs: seq<Record>, k: nat): (f: nat)
    requires k <= |rs|
    ensures k <= f <= |rs|
    ensures f < |rs| ==> rs[f].tid == ZERO_ID
    ensures forall j :: k <= j < f ==> rs[j].tid != ZERO_ID
    decreases |rs| - k
  {
    if k == |rs| || rs[k].tid == ZERO_ID then k else FirstZero(rs, k + 1)
  }

  lemma {:induction false} ParseFromOffset(p: nat, rs: seq<Record>, k: nat)
    requires AllRepresentable(rs) && RecordsLen(rs) <= p && k <= |rs|
    ensures Offset(rs, k) <= p
    ensures Parse(EncodePage(p, rs), Offset(rs, k)) == rs[k..FirstZero(rs, k)]
    decreases |rs| - k
  {
    hide EncodePage, TidAt, TimeAt, LenAt, PayloadAt;
    OffsetMonotone(rs, k, |rs|);
    if k == |rs| {
      if Offset(rs, k) + HDR <= p {
        PageTail(p, rs);
      }
    } else {
      RecordAtOffset(p, rs, k);
      if rs[k].tid != ZERO_ID {
        ParseFromOffset(p, rs, k + 1);
        var f := FirstZero(rs, k);
        assert rs[k..f] == [rs[k]] + rs[k + 1..f];
      }
    }
  }

  // Round trip of a flushed page, with the exact condition under which it holds: a record with
  // an all-zero trace ID ends the parse, so it hides itself and everything staged behind it.
  lemma PageRoundTrip(p: nat, rs: seq<Record>)
    requires AllRepresentable(rs) && RecordsLen(rs) <= p
    ensures Parse(EncodePage(p, rs), 0) == rs[..FirstZero(rs, 0)]
    ensures Parse(EncodePage(p, rs), 0) == rs <==> forall j :: 0 <= j < |rs| ==> rs[j].tid != ZERO_ID
  {
    hide EncodePage, Parse;
    ParseFromOffset(p, rs, 0);
    var f := FirstZero(rs, 0);
    assert f == |rs| ==> rs[..f] == rs;
  }

  // A concrete page whose second record is lost, and with it the third, which has an ordinary ID.
  lemma ZeroIdHidesLaterRecords()
    ensures exists p: nat, rs: seq<Record> ::
              && AllRepresentable(rs) && RecordsLen(rs) <= p && |rs| == 3
              && rs[0].tid !in {ZERO_ID, TOMBSTONE} && rs[2].tid !in {ZERO_ID, TOMBSTONE}
              && Parse(EncodePage(p, rs), 0) == [rs[0]]
  {
    hide EncodePage, Parse;
    var tid: TraceId := [1 as byte] + Zeros(15);
    assert tid[0] == 1 && ZERO_ID[0] == 0 && TOMBSTONE[0] == 0xFF;
    var r := Record(tid, 0, []);
    var rs := [r, r.(tid := ZERO_ID), r];
    assert Offset(rs, 1) == 28 && Offset(rs, 2) == 56 && Offset(rs, 3) == 84;
    PageRoundTrip(4096, rs);
    assert FirstZero(rs, 1) == 1 && FirstZero(rs, 0) == 1;
    assert rs[..1] == [rs[0]];
  }

  // Number of pages of a record of n bytes.
  function NumChunks(p: nat, n: nat): nat
    requires p > 0
  {
    (n + p - 1) / p
  }

  lemma NumChunksBounds(p: nat, n: nat)
    requires p > 0 && n > 0
    ensures NumChunks(p, n) >= 1
    ensures (NumChunks(p, n) - 1) * p < n <= NumChunks(p, n) * p
    ensures n <= p <==> NumChunks(p, n) == 1
  {
    var c := NumChunks(p, n);
    assert n + p - 1 == c * p + (n + p - 1) % p;
    assert c * p >= n;
    assert (c - 1) * p == c * p - p;
    if n <= p && c >= 2 {
      TimesMonotone(1, c - 1, p);
    }
    if c == 1 {
      assert c * p == p;
    }
  }

  lemma TimesMonotone(a: nat, b: nat, p: nat)
    requires a <= b
    ensures a * p <= b * p
  {
  }

  // The byte image of a large record: its encoding padded with zeros to whole pages.
  function Padded(p: nat, r: Record): (s: seq<byte>)
    requires p > 0
    ensures |s| == NumChunks(p, Size(r)) * p
  {
    NumChunksBounds(p, Size(r));
    EncodeRecord(r) + Zeros(NumChunks(p, Size(r)) * p - Size(r))
  }

  function Chunk(p: nat, r: Record, i: nat): (s: seq<byte>)
    requires p > 0 && i < NumChunks(p, Size(r))
    ensures |s| == p
  {
    ChunkFits(i, NumChunks(p, Size(r)), p);
    Padded(p, r)[i * p..i * p + p]
  }

  lemma ChunkFits(i: nat, n: nat, p: nat)
    requires i < n
    ensures i * p + p <= n * p
  {
    TimesMonotone(i + 1, n, p);
    assert (i + 1) * p == i * p + p;
  }

  function Chunks(p: nat, r: Record): (s: seq<seq<byte>>)
    requires p > 0
    ensures |s| == NumChunks(p, Size(r))
  {
    seq(NumChunks(p, Size(r)), i requires 0 <= i < NumChunks(p, Size(r)) => Chunk(p, r, i))
  }

  // First page of a large record: the header, then as much payload as fits.
  lemma FirstChunk(p: nat, r: Record)
    requires p > HDR && Representable(r) && Size(r) > p
    ensures NumChunks(p, Size(r)) > 1
    ensures Chunk(p, r, 0) == Header(r) + r.data[..p - HDR]
    ensures TidAt(Chunk(p, r, 0), 0) == r.tid
    ensures TimeAt(Chunk(p, r, 0), 0) == r.at
    ensures LenAt(Chunk(p, r, 0), 0) == |r.data|
    ensures Chunk(p, r, 0)[HDR..p] == r.data[..p - HDR]
  {
    hide PutBE, GetBE, TidAt, TimeAt, LenAt, Header;
    NumChunksBounds(p, Size(r));
    var c := Chunk(p, r, 0);
    assert c == Padded(p, r)[..p] == EncodeRecord(r)[..p] == Header(r) + r.data[..p - HDR];
    assert c[0..HDR] == Header(r);
    HeaderFields(c, 0, r);
  }

  function Min(a: int, b: int): int
  {
    if a <= b then a else b
  }

  // Later pages: the next slice of payload, zero-padded to the page.
  lemma LaterChunk(p: nat, r: Record, i: nat)
    requires p > HDR && Representable(r) && 1 <= i < NumChunks(p, Size(r))
    ensures 0 < i * p - HDR < |r.data|
    ensures var off := i * p - HDR; var n := Min(|r.data| - off, p);
            Chunk(p, r, i) == r.data[off..off + n] + Zeros(p - n)
  {
    hide PutBE, GetBE, Header;
    NumChunksBounds(p, Size(r));
    ChunkFits(i, NumChunks(p, Size(r)), p);
    ChunkFits(i - 1, i, p);
    ChunkFits(0, i, p);
    TimesMonotone(i, NumChunks(p, Size(r)) - 1, p);
    var off := i * p - HDR;
    var n := Min(|r.data| - off, p);
    var e := EncodeRecord(r);
    assert e[i * p..i * p + n] == r.data[off..off + n];
    assert Chunk(p, r, i) == Padded(p, r)[i * p..i * p + p];
  }

  // Reassembly after reading i pages: the first page behind its header, then up to a page at a
  // time until the recorded payload length is reached.
  function Gather(p: nat, pages: seq<seq<byte>>, len: nat, i: nat): seq<byte>
    requires p > HDR && 1 <= i <= |pages|
    requires forall j :: 0 <= j < |pages| ==> |pages[j]| == p
  {
    if i == 1 then pages[0][HDR..p]
    else
      var got := Gather(p, pages, len, i - 1);
      got + GatherStep(p, pages[i - 1], len, |got|)
  }

  // What one more continuation page contributes.
  function GatherStep(p: nat, page: seq<byte>, len: nat, got: nat): seq<byte>
    requires |page| == p
  {
    if got >= len then [] else page[..Min(len - got, p)]
  }

  lemma GatherStepChunk(p: nat, r: Record, i: nat)
    requires p > HDR && Representable(r) && 1 <= i < NumChunks(p, Size(r))
    ensures 0 < i * p - HDR < |r.data|
    ensures r.data[..i * p - HDR] + GatherStep(p, Chunk(p, r, i), |r.data|, i * p - HDR)
         == r.data[..Min(|r.data|, i * p + p - HDR)]
  {
    hide Chunk;
    LaterChunk(p, r, i);
  }

  lemma {:induction false} GatherPrefix(p: nat, r: Record, i: nat)
    requires p > HDR && Representable(r) && Size(r) > p && 1 <= i <= NumChunks(p, Size(r))
    ensures Gather(p, Chunks(p, r), |r.data|, i) == r.data[..Min(|r.data|, i * p - HDR)]
  {
    hide Chunk;
    if i == 1 {
      FirstChunk(p, r);
    } else {
      GatherPrefix(p, r, i - 1);
      GatherStepChunk(p, r, i - 1);
      assert (i - 1) * p + p == i * p;
    }
  }

  // Round trip of a large record: the pages written for it reassemble to its payload.
  lemma LargeRecordRoundTrip(p: nat, r: Record)
    requires p > HDR && Representable(r) && Size(r) > p
    ensures |Chunks(p, r)| == NumChunks(p, HDR + LenAt(Chunk(p, r, 0), 0))
    ensures Gather(p, Chunks(p, r), LenAt(Chunk(p, r, 0), 0), |Chunks(p, r)|) == r.data
    ensures TidAt(Chunk(p, r, 0), 0) == r.tid && TimeAt(Chunk(p, r, 0), 0) == r.at
  {
    hide Chunk, TidAt, TimeAt, LenAt, Gather;
    FirstChunk(p, r);
    NumChunksBounds(p, Size(r));
    GatherPrefix(p, r, NumChunks(p, Size(r)));
  }

  // Tombstoning a large record rewrites its first page and leaves the others as they were.
  lemma RenameLarge(p: nat, r: Record, tid: TraceId)
    requires p > HDR && Representable(r) && Size(r) > p
    ensures Representable(r.(tid := tid)) && Size(r.(tid := tid)) == Size(r)
    ensures Chunks(p, r.(tid := tid)) == Chunks(p, r)[0 := Overwrite(Chunk(p, r, 0), 0, tid)]
  {
    var r' := r.(tid := tid);
    var n := NumChunks(p, Size(r));
    forall i | 0 <= i < n
      ensures Chunk(p, r', i) == if i == 0 then Overwrite(Chunk(p, r, 0), 0, tid) else Chunk(p, r, i)
    {
      hide PutBE, Chunk;
      if i == 0 {
        FirstChunk(p, r);
        FirstChunk(p, r');
      } else {
        LaterChunk(p, r, i);
        LaterChunk(p, r', i);
      }
    }
    hide Chunk, Padded;
    NumChunksBounds(p, Size(r));
    assert |Chunks(p, r)| == |Chunks(p, r')| == n;
    assert Chunks(p, r') == Chunks(p, r)[0 := Overwrite(Chunk(p, r, 0), 0, tid)];
  }
}
