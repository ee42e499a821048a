// The record format of a buffer page and the byte-level page codec (buffer.go).
module Records {
  import opened Bytes

  const HDR: nat := 28 // 16 trace ID + 8 insertedAt (ns) + 4 payload length

  type TraceId = s: seq<byte> | |s| == 16 witness Zeros(16)

  const ZERO_ID: TraceId := Zeros(16)
  // Marks a finished record inside a page that still holds unfinished ones.
  const TOMBSTONE: TraceId := [0xFF as byte] + Zeros(15)

  lemma IdsDiffer()
    ensures TOMBSTONE != ZERO_ID
  {
    assert TOMBSTONE[0] == 0xFF && ZERO_ID[0] == 0;
  }

  datatype Record = Record(tid: TraceId, at: int, data: seq<byte>)

  // What the header can represent: int64 nanoseconds and a uint32 length.
  predicate Representable(r: Record)
  {
    -TWO63 <= r.at < TWO63 && |r.data| < 0x1_0000_0000
  }

  function Size(r: Record): nat
  {
    HDR + |r.data|
  }

  function Header(r: Record): (s: seq<byte>)
    ensures |s| == HDR
  {
    r.tid + PutBE(ToU64(r.at), 8) + PutBE(|r.data|, 4)
  }

  function EncodeRecord(r: Record): (s: seq<byte>)
    ensures |s| == Size(r)
  {
    Header(r) + r.data
  }

  predicate AllRepresentable(rs: seq<Record>)
  {
    forall i :: 0 <= i < |rs| ==> Representable(rs[i])
  }

  // Byte position of the k-th record of a page.
  function Offset(rs: seq<Record>, k: nat): nat
    requires k <= |rs|
  {
    if k == 0 then 0 else Offset(rs, k - 1) + Size(rs[k - 1])
  }

  function RecordsLen(rs: seq<Record>): nat
  {
    Offset(rs, |rs|)
  }

  function EncodeFirst(rs: seq<Record>, k: nat): (s: seq<byte>)
    requires k <= |rs|
    ensures |s| == Offset(rs, k)
  {
    if k == 0 then [] else EncodeFirst(rs, k - 1) + EncodeRecord(rs[k - 1])
  }

  // The page written by a flush: the staged records, then zeros.
  function EncodePage(p: nat, rs: seq<Record>): (s: seq<byte>)
    ensures RecordsLen(rs) <= p ==> |s| == p
  {
    EncodeFirst(rs, |rs|) + Zeros(if RecordsLen(rs) <= p then p - RecordsLen(rs) else 0)
  }

  // Reading a header field at a byte position of a page.
  function TidAt(page: seq<byte>, pos: nat): TraceId
    requires pos + HDR <= |page|
  {
    page[pos..pos + 16]
  }

  function TimeAt(page: seq<byte>, pos: nat): int
    requires pos + HDR <= |page|
  {
    FromU64(GetBE(page[pos + 16..pos + 24]))
  }

  function LenAt(page: seq<byte>, pos: nat): nat
    requires pos + HDR <= |page|
  {
    GetBE(page[pos + 24..pos + 28])
  }

  function PayloadAt(page: seq<byte>, pos: nat, n: nat): seq<byte>
    requires pos + HDR + n <= |page|
  {
    page[pos + HDR..pos + HDR + n]
  }

  lemma HeaderFields(page: seq<byte>, pos: nat, r: Record)
    requires Representable(r) && pos + HDR <= |page|
    requires page[pos..pos + HDR] == Header(r)
    ensures TidAt(page, pos) == r.tid
    ensures TimeAt(page, pos) == r.at
    ensures LenAt(page, pos) == |r.data|
  {
    var h := page[pos..pos + HDR];
    assert page[pos..pos + 16] == h[..16] == r.tid;
    assert page[pos + 16..pos + 24] == h[16..24] == PutBE(ToU64(r.at), 8);
    assert page[pos + 24..pos + 28] == h[24..28] == PutBE(|r.data|, 4);
    Signed64RoundTrip(r.at);
    Length32RoundTrip(|r.data|);
  }

  // Both functions of a prefix depend on that prefix only.
  lemma {:induction false} PrefixOnly(rs: seq<Record>, qs: seq<Record>, k: nat)
    requires k <= |rs| && k <= |qs|
    requires forall j :: 0 <= j < k ==> rs[j] == qs[j]
    ensures Offset(rs, k) == Offset(qs, k)
    ensures EncodeFirst(rs, k) == EncodeFirst(qs, k)
  {
    if k > 0 {
      PrefixOnly(rs, qs, k - 1);
    }
  }

  lemma {:induction false} OffsetMonotone(rs: seq<Record>, j: nat, k: nat)
    requires j <= k <= |rs|
    ensures Offset(rs, j) + HDR * (k - j) <= Offset(rs, k)
  {
    if j < k {
      OffsetMonotone(rs, j, k - 1);
    }
  }

  lemma {:induction false} RecordSlice(rs: seq<Record>, n: nat, k: nat)
    requires k < n <= |rs|
    ensures Offset(rs, k) + Size(rs[k]) <= Offset(rs, n)
    ensures EncodeFirst(rs, n)[Offset(rs, k)..Offset(rs, k) + Size(rs[k])] == EncodeRecord(rs[k])
  {
    hide EncodeRecord;
    if k < n - 1 {
      RecordSlice(rs, n - 1, k);
    } else {
      assert Offset(rs, n) == Offset(rs, k) + Size(rs[k]);
      assert EncodeFirst(rs, n) == EncodeFirst(rs, k) + EncodeRecord(rs[k]);
    }
  }

  // At the k-th offset of an encoded page, the header and payload of the k-th record are read back.
  lemma RecordAtOffset(p: nat, rs: seq<Record>, k: nat)
    requires AllRepresentable(rs) && RecordsLen(rs) <= p && k < |rs|
    ensures Offset(rs, k + 1) == Offset(rs, k) + Size(rs[k]) <= p
    ensures TidAt(EncodePage(p, rs), Offset(rs, k)) == rs[k].tid
    ensures TimeAt(EncodePage(p, rs), Offset(rs, k)) == rs[k].at
    ensures LenAt(EncodePage(p, rs), Offset(rs, k)) == |rs[k].data|
    ensures PayloadAt(EncodePage(p, rs), Offset(rs, k), |rs[k].data|) == rs[k].data
  {
    hide PutBE, GetBE, Zeros, TidAt, TimeAt, LenAt;
    RecordSlice(rs, |rs|, k);
    var page, pos, m := EncodePage(p, rs), Offset(rs, k), EncodeRecord(rs[k]);
    assert page[pos..pos + Size(rs[k])] == m;
    assert page[pos..pos + HDR] == m[..HDR] == Header(rs[k]);
    assert page[pos + HDR..pos + Size(rs[k])] == m[HDR..] == rs[k].data;
    HeaderFields(page, pos, rs[k]);
  }

  // Past the last record there is either no room for a header or an all-zero trace ID.
  lemma PageTail(p: nat, rs: seq<Record>)
    requires RecordsLen(rs) + HDR <= p
    ensures TidAt(EncodePage(p, rs), RecordsLen(rs)) == ZERO_ID
  {
  }

  function Rename(rs: seq<Record>, k: nat, tid: TraceId): (r: seq<Record>)
    requires k < |rs|
  {
    rs[k := rs[k].(tid := tid)]
  }

  lemma OverwriteFront(a: seq<byte>, b: seq<byte>, pos: nat, src: seq<byte>)
    requires pos + |src| <= |a|
    ensures Overwrite(a + b, pos, src) == Overwrite(a, pos, src) + b
  {
  }

  lemma OverwriteBack(a: seq<byte>, r: Record, tid: TraceId)
    ensures Overwrite(a + EncodeRecord(r), |a|, tid) == a + EncodeRecord(r.(tid := tid))
  {
    hide PutBE;
  }

  // Overwriting 16 bytes at the k-th offset renames the k-th record and nothing else.
  lemma {:induction false} RenameFirst(rs: seq<Record>, k: nat, tid: TraceId, n: nat)
    requires k < |rs| && n <= |rs|
    ensures Offset(Rename(rs, k, tid), n) == Offset(rs, n)
    ensures k < n ==> Offset(rs, k) + Size(rs[k]) <= Offset(rs, n)
    ensures k < n ==> EncodeFirst(Rename(rs, k, tid), n) == Overwrite(EncodeFirst(rs, n), Offset(rs, k), tid)
  {
    hide EncodeRecord, Overwrite;
    if n > 0 {
      RenameFirst(rs, k, tid, n - 1);
      if k == n - 1 {
        PrefixOnly(rs, Rename(rs, k, tid), k);
        OverwriteBack(EncodeFirst(rs, k), rs[k], tid);
      } else if k < n - 1 {
        OverwriteFront(EncodeFirst(rs, n - 1), EncodeRecord(rs[n - 1]), Offset(rs, k), tid);
      }
    }
  }

  lemma RenameInPage(p: nat, rs: seq<Record>, k: nat, tid: TraceId)
    requires RecordsLen(rs) <= p && k < |rs|
    ensures Offset(rs, k) + Size(rs[k]) <= p
    ensures AllRepresentable(rs) ==> AllRepresentable(Rename(rs, k, tid))
    ensures RecordsLen(Rename(rs, k, tid)) == RecordsLen(rs)
    ensures Overwrite(EncodePage(p, rs), Offset(rs, k), tid) == EncodePage(p, Rename(rs, k, tid))
  {
    hide EncodeFirst, Overwrite, Zeros, Offset;
    RenameFirst(rs, k, tid, |rs|);
    OverwriteFront(EncodeFirst(rs, |rs|), Zeros(p - RecordsLen(rs)), Offset(rs, k), tid);
  }

  // Go's copy(page[pos:], src) when src fits.
  function Overwrite(page: seq<byte>, pos: nat, src: seq<byte>): (r: seq<byte>)
    requires pos + |src| <= |page|
    ensures |r| == |page|
    ensures forall i :: 0 <= i < |page| ==> r[i] == if pos <= i < pos + |src| then src[i - pos] else page[i]
  {
    page[..pos] + src + page[pos + |src|..]
  }
}
