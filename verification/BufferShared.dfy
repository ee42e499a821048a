// What the writer and the sweeper share, as they hold it in memory.
module BufferShared {
  import opened Bytes
  import opened Records
  import opened PageCodec
  import opened Ring
  import opened BufferMachine
  import opened BufferRing

  // Go's copy: as much of src as fits behind `at`.
  method Copy(dst: array<byte>, at: nat, src: seq<byte>) returns (n: nat)
    requires at <= dst.Length
    modifies dst
    ensures n == Min(|src|, dst.Length - at)
    ensures dst[..] == Overwrite(old(dst[..]), at, src[..n])
  {
    n := if |src| <= dst.Length - at then |src| else dst.Length - at;
    forall i | 0 <= i < n {
      dst[at + i] := src[i];
    }
  }

  // WriteAt of a whole page inside the file.
  method PutPage(file: array<byte>, off: nat, page: array<byte>)
    requires page != file && off + page.Length <= file.Length
    modifies file
    ensures file[..] == Put(old(file[..]), off, page[..])
  {
    var n := Copy(file, off, page[..]);
    assert page[..][..n] == page[..];
  }

  method Clear(dst: array<byte>, start: nat)
    requires start <= dst.Length
    modifies dst
    ensures dst[..] == old(dst[..start]) + Zeros(dst.Length - start)
  {
    forall i | start <= i < dst.Length {
      dst[i] := 0;
    }
  }

  // What the two goroutines share: the file, the atomic `used`, the one-slot channels.
  class SharedRing {
    const c: Config
    const file: array<byte>
    var used: int
    var pageFreed: bool
    var wakeup: bool
    var closeCh: bool            // Close has been called
    ghost var at: nat            // the sweeper's head as a page number
    ghost var groups: seq<Group> // committed groups, oldest first

    constructor (c: Config)
      requires BufferMachine.Valid(c)
      ensures this.c == c && fresh(file) && groups == [] && !closeCh && Owned(0, [])
    {
      this.c := c;
      file := new byte[c.m * c.p](_ => 0);
      used, pageFreed, wakeup, closeCh, at, groups := 0, false, false, false, 0, [];
      new;
      RingInit(c, file[..]);
    }

    ghost predicate Owned(wHead: nat, inflight: seq<Page>)
      reads this, file
    {
      BufferMachine.Valid(c) && OwnedBy(c, file[..], used, at, wHead, groups, inflight)
    }

    ghost function Patience(): nat
      reads this
    {
      2 * |groups| + (if pageFreed then 1 else 0)
    }

    // The select on pageFreed and closeCh while there is no room. The contract is all the writer
    // relies on: the sweeper may rewrite committed pages and release groups, never more. With no
    // token pending this sweeper is silent, so that only closeCh can be ready.
    method AwaitPageFreed(ghost wHead: nat, ghost inflight: seq<Page>) returns (closed: bool)
      requires Owned(wHead, inflight)
      modifies this`used, this`pageFreed, this`closeCh, this`at, this`groups, file
      ensures Owned(wHead, inflight) && used <= old(used) && (old(closeCh) ==> closeCh)
      ensures if closed then closeCh else Patience() < old(Patience())
    {
      hide OwnedBy;
      closed := *;
      if pageFreed && !closed {
        pageFreed := false;
      } else {
        closed, closeCh := true, true;
      }
    }

    // The writer's turn while the sweeper is parked. The contract is all the sweeper relies on: new
    // groups may appear behind the committed ones, which stay as they are. This writer is silent.
    method WriterRuns(ghost wHead: nat, ghost inflight: seq<Page>)
      returns (ghost wHead': nat, ghost inflight': seq<Page>, ghost added: seq<Group>)
      requires Owned(wHead, inflight)
      modifies this`used, this`wakeup, this`groups, file
      ensures Owned(wHead', inflight') && groups == old(groups) + added
    {
      hide OwnedBy;
      wakeup := false;
      wHead', inflight', added := wHead, inflight, [];
      assert groups + [] == groups;
    }

    // used.Add and the signal to the sweeper.
    method Publish(ghost wHead: nat, ghost inflight: seq<Page>, n: nat, ghost g: Group)
      requires Owned(wHead, inflight) && n == |inflight| && GroupOk(c, g.recs) && inflight == GroupPages(c, g.recs)
      modifies this`used, this`wakeup, this`groups
      ensures Owned(wHead, []) && groups == old(groups) + [g] && used == old(used) + n * c.p && wakeup
    {
      hide RingOk, GroupOk;
      RingCommit(c, file[..], used, at, at * c.p, wHead, groups, inflight, g);
      used, wakeup, groups := used + n * c.p, true, groups + [g];
    }

    // WriteAt of one page at the write head, which lies behind everything committed or in flight.
    method WriteAt(page: array<byte>, wHead: nat, ghost inflight: seq<Page>)
      requires Owned(wHead, inflight) && page != file && page.Length == c.p
      requires used + (|inflight| + 1) * c.p <= MaxBytes(c)
      modifies file
      ensures Owned(Moved(c, wHead, 1), inflight + [page[..]])
    {
      hide Flat, GroupOk, Moved, Overwrite, Region;
      RingRoom(c, file[..], used, at, at * c.p, wHead, groups, inflight, |inflight| + 1);
      RingWrite(c, file[..], used, at, at * c.p, wHead, groups, inflight, page[..]);
      PageInFile(Wrap(at, |Flat(c, groups)| + |inflight|, c.m), c.m, c.p);
      var n := Copy(file, wHead, page[..]);
      assert page[..][..n] == page[..];
    }

    // ReadAt of n bytes of the file into dst.
    method ReadFrom(dst: array<byte>, to: nat, off: nat, n: nat)
      requires dst != file && to + n <= dst.Length && off + n <= file.Length
      modifies dst
      ensures dst[..] == Overwrite(old(dst[..]), to, file[off..off + n])
    {
      var m := Copy(dst, to, file[off..off + n]);
      assert file[off..off + n][..m] == file[off..off + n];
    }

    // WriteAt of the head page after a pass over it; `recs` is what the group then holds.
    method WriteBack(page: array<byte>, rHead: nat, ghost recs: seq<Tagged>, ghost wHead: nat, ghost inflight: seq<Page>)
      requires Owned(wHead, inflight) && groups != [] && page != file && page.Length == c.p && rHead == HeadOf(c, at)
      requires GroupOk(c, recs) && |GroupPages(c, groups[0].recs)| > 0
      requires GroupPages(c, recs) == GroupPages(c, groups[0].recs)[0 := page[..]]
      modifies file, this`groups
      ensures Owned(wHead, inflight)
      ensures file[..] == Put(old(file[..]), rHead, page[..])
      ensures groups == old(groups)[0 := old(groups)[0].(recs := recs)]
    {
      hide OwnedBy, GroupOk, GroupPages, Put, HeadOf;
      OwnedWriteBack(c, file[..], used, at, wHead, groups, inflight, page[..], recs);
      PutPage(file, rHead, page);
      groups := groups[0 := groups[0].(recs := recs)];
    }

    // used.Add of a negative amount, and the signal to the writer.
    method Release(n: nat, ghost wHead: nat, ghost inflight: seq<Page>)
      requires Owned(wHead, inflight) && groups != [] && n == |GroupPages(c, groups[0].recs)|
      modifies this`used, this`at, this`groups, this`pageFreed
      ensures Owned(wHead, inflight) && pageFreed
      ensures used == old(used) - n * c.p && groups == old(groups)[1..]
      ensures HeadOf(c, at) == Moved(c, HeadOf(c, old(at)), n)
    {
      hide OwnedBy, Moved, GroupPages, NextPage, HeadOf;
      OwnedRelease(c, file[..], used, at, wHead, groups, inflight, n);
      at, used, groups, pageFreed := NextPage(c, at, n), used - n * c.p, groups[1..], true;
    }
  }

  // Ring ownership of a file image between its two users.
  predicate OwnedBy(c: Config, file: seq<byte>, used: int, at: nat, wHead: nat, groups: seq<Group>, inflight: seq<Page>)
    requires BufferMachine.Valid(c)
  {
    && RingOk(c, file, used, at, at * c.p, wHead, groups, inflight)
    && forall i :: 0 <= i < |groups| ==> GroupOk(c, groups[i].recs)
  }

  // Byte offset of a page number.
  function HeadOf(c: Config, at: nat): nat
  {
    at * c.p
  }

  // The page n pages further round the ring.
  function NextPage(c: Config, at: nat, n: nat): nat
    requires BufferMachine.Valid(c)
  {
    (at + n) % c.m
  }

  lemma OwnedWriteBack(c: Config, file: seq<byte>, used: int, at: nat, wHead: nat, groups: seq<Group>,
                       inflight: seq<Page>, page: Page, recs: seq<Tagged>)
    requires BufferMachine.Valid(c) && OwnedBy(c, file, used, at, wHead, groups, inflight)
    requires groups != [] && |page| == c.p && GroupOk(c, recs) && |GroupPages(c, groups[0].recs)| > 0
    requires GroupPages(c, recs) == GroupPages(c, groups[0].recs)[0 := page]
    ensures HeadOf(c, at) + c.p <= |file|
    ensures OwnedBy(c, Put(file, HeadOf(c, at), page), used, at, wHead, groups[0 := groups[0].(recs := recs)], inflight)
  {
    hide GroupPages, GroupOk, Moved, Put, Region, Flat;
    RingWriteBack(c, file, used, at, at * c.p, wHead, groups, inflight, recs, page);
    PageInFile(at, c.m, c.p);
  }

  lemma OwnedRelease(c: Config, file: seq<byte>, used: int, at: nat, wHead: nat, groups: seq<Group>,
                     inflight: seq<Page>, n: nat)
    requires BufferMachine.Valid(c) && OwnedBy(c, file, used, at, wHead, groups, inflight)
    requires groups != [] && n == |GroupPages(c, groups[0].recs)|
    ensures HeadOf(c, NextPage(c, at, n)) == Moved(c, HeadOf(c, at), n)
    ensures OwnedBy(c, file, used - n * c.p, NextPage(c, at, n), wHead, groups[1..], inflight)
  {
    hide GroupPages, GroupOk, Moved, RingOk;
    RingRelease(c, file, used, at, at * c.p, wHead, groups, inflight, n);
    RoomForHead(c, file, used, at, wHead, groups, inflight);
    MovedIsWrap(c, at, n);
    WrapIsMod(at, n, c.m);
  }

  lemma RoomForHead(c: Config, file: seq<byte>, used: int, at: nat, wHead: nat, groups: seq<Group>, inflight: seq<Page>)
    requires BufferMachine.Valid(c) && RingOk(c, file, used, at, at * c.p, wHead, groups, inflight) && groups != []
    ensures at < c.m && |GroupPages(c, groups[0].recs)| <= c.m
    ensures |GroupPages(c, groups[0].recs)| * c.p <= used
  {
    hide GroupPages, Region, Moved;
    FlatHead(c, groups);
    RingRoom(c, file, used, at, at * c.p, wHead, groups, inflight, |GroupPages(c, groups[0].recs)|);
  }
}
