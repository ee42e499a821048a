// The buffer file as a ring of fixed-size pages addressed by byte offsets.
module Ring {
  import opened Bytes
  import opened Records
  import opened PageCodec

  type Page = seq<byte>

  function PageAt(file: seq<byte>, p: nat, k: nat): (s: Page)
    requires k * p + p <= |file|
    ensures |s| == p
  {
    file[k * p..k * p + p]
  }

  lemma PageInFile(k: nat, m: nat, p: nat)
    requires k < m
    ensures k * p + p <= m * p
  {
    ChunkFits(k, m, p);
  }

  // A page write is read back at its own offset and nowhere else.
  lemma WriteThenRead(file: seq<byte>, p: nat, m: nat, k: nat, j: nat, page: Page)
    requires |file| == m * p && k < m && j < m && |page| == p
    ensures k * p + p <= |file| && j * p + p <= |file|
    ensures PageAt(Overwrite(file, k * p, page), p, j) == if j == k then page else PageAt(file, p, j)
  {
    PageInFile(k, m, p);
    PageInFile(j, m, p);
    if j < k {
      ChunkFits(j, k, p);
    } else if k < j {
      ChunkFits(k, j, p);
    }
  }

  // Ring position i pages after position r.
  function Wrap(r: nat, i: nat, m: nat): (k: nat)
    requires r < m && i <= m
    ensures k < m
  {
    if r + i < m then r + i else r + i - m
  }

  // The n pages starting at ring position r.
  function Region(file: seq<byte>, p: nat, m: nat, r: nat, n: nat): (s: seq<Page>)
    requires |file| == m * p && r < m && n <= m
    ensures |s| == n
  {
    seq(n, i requires 0 <= i < n => RegionPage(file, p, m, r, i))
  }

  function RegionPage(file: seq<byte>, p: nat, m: nat, r: nat, i: nat): (s: Page)
    requires |file| == m * p && r < m && i <= m
    ensures |s| == p
  {
    PageInFile(Wrap(r, i, m), m, p);
    PageAt(file, p, Wrap(r, i, m))
  }

  // Writing the page just behind a region extends the region and keeps what it held.
  lemma WriteFreePage(file: seq<byte>, p: nat, m: nat, r: nat, n: nat, page: Page)
    requires |file| == m * p && r < m && n < m && |page| == p
    ensures Wrap(r, n, m) * p + p <= |file|
    ensures Region(Overwrite(file, Wrap(r, n, m) * p, page), p, m, r, n + 1)
         == Region(file, p, m, r, n) + [page]
  {
    var k := Wrap(r, n, m);
    PageInFile(k, m, p);
    forall i | 0 <= i <= n
      ensures RegionPage(Overwrite(file, k * p, page), p, m, r, i)
           == if i == n then page else RegionPage(file, p, m, r, i)
    {
      hide Overwrite;
      WriteThenRead(file, p, m, k, Wrap(r, i, m), page);
    }
  }

  // Writing back the first page of a region replaces that page only.
  lemma WriteFirstPage(file: seq<byte>, p: nat, m: nat, r: nat, n: nat, page: Page)
    requires |file| == m * p && r < m && 1 <= n <= m && |page| == p
    ensures r * p + p <= |file|
    ensures Region(Overwrite(file, r * p, page), p, m, r, n) == Region(file, p, m, r, n)[0 := page]
  {
    PageInFile(r, m, p);
    forall i | 0 <= i < n
      ensures RegionPage(Overwrite(file, r * p, page), p, m, r, i)
           == if i == 0 then page else RegionPage(file, p, m, r, i)
    {
      hide Overwrite;
      WriteThenRead(file, p, m, r, Wrap(r, i, m), page);
    }
  }

  // Moving the start of a region forward drops its first pages.
  lemma DropPages(file: seq<byte>, p: nat, m: nat, r: nat, n: nat, k: nat)
    requires |file| == m * p && r < m && k <= n <= m
    ensures Region(file, p, m, Wrap(r, k, m), n - k) == Region(file, p, m, r, n)[k..]
    ensures Wrap(Wrap(r, k, m), n - k, m) == Wrap(r, n, m)
  {
  }

  // Head arithmetic in bytes: advancing modulo the file size stays page-aligned.
  lemma Advance(r: nat, k: nat, m: nat, p: nat)
    requires r < m && k <= m && p > 0
    ensures m * p > 0
    ensures (r * p + k * p) % (m * p) == Wrap(r, k, m) * p < m * p
  {
    var w := Wrap(r, k, m);
    TimesMonotone(1, m, p);
    PageInFile(w, m, p);
    assert r * p + k * p == (r + k) * p;
    if r + k < m {
      SmallMod(w * p, m * p);
    } else {
      assert (r + k) * p == w * p + m * p by {
        assert (w + m) * p == w * p + m * p;
      }
      SmallMod(w * p, m * p);
      ModPlus(w * p, m * p);
    }
  }

  lemma SmallMod(a: nat, b: nat)
    requires a < b
    ensures a % b == a
  {
  }

  lemma ModPlus(a: nat, b: nat)
    requires a < b
    ensures (a + b) % b == a
  {
    var q := (a + b) / b;
    assert a + b == q * b + (a + b) % b;
    if q >= 2 {
      TimesMonotone(2, q, b);
    }
  }

  // Room checks in bytes are room checks in pages.
  lemma RoomInPages(used: nat, n: nat, m: nat, p: nat)
    requires p > 0
    ensures used * p + n * p <= m * p <==> used + n <= m
    ensures used * p == 0 <==> used == 0
    ensures n * p <= used * p <==> n <= used
  {
    if used + n <= m {
      TimesMonotone(used + n, m, p);
    } else {
      TimesMonotone(m + 1, used + n, p);
    }
    if n <= used {
      TimesMonotone(n, used, p);
    } else {
      TimesMonotone(used + 1, n, p);
    }
  }
}
