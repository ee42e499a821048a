// The interest index of the span buffer: which trace IDs have a keep decision and when it came.
module Interest {
  datatype Entry<K> = Entry(id: K, addedAt: int)
  datatype Option<T> = None | Some(value: T)

  // ---- The index as a value ----

  type Index<K> = map<K, int>

  // Entries go once they are at least two decision windows old.
  function Prune<K(==, !new)>(m: Index<K>, now: int, wait: int): Index<K>
  {
    map tid | tid in m && now - m[tid] < 2 * wait :: m[tid]
  }

  predicate Has<K(==, !new)>(m: Index<K>, tid: K, now: int, wait: int)
  {
    tid in m && now - m[tid] < wait
  }

  // Was the decision taken before the retention window of a span inserted at `at` closed?
  predicate HasForSpan<K(==, !new)>(m: Index<K>, tid: K, at: int, wait: int)
  {
    tid in m && m[tid] < at + wait
  }

  // ---- The unpruned history of AddInterest calls, oldest first ----

  function Latest<K(==, !new)>(h: seq<Entry<K>>, tid: K): Option<int>
  {
    if h == [] then None
    else if h[|h| - 1].id == tid then Some(h[|h| - 1].addedAt)
    else Latest(h[..|h| - 1], tid)
  }

  lemma LatestAppend<K(!new)>(h: seq<Entry<K>>, e: Entry, tid: K)
    ensures Latest(h + [e], tid) == if e.id == tid then Some(e.addedAt) else Latest(h, tid)
  {
    assert (h + [e])[..|h|] == h;
  }

  // The pruned index agrees with the history, and what it lacks is at least 2*wait old.
  ghost predicate Refines<K(!new)>(m: Index<K>, h: seq<Entry<K>>, now: int, wait: int)
  {
    && (forall tid :: tid in m ==> m[tid] <= now && Latest(h, tid) == Some(m[tid]))
    && (forall tid {:trigger Latest(h, tid)} ::
          tid !in m && Latest(h, tid).Some? ==> now - Latest(h, tid).value >= 2 * wait)
  }

  // One AddInterest call: prune as of `t1`, then insert or renew as of `t2`.
  lemma AddRefines<K(!new)>(m: Index<K>, h: seq<Entry<K>>, now: int, wait: int, tid: K, t1: int, t2: int)
    requires wait > 0 && Refines(m, h, now, wait) && now <= t1 <= t2
    ensures Refines(Prune(m, t1, wait)[tid := t2], h + [Entry(tid, t2)], t2, wait)
  {
    var h' := h + [Entry(tid, t2)];
    forall u ensures Latest(h', u) == if u == tid then Some(t2) else Latest(h, u) {
      LatestAppend(h, Entry(tid, t2), u);
    }
  }

  lemma RefinesLater<K(!new)>(m: Index<K>, h: seq<Entry<K>>, now: int, wait: int, later: int)
    requires Refines(m, h, now, wait) && now <= later
    ensures Refines(m, h, later, wait)
  {
  }

  // HasInterest answers from the whole history: the latest decision is younger than the window.
  lemma HasMeansRecentDecision<K(!new)>(m: Index<K>, h: seq<Entry<K>>, now: int, wait: int, tid: K, t: int)
    requires wait > 0 && Refines(m, h, now, wait) && now <= t
    ensures Has(m, tid, t, wait) <==> Latest(h, tid).Some? && t - Latest(h, tid).value < wait
  {
    var l := Latest(h, tid);
  }

  // Some decision for the trace was taken inside the span's retention window.
  ghost predicate DecidedInTime<K(!new)>(h: seq<Entry<K>>, tid: K, at: int, wait: int)
  {
    exists i :: 0 <= i < |h| && h[i].id == tid && h[i].addedAt < at + wait
  }

  // No decision for the trace was taken (or renewed) at or after the end of the span's window.
  ghost predicate NotRenewedLate<K(!new)>(h: seq<Entry<K>>, tid: K, at: int, wait: int)
  {
    forall i :: 0 <= i < |h| && h[i].id == tid ==> h[i].addedAt < at + wait
  }

  ghost predicate InTimeOrder<K(!new)>(h: seq<Entry<K>>)
  {
    forall i, j :: 0 <= i <= j < |h| ==> h[i].addedAt <= h[j].addedAt
  }

  lemma {:induction false} LatestIsLast<K(!new)>(h: seq<Entry<K>>, tid: K)
    requires InTimeOrder(h)
    ensures Latest(h, tid).Some? <==> exists i :: 0 <= i < |h| && h[i].id == tid
    ensures Latest(h, tid).Some? ==> exists i :: 0 <= i < |h| && h[i] == Entry(tid, Latest(h, tid).value)
    ensures Latest(h, tid).Some? ==> forall i :: 0 <= i < |h| && h[i].id == tid ==> h[i].addedAt <= Latest(h, tid).value
  {
    if h != [] {
      var n := |h| - 1;
      LatestIsLast(h[..n], tid);
      if h[n].id != tid {
        forall i | 0 <= i < |h| && h[i].id == tid ensures h[..n][i] == h[i] {}
        if Latest(h, tid).Some? {
          var i :| 0 <= i < n && h[..n][i] == Entry(tid, Latest(h, tid).value);
          assert h[i] == Entry(tid, Latest(h, tid).value);
        }
      }
    }
  }

  // Exactly when a span for which a decision came in time is recognised: the decision was not
  // renewed at or after the end of the span's window, and its entry has not been pruned.
  lemma InTimeDecisionHonoured<K(!new)>(m: Index<K>, h: seq<Entry<K>>, now: int, wait: int, tid: K, at: int)
    requires wait > 0 && Refines(m, h, now, wait) && InTimeOrder(h) && DecidedInTime(h, tid, at, wait)
    ensures Latest(h, tid).Some?
    ensures HasForSpan(m, tid, at, wait) <==> tid in m && NotRenewedLate(h, tid, at, wait)
    ensures now - Latest(h, tid).value < 2 * wait ==> tid in m
  {
    LatestIsLast(h, tid);
  }

  // The latest decision does not cover the span, or came so long ago that it may be pruned.
  ghost predicate NoStandingDecision<K(!new)>(h: seq<Entry<K>>, now: int, tid: K, at: int, wait: int)
  {
    var l := Latest(h, tid);
    l.Some? && l.value < at + wait ==> now - l.value >= 2 * wait
  }

  lemma NotInterestingMeans<K(!new)>(m: Index<K>, h: seq<Entry<K>>, now: int, wait: int, tid: K, at: int)
    requires wait > 0 && Refines(m, h, now, wait) && !HasForSpan(m, tid, at, wait)
    ensures NoStandingDecision(h, now, tid, at, wait)
  {
    var l := Latest(h, tid);
  }

  lemma NoDecisionNoInterest<K(!new)>(m: Index<K>, h: seq<Entry<K>>, now: int, wait: int, tid: K, at: int)
    requires wait > 0 && Refines(m, h, now, wait) && InTimeOrder(h) && HasForSpan(m, tid, at, wait)
    ensures DecidedInTime(h, tid, at, wait)
  {
    LatestIsLast(h, tid);
  }

  // By `time` the trace was decided, inside the span's window and less than two windows ago, and no
  // later decision up to then came after the window had closed.
  ghost predicate Standing<K(!new)>(h: seq<Entry<K>>, tid: K, at: int, wait: int, time: int)
  {
    && (exists i :: 0 <= i < |h| && h[i].id == tid && h[i].addedAt < time && h[i].addedAt < at + wait && time - h[i].addedAt < 2 * wait)
    && (forall i :: 0 <= i < |h| && h[i].id == tid && h[i].addedAt <= time ==> h[i].addedAt < at + wait)
  }

  // Whoever knows everything decided before `time`, and nothing decided after it, sees it standing.
  lemma StandingIsSeen<K(!new)>(h: seq<Entry<K>>, n: nat, tid: K, at: int, wait: int, time: int)
    requires n <= |h| && InTimeOrder(h) && Standing(h, tid, at, wait, time)
    requires forall i :: 0 <= i < n ==> h[i].addedAt <= time
    requires forall i :: n <= i < |h| ==> h[i].addedAt >= time
    ensures !NoStandingDecision(h[..n], time, tid, at, wait)
  {
    LatestIsLast(h[..n], tid);
    var i :| 0 <= i < |h| && h[i].id == tid && h[i].addedAt < time && h[i].addedAt < at + wait && time - h[i].addedAt < 2 * wait;
    assert h[..n][i] == h[i];
    var j :| 0 <= j < n && h[..n][j] == Entry(tid, Latest(h[..n], tid).value);
    assert h[j] == h[..n][j];
  }

  // A decision in time, renewed once the window has closed, is forgotten for the span.
  lemma RenewalForgetsInTimeDecision<K(!new)>(tid: K)
    ensures exists m: Index<K>, h: seq<Entry<K>>, now: int, wait: int, at: int ::
              && wait > 0 && Refines(m, h, now, wait) && DecidedInTime(h, tid, at, wait)
              && tid in m && !HasForSpan(m, tid, at, wait)
  {
    var wait, at := 10, 0;
    var h1, h2 := [Entry(tid, 5)], [Entry(tid, 5), Entry(tid, 11)];
    var m0: Index<K>, h0: seq<Entry<K>> := map[], [];
    assert Refines(m0, h0, 5, wait);
    AddRefines(m0, h0, 5, wait, tid, 5, 5);
    assert h0 + [Entry(tid, 5)] == h1;
    var m1 := Prune(m0, 5, wait)[tid := 5];
    AddRefines(m1, h1, 5, wait, tid, 11, 11);
    assert h1 + [Entry(tid, 11)] == h2;
    var m2 := Prune(m1, 11, wait)[tid := 11];
    assert h2[0].addedAt < at + wait;
    assert DecidedInTime(h2, tid, at, wait);
    assert Refines(m2, h2, 11, wait) && !HasForSpan(m2, tid, at, wait);
  }

  // ---- The index as the source keeps it: list elements shared by a list and a map ----

  // A non-decreasing clock; every read may be later than the one before.
  class Clock {
    var now: int

    constructor (start: int)
      ensures now == start
    {
      now := start;
    }

    method Read() returns (t: int)
      modifies this
      ensures t == now >= old(now)
    {
      var later :| 0 <= later;
      now := now + later;
      t := now;
    }
  }

  class Element<K(==, !new)> {
    const id: K
    var addedAt: int

    constructor (id: K, addedAt: int)
      ensures this.id == id && this.addedAt == addedAt
    {
      this.id := id;
      this.addedAt := addedAt;
    }
  }

  class InterestIndex<K(==, !new)> {
    var list: seq<Element<K>>
    var index: map<K, Element<K>>
    const wait: int
    const clock: Clock
    ghost var ids: seq<K> // the IDs of the list, newest first
    ghost var times: Index<K> // the contents of the index as a value

    // List and map hold the same elements, once each, newest first, none from the future.
    ghost predicate Valid()
      reads this, clock, list
    {
      && wait > 0
      && Listed(ids, times)
      && (forall tid :: tid in times ==> times[tid] <= clock.now)
      && times.Keys == index.Keys
      && |ids| == |list|
      && (forall i :: 0 <= i < |ids| ==> ids[i] in index && index[ids[i]] == list[i])
      && (forall i :: 0 <= i < |ids| ==> list[i].id == ids[i] && list[i].addedAt == times[ids[i]])
    }

    constructor (wait: int, clock: Clock)
      requires wait > 0
      ensures Valid() && times == map[]
      ensures this.wait == wait && this.clock == clock
    {
      list, index, ids, times := [], map[], [], map[];
      this.wait := wait;
      this.clock := clock;
    }

    method HasInterest(tid: K) returns (yes: bool)
      requires Valid()
      modifies clock
      ensures Valid() && old(clock.now) <= clock.now
      ensures yes == Has(times, tid, clock.now, wait)
    {
      if tid !in index {
        return false;
      }
      var t := clock.Read();
      yes := t - index[tid].addedAt < wait;
    }

    method HasInterestForSpan(tid: K, insertedAt: int) returns (yes: bool)
      requires Valid()
      ensures yes == HasForSpan(times, tid, insertedAt, wait)
    {
      if tid !in index {
        return false;
      }
      yes := index[tid].addedAt < insertedAt + wait;
    }

    // list.Remove(back) and delete(map, id).
    method RemoveBack()
      requires Valid() && |list| > 0
      modifies this`list, this`index, this`ids, this`times
      ensures Valid()
      ensures ids == old(ids)[..|old(ids)| - 1] && list == old(list)[..|old(list)| - 1]
      ensures times == old(times) - {old(ids)[|old(ids)| - 1]}
    {
      hide Listed;
      var e := list[|list| - 1];
      index := index - {e.id};
      list := list[..|list| - 1];
      ListedPop(ids, times);
      times := times - {e.id};
      ids := ids[..|ids| - 1];
    }

    // Each round reads the clock again. Because reads never go back and the list is sorted, the
    // result is what one pruning at the time of the last read would leave.
    method PruneInterest() returns (ghost t: int)
      requires Valid()
      modifies this`list, this`index, this`ids, this`times, clock
      ensures Valid() && old(clock.now) <= t == clock.now
      ensures ids <= old(ids) && list <= old(list)
      ensures times == Prune(old(times), t, wait)
    {
      hide Listed, Prune;
      t := clock.now;
      while |list| > 0
        invariant Valid() && ids <= old(ids) && list <= old(list) && old(clock.now) <= t == clock.now
        invariant times.Keys <= old(times).Keys && forall tid :: tid in times ==> times[tid] == old(times)[tid]
        invariant forall tid :: tid in old(times) && tid !in times ==> t - old(times)[tid] >= 2 * wait
        decreases |list|
      {
        var e := list[|list| - 1];
        var now := clock.Read();
        t := now;
        if now - e.addedAt < 2 * wait {
          Pruned(old(times), times, ids, now, wait);
          return;
        }
        RemoveBack();
      }
      Pruned(old(times), times, ids, t, wait);
    }

    method AddInterest(tid: K) returns (ghost t: int)
      requires Valid()
      modifies this, list, clock
      ensures Valid() && old(clock.now) <= t <= clock.now
      ensures times == Prune(old(times), t, wait)[tid := clock.now]
      ensures forall e :: e in list ==> e in old(list) || fresh(e)
    {
      hide Listed;
      t := PruneInterest();
      if tid in index {
        Renew(tid);
      } else {
        Insert(tid);
      }
    }

    method Renew(tid: K)
      requires Valid() && tid in index
      modifies this`list, this`ids, this`times, list, clock
      ensures Valid() && old(clock.now) <= clock.now
      ensures times == old(times)[tid := clock.now]
      ensures forall e :: e in list ==> e in old(list)
    {
      hide Listed, ToFront;
      var el := index[tid];
      ListedAt(ids, times, tid);
      var i :| 0 <= i < |list| && list[i] == el;
      var now := clock.Read();
      ListedToFront(ids, times, i, now);
      assert list[i] == el && ids[i] == tid;
      SameElements(list, i);
      list := ToFront(list, i);
      ids := ToFront(ids, i);
      el.addedAt := now;
      times := times[tid := now];
    }

    method Insert(tid: K)
      requires Valid() && tid !in index
      modifies this`list, this`index, this`ids, this`times, clock
      ensures Valid() && old(clock.now) <= clock.now
      ensures times == old(times)[tid := clock.now]
      ensures forall e :: e in list ==> e in old(list) || fresh(e)
    {
      hide Listed;
      var now := clock.Read();
      var el := new Element(tid, now);
      list := [el] + list;
      index := index[tid := el];
      ListedPush(ids, times, tid, now);
      ids := [tid] + ids;
      times := times[tid := now];
    }
  }

  // The list holds exactly the IDs of the index, once each, newest first.
  ghost predicate Listed<K(!new)>(ids: seq<K>, m: Index<K>)
  {
    && (forall tid :: tid in m <==> tid in ids)
    && (forall i, j :: 0 <= i < j < |ids| ==> ids[i] != ids[j])
    && (forall i, j :: 0 <= i < j < |ids| ==> m[ids[i]] >= m[ids[j]])
  }

  lemma ListedOldest<K(!new)>(ids: seq<K>, m: Index<K>)
    requires Listed(ids, m)
    ensures forall tid :: tid in m ==> |ids| > 0 && m[ids[|ids| - 1]] <= m[tid]
  {
  }

  // When the oldest remaining entry is young enough, exactly the old ones are gone.
  lemma Pruned<K(!new)>(before: Index<K>, after: Index<K>, ids: seq<K>, t: int, wait: int)
    requires Listed(ids, after) && after.Keys <= before.Keys && forall tid :: tid in after ==> after[tid] == before[tid]
    requires forall tid :: tid in before && tid !in after ==> t - before[tid] >= 2 * wait
    requires |ids| > 0 ==> t - after[ids[|ids| - 1]] < 2 * wait
    ensures after == Prune(before, t, wait)
  {
    ListedOldest(ids, after);
  }

  lemma ListedAt<K(!new)>(ids: seq<K>, m: Index<K>, tid: K)
    requires Listed(ids, m) && tid in m
    ensures exists i :: 0 <= i < |ids| && ids[i] == tid
    ensures forall i, j :: 0 <= i < |ids| && 0 <= j < |ids| && ids[i] == ids[j] ==> i == j
  {
  }

  lemma ListedPop<K(!new)>(ids: seq<K>, m: Index<K>)
    requires Listed(ids, m) && |ids| > 0
    ensures Listed(ids[..|ids| - 1], m - {ids[|ids| - 1]})
    ensures forall i :: 0 <= i < |ids| - 1 ==> ids[i] != ids[|ids| - 1]
  {
  }

  lemma ListedPush<K(!new)>(ids: seq<K>, m: Index<K>, tid: K, now: int)
    requires Listed(ids, m) && tid !in m && forall u :: u in m ==> m[u] <= now
    ensures Listed([tid] + ids, m[tid := now])
  {
  }

  // Where the k-th element came from when the i-th was moved to the front.
  function Source(i: nat, k: nat): nat
  {
    if k == 0 then i else if k <= i then k - 1 else k
  }

  lemma ListedToFront<K(!new)>(ids: seq<K>, m: Index<K>, i: nat, now: int)
    requires Listed(ids, m) && i < |ids| && forall u :: u in m ==> m[u] <= now
    ensures Listed(ToFront(ids, i), m[ids[i] := now])
  {
    var r, m' := ToFront(ids, i), m[ids[i] := now];
    SameElements(ids, i);
    forall k: nat | k < |r| ensures r[k] == ids[Source(i, k)] {
    }
    hide ToFront;
    forall a: nat, b: nat | a < b < |r| ensures r[a] != r[b] && m'[r[a]] >= m'[r[b]] {
      FrontPair(ids, m, i, now, a, b);
    }
  }

  // Two elements of the reordered list still differ and are still in order.
  lemma FrontPair<K(!new)>(ids: seq<K>, m: Index<K>, i: nat, now: int, a: nat, b: nat)
    requires Listed(ids, m) && i < |ids| && a < b < |ids| && forall u :: u in m ==> m[u] <= now
    ensures ids[Source(i, a)] != ids[Source(i, b)]
    ensures ids[Source(i, a)] in m && ids[Source(i, b)] in m
    ensures m[ids[i] := now][ids[Source(i, a)]] >= m[ids[i] := now][ids[Source(i, b)]]
  {
    var x, y := Source(i, a), Source(i, b);
    assert x != y;
    if a > 0 {
      assert x < y;
    }
  }

  lemma SameElements<T>(s: seq<T>, i: nat)
    requires i < |s|
    ensures forall e :: e in ToFront(s, i) <==> e in s
  {
    assert s == s[..i] + [s[i]] + s[i + 1..];
  }

  function ToFront<T>(s: seq<T>, i: nat): (r: seq<T>)
    requires i < |s|
    ensures |r| == |s| && r[0] == s[i]
    ensures forall k :: 1 <= k < |s| ==> r[k] == s[if k <= i then k - 1 else k]
    ensures forall j :: 0 <= j < |s| ==> s[j] == r[if j == i then 0 else if j < i then j + 1 else j]
  {
    [s[i]] + s[..i] + s[i + 1..]
  }
}
