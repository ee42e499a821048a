// How a coordinator decides once: the single node's cache, the shared Redis store, the proxy and
// the collector's client (memory, redis and proxy pubsub.go, client.go).
module PubSub {
  import opened Bytes

  type Id = seq<byte>

  // A decision that was published, and when.
  datatype Decision = Decision(id: Id, at: int)

  // Until when each ID counts as decided.
  type Store = map<Id, int>

  predicate Decided(store: Store, id: Id, now: int)
  {
    id in store && now < store[id]
  }

  // The log agrees with the store: equal IDs are a TTL apart, and the store knows the last of each.
  ghost predicate LogOk(log: seq<Decision>, store: Store, ttl: nat, now: int)
  {
    Stored(log, store, ttl, now) && Spaced(log, ttl) && Known(log, store, ttl)
  }

  ghost predicate Stored(log: seq<Decision>, store: Store, ttl: nat, now: int)
  {
    forall i :: 0 <= i < |log| ==> log[i].at <= now && log[i].id in store && log[i].at + ttl <= store[log[i].id]
  }

  ghost predicate Spaced(log: seq<Decision>, ttl: nat)
  {
    forall i, j :: 0 <= i < j < |log| && log[i].id == log[j].id ==> log[i].at + ttl <= log[j].at
  }

  ghost predicate Known(log: seq<Decision>, store: Store, ttl: nat)
  {
    forall id :: id in store ==> KnownFrom(log, id, store[id] - ttl)
  }

  ghost predicate KnownFrom(log: seq<Decision>, id: Id, at: int)
  {
    exists i :: 0 <= i < |log| && log[i] == Decision(id, at)
  }

  lemma LogEmpty(ttl: nat, now: int)
    ensures LogOk([], map[], ttl, now)
  {
  }

  lemma LogLater(log: seq<Decision>, store: Store, ttl: nat, now: int, id: Id, at: int)
    requires LogOk(log, store, ttl, now) && now <= at && !Decided(store, id, at)
    ensures LogOk(log + [Decision(id, at)], store[id := at + ttl], ttl, at)
  {
    hide Stored, Spaced, Known;
    StoredLater(log, store, ttl, now, id, at);
    SpacedLater(log, store, ttl, now, id, at);
    KnownLater(log, store, ttl, id, at);
  }

  lemma StoredLater(log: seq<Decision>, store: Store, ttl: nat, now: int, id: Id, at: int)
    requires Stored(log, store, ttl, now) && now <= at && !Decided(store, id, at)
    ensures Stored(log + [Decision(id, at)], store[id := at + ttl], ttl, at)
  {
  }

  lemma SpacedLater(log: seq<Decision>, store: Store, ttl: nat, now: int, id: Id, at: int)
    requires Stored(log, store, ttl, now) && Spaced(log, ttl) && !Decided(store, id, at)
    ensures Spaced(log + [Decision(id, at)], ttl)
  {
  }

  lemma KnownLater(log: seq<Decision>, store: Store, ttl: nat, id: Id, at: int)
    requires Known(log, store, ttl)
    ensures Known(log + [Decision(id, at)], store[id := at + ttl], ttl)
  {
    var log', store' := log + [Decision(id, at)], store[id := at + ttl];
    forall u | u in store' ensures KnownFrom(log', u, store'[u] - ttl) {
      if u == id {
        assert log'[|log|] == Decision(u, at);
      } else {
        assert KnownFrom(log, u, store[u] - ttl);
        var i :| 0 <= i < |log| && log[i] == Decision(u, store[u] - ttl);
        assert log'[i] == log[i];
      }
    }
  }

  // A decision on the same trace that still holds at the time of the call.
  predicate Covers(d: Decision, call: Decision, ttl: nat)
  {
    d.id == call.id && d.at <= call.at && (call.at < d.at + ttl || call.at == d.at)
  }

  // Some broadcast in the log answers the call.
  ghost predicate Answered(log: seq<Decision>, call: Decision, ttl: nat)
  {
    exists j :: 0 <= j < |log| && Covers(log[j], call, ttl)
  }

  // A call that finds its ID decided is answered by an earlier broadcast.
  lemma DecidedIsAnswered(log: seq<Decision>, store: Store, ttl: nat, now: int, id: Id, at: int)
    requires LogOk(log, store, ttl, now) && now <= at && Decided(store, id, at)
    ensures LogOk(log, store, ttl, at) && Answered(log, Decision(id, at), ttl)
  {
    assert KnownFrom(log, id, store[id] - ttl);
    var i :| 0 <= i < |log| && log[i] == Decision(id, store[id] - ttl);
    assert Covers(log[i], Decision(id, at), ttl);
  }

  lemma NewIsAnswered(log: seq<Decision>, id: Id, at: int, ttl: nat)
    ensures Answered(log + [Decision(id, at)], Decision(id, at), ttl)
  {
    var log' := log + [Decision(id, at)];
    assert Covers(log'[|log|], Decision(id, at), ttl);
  }

  // One coordinator on its own: a cache of decided IDs whose entries expire.
  class MemoryPubSub {
    const ttl: nat
    var cache: Store
    var handled: seq<Decision>   // calls of the broadcast handler
    ghost var now: int

    ghost predicate Valid()
      reads this
    {
      LogOk(handled, cache, ttl, now)
    }

    constructor (ttl: nat, start: int)
      ensures Valid() && this.ttl == ttl && handled == [] && now == start
    {
      hide LogOk;
      LogEmpty(ttl, start);
      this.ttl := ttl;
      cache, handled, now := map[], [], start;
    }

    // cache.Add fails on an entry that has not expired.
    method Publish(id: Id, at: int) returns (novel: bool)
      requires Valid() && now <= at
      modifies this
      ensures Valid() && now == at
      ensures novel <==> !Decided(old(cache), id, at)
      ensures handled == if novel then old(handled) + [Decision(id, at)] else old(handled)
      ensures Answered(handled, Decision(id, at), ttl)
    {
      hide LogOk, Answered;
      if id in cache && at < cache[id] {
        DecidedIsAnswered(handled, cache, ttl, now, id, at);
        now := at;
        return false;
      }
      LogLater(handled, cache, ttl, now, id, at);
      NewIsAnswered(handled, id, at, ttl);
      now := at;
      cache := cache[id := at + ttl];
      handled := handled + [Decision(id, at)];
      novel := true;
    }

    // Over any calls in time order: no call goes unanswered (some broadcast of the same trace still
    // holds), and two broadcasts of the same trace are at least a TTL apart.
    method PublishAll(calls: seq<Decision>)
      requires Valid() && forall i :: 0 <= i < |calls| ==> now <= calls[i].at
      requires forall i, j :: 0 <= i < j < |calls| ==> calls[i].at <= calls[j].at
      modifies this
      ensures Valid() && old(handled) <= handled
      ensures forall i :: 0 <= i < |calls| ==> Answered(handled, calls[i], ttl)
      ensures forall i, j :: 0 <= i < j < |handled| && handled[i].id == handled[j].id ==> handled[i].at + ttl <= handled[j].at
    {
      hide LogOk, Answered;
      for n := 0 to |calls|
        invariant Valid() && old(handled) <= handled && forall i :: n <= i < |calls| ==> now <= calls[i].at
        invariant forall i :: 0 <= i < n ==> Answered(handled, calls[i], ttl)
      {
        ghost var before := handled;
        var novel := Publish(calls[n].id, calls[n].at);
        StillCovered(before, handled, calls, n, ttl);
      }
      LogSpaced(handled, cache, ttl, now);
    }
  }

  lemma StillCovered(before: seq<Decision>, after: seq<Decision>, calls: seq<Decision>, n: nat, ttl: nat)
    requires before <= after && n <= |calls|
    requires forall i :: 0 <= i < n ==> Answered(before, calls[i], ttl)
    ensures forall i :: 0 <= i < n ==> Answered(after, calls[i], ttl)
  {
    hide Covers;
    forall i | 0 <= i < n ensures Answered(after, calls[i], ttl) {
      var j :| 0 <= j < |before| && Covers(before[j], calls[i], ttl);
      assert after[j] == before[j];
    }
  }

  lemma LogSpaced(log: seq<Decision>, store: Store, ttl: nat, now: int)
    requires LogOk(log, store, ttl, now)
    ensures forall i, j :: 0 <= i < j < |log| && log[i].id == log[j].id ==> log[i].at + ttl <= log[j].at
  {
  }

  // ---- Several coordinators on one store ----

  class RedisStore {
    const ttl: nat
    var keys: Store
    var decisions: seq<Decision>   // history: every SET NX that set its key
    var channel: seq<Id>           // everything published
    ghost var now: int

    ghost predicate Valid()
      reads this
    {
      LogOk(decisions, keys, ttl, now)
    }

    constructor (ttl: nat, start: int)
      ensures Valid() && this.ttl == ttl && decisions == [] && channel == [] && now == start
    {
      hide LogOk;
      LogEmpty(ttl, start);
      this.ttl := ttl;
      keys, decisions, channel, now := map[], [], [], start;
    }

    method SetNX(id: Id, at: int) returns (ok: bool)
      requires Valid() && now <= at
      modifies this`keys, this`decisions, this`now
      ensures Valid() && now == at && (ok <==> !Decided(old(keys), id, at))
      ensures decisions == if ok then old(decisions) + [Decision(id, at)] else old(decisions)
      ensures keys == if ok then old(keys)[id := at + ttl] else old(keys)
    {
      hide LogOk;
      ok := !Decided(keys, id, at);
      if !ok {
        DecidedIsAnswered(decisions, keys, ttl, now, id, at);
        now := at;
      } else {
        LogLater(decisions, keys, ttl, now, id, at);
        now := at;
        keys := keys[id := at + ttl];
        decisions := decisions + [Decision(id, at)];
      }
    }
  }

  // How a command to the store ends: it never got there, it took effect but its reply was lost,
  // or it was answered.
  datatype Reply = NotSent | ReplyLost | Answer

  // One of the coordinators.
  class RedisPubSub {
    const store: RedisStore

    constructor (store: RedisStore)
      ensures this.store == store
    {
      this.store := store;
    }

    // SET NX, then PUBLISH. The ID goes on the channel exactly when the key was newly set, the
    // answer came back and the second command got through; the key stays whenever the first did.
    method Publish(id: Id, at: int, mark: Reply, pub: Reply) returns (novel: bool, err: bool)
      requires store.Valid() && store.now <= at
      modifies store
      ensures store.Valid() && store.now <= at
      ensures novel <==> mark.Answer? && !Decided(old(store.keys), id, at)
      ensures err <==> !mark.Answer? || (novel && !pub.Answer?)
      ensures store.channel == if novel && !pub.NotSent? then old(store.channel) + [id] else old(store.channel)
      ensures store.decisions == if !mark.NotSent? && !Decided(old(store.keys), id, at)
                                 then old(store.decisions) + [Decision(id, at)] else old(store.decisions)
      ensures !mark.NotSent? ==> Decided(store.keys, id, at) || store.ttl == 0
    {
      hide LogOk;
      if mark.NotSent? {
        return false, true;
      }
      var ok := store.SetNX(id, at);
      if mark.ReplyLost? {
        return false, true;
      }
      if !ok {
        return false, false;
      }
      if !pub.NotSent? {
        store.channel := store.channel + [id];
      }
      novel, err := true, !pub.Answer?;
    }
  }

  // When the key was set but the coordinator fails, or loses the answer, before the second
  // command, every retry by any coordinator is blocked for a whole TTL although nothing was
  // broadcast.
  method CrashBlocksRetry(a: RedisPubSub, b: RedisPubSub, id: Id, at: int, later: int, mark: Reply)
    returns (first: bool, again: bool)
    requires a.store == b.store && a.store.Valid() && a.store.now <= at <= later < at + a.store.ttl
    requires !Decided(a.store.keys, id, at) && !mark.NotSent?
    modifies a.store
    ensures (first <==> mark.Answer?) && !again && a.store.channel == old(a.store.channel)
  {
    var err, err2;
    first, err := a.Publish(id, at, mark, NotSent);
    KeyUntil(a.store.decisions, a.store.keys, a.store.ttl, a.store.now, |a.store.decisions| - 1);
    again, err2 := b.Publish(id, later, Answer, Answer);
  }

  lemma KeyUntil(log: seq<Decision>, store: Store, ttl: nat, now: int, i: nat)
    requires LogOk(log, store, ttl, now) && i < |log|
    ensures log[i].id in store && log[i].at + ttl <= store[log[i].id]
  {
  }

  // ---- A relay and a leaf ----

  const SEND_CAP: nat := 256

  // The proxy: notifications go up unchanged, decisions come down unchanged.
  class ProxyPubSub {
    var sendCh: seq<Id>
    var up: seq<Id>        // handed to the parent's stream
    var handled: seq<Id>   // calls of the broadcast handler
    ghost var queued: seq<Id>

    ghost predicate Valid()
      reads this
    {
      |sendCh| <= SEND_CAP && queued == up + sendCh
    }

    constructor ()
      ensures Valid() && queued == [] && handled == []
    {
      sendCh, up, handled, queued := [], [], [], [];
    }

    // Never novel here: the parent decides.
    method Publish(id: Id) returns (novel: bool)
      requires Valid()
      modifies this`sendCh, this`queued
      ensures Valid() && !novel
      ensures queued == if |old(sendCh)| < SEND_CAP then old(queued) + [id] else old(queued)
    {
      if |sendCh| < SEND_CAP {
        sendCh, queued := sendCh + [id], queued + [id];
      }
      novel := false;
    }

    method Send()
      requires Valid() && sendCh != []
      modifies this`sendCh, this`up
      ensures Valid() && queued == old(queued) && up == old(up) + [old(sendCh)[0]]
    {
      ghost var all := sendCh;
      up, sendCh := up + [sendCh[0]], sendCh[1..];
      assert all == [all[0]] + sendCh;
    }

    method Receive(batch: seq<Id>)
      modifies this`handled
      ensures handled == old(handled) + batch
    {
      for i := 0 to |batch|
        invariant handled == old(handled) + batch[..i]
      {
        handled := handled + [batch[i]];
        assert batch[..i + 1] == batch[..i] + [batch[i]];
      }
      assert batch[..|batch|] == batch;
    }
  }

  function Whole(batch: seq<Id>): seq<Id>
  {
    if batch == [] then []
    else Whole(batch[..|batch| - 1]) + (if |batch[|batch| - 1]| == 16 then [batch[|batch| - 1]] else [])
  }

  // The collector's client: only decisions whose ID has 16 bytes are handed on.
  class Client {
    var sendCh: seq<Id>
    var handled: seq<Id>

    constructor ()
      ensures sendCh == [] && handled == []
    {
      sendCh, handled := [], [];
    }

    method Notify(id: Id)
      requires |sendCh| <= SEND_CAP
      modifies this`sendCh
      ensures sendCh == if |old(sendCh)| < SEND_CAP then old(sendCh) + [id] else old(sendCh)
    {
      if |sendCh| < SEND_CAP {
        sendCh := sendCh + [id];
      }
    }

    method Receive(batch: seq<Id>)
      modifies this`handled
      ensures handled == old(handled) + Whole(batch)
    {
      for i := 0 to |batch|
        invariant handled == old(handled) + Whole(batch[..i])
      {
        assert batch[..i + 1][..i] == batch[..i];
        if |batch[i]| == 16 {
          handled := handled + [batch[i]];
        }
      }
      assert batch[..|batch|] == batch;
    }
  }
}
