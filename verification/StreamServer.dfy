// The coordinator's server side: one bounded queue and one batching sender per stream, and the
// broadcast to all of them (server.go).
module StreamServer {
  import opened Bytes

  type Id = seq<byte>

  const QUEUE_CAP: nat := 256
  const MAX_BATCH: nat := 256

  function Flat(batches: seq<seq<Id>>): seq<Id>
  {
    if batches == [] then [] else Flat(batches[..|batches| - 1]) + batches[|batches| - 1]
  }

  lemma FlatMore(batches: seq<seq<Id>>, batch: seq<Id>)
    ensures Flat(batches + [batch]) == Flat(batches) + batch
  {
    assert (batches + [batch])[..|batches|] == batches;
  }

  // What happens to the sender goroutine: an ID arrives in its queue or the queue is full, it
  // receives one, its timer fires, or the receive loop ends and closes `done`.
  datatype Event = Arrive(id: Id) | Receive | Timer | Disconnect | SeeDone

  class Stream {
    const key: nat
    var queue: seq<Id>
    var ids: seq<Id>          // the batch being assembled
    var sent: seq<seq<Id>>    // batches handed to the transport
    var registered: bool
    var done: bool            // closed once the stream is no longer registered
    var finished: bool        // the sender has returned
    var counted: nat          // this stream's share of the counter of dropped sends
    ghost var accepted: seq<Id>
    ghost var refused: nat    // broadcasts that found the queue full

    ghost predicate Valid()
      reads this
    {
      && |queue| <= QUEUE_CAP && |ids| < MAX_BATCH
      && (forall i :: 0 <= i < |sent| ==> 1 <= |sent[i]| <= MAX_BATCH)
      && (done ==> !registered) && (finished ==> done)
      && accepted == Flat(sent) + ids + queue
      && counted == refused + (if finished then |queue| else 0)
    }

    constructor (key: nat)
      ensures Valid() && this.key == key && registered && !done && !finished && accepted == [] && refused == 0 && counted == 0
      ensures queue == [] && ids == [] && sent == []
    {
      this.key := key;
      queue, ids, sent, registered, done, finished, counted, accepted, refused := [], [], [], true, false, false, 0, [], 0;
    }

    // Broadcast's non-blocking send to this stream.
    method Push(id: Id)
      requires Valid() && registered
      modifies this
      ensures Valid() && registered && sent == old(sent) && ids == old(ids)
      ensures |old(queue)| <= QUEUE_CAP
      ensures |old(queue)| < QUEUE_CAP ==> accepted == old(accepted) + [id] && refused == old(refused) && counted == old(counted)
      ensures |old(queue)| == QUEUE_CAP ==> accepted == old(accepted) && refused == old(refused) + 1 && counted == old(counted) + 1
    {
      hide Flat;
      if |queue| < QUEUE_CAP {
        queue := queue + [id];
        accepted := accepted + [id];
      } else {
        counted, refused := counted + 1, refused + 1;
      }
    }

    method Send()
      requires |ids| >= 1 && |ids| <= MAX_BATCH && |queue| <= QUEUE_CAP && (done ==> !registered) && !finished
      requires (forall i :: 0 <= i < |sent| ==> 1 <= |sent[i]| <= MAX_BATCH)
      requires accepted == Flat(sent) + ids + queue && counted == refused
      modifies this`sent, this`ids
      ensures Valid() && ids == [] && sent == old(sent) + [old(ids)]
    {
      FlatMore(sent, ids);
      hide Flat;
      sent, ids := sent + [ids], [];
    }

    // One ID joins the batch; a full batch goes out at once.
    method Take()
      requires Valid() && queue != [] && !finished
      modifies this`queue, this`ids, this`sent
      ensures Valid() && !finished && accepted == old(accepted)
      ensures Flat(sent) + ids == Flat(old(sent)) + old(ids) + [old(queue)[0]]
      ensures |old(ids)| + 1 < MAX_BATCH ==> queue == old(queue)[1..] && sent == old(sent) && ids == old(ids) + [old(queue)[0]]
      ensures |old(ids)| + 1 == MAX_BATCH ==> sent == old(sent) + [old(ids) + [old(queue)[0]]] && ids == []
    {
      ghost var all, batches := queue, sent;
      ids, queue := ids + [queue[0]], queue[1..];
      assert all == [all[0]] + queue;
      FlatMore(batches, ids);
      hide Flat;
      if |ids| == MAX_BATCH {
        Send();
      }
    }

    // The receive loop ends: the stream leaves the map, then `done` is closed.
    method EndReceive()
      requires Valid() && registered
      modifies this`registered, this`done
      ensures Valid() && !registered && done
    {
      registered := false;
      done := true;
    }

    // The sender sees `done`: what is queued is counted, the batch in its hands is not.
    method Finish()
      requires Valid() && done && !finished
      modifies this`counted, this`finished
      ensures Valid() && finished && counted == refused + |queue|
    {
      counted := counted + |queue|;
      finished := true;
    }

    // Any schedule of the stream's events, each taken when it is possible.
    method Run(events: seq<Event>)
      requires Valid()
      modifies this
      ensures Valid()
      ensures Accounted()
    {
      for i := 0 to |events|
        invariant Valid()
      {
        match events[i]
        case Arrive(id) =>
          if registered {
            Push(id);
          }
        case Receive =>
          if queue != [] && !finished {
            Take();
          }
        case Timer =>
          if ids != [] && !finished {
            Send();
          }
        case Disconnect =>
          if registered {
            EndReceive();
          }
        case SeeDone =>
          if done && !finished {
            Finish();
          }
      }
      AllAccounted();
    }

    // Accepted IDs are, in order, the sent batches, the batch in hand and the queue. Once the
    // sender has returned nothing moves any more: every broadcast to the stream was sent or
    // counted as dropped, save for one partial batch of at most 255 that is lost uncounted.
    ghost predicate Accounted()
      reads this
    {
      && accepted == Flat(sent) + ids + queue
      && (finished ==> |accepted| + refused == |Flat(sent)| + counted + |ids| && |ids| <= MAX_BATCH - 1)
    }

    lemma AllAccounted()
      requires Valid()
      ensures Accounted()
    {
    }
  }

  // A stream can lose IDs that no counter sees: one is taken into a batch, then the stream ends.
  method LosesUncounted(id: Id) returns (s: Stream)
    ensures s.Valid() && s.finished && s.accepted == [id] && s.sent == [] && s.counted == 0
  {
    s := new Stream(0);
    s.Push(id);
    assert Flat([]) == [];
    s.Take();
    s.EndReceive();
    s.Finish();
  }

  class Server {
    var streams: map<nat, Stream>

    ghost predicate Valid()
      reads this, streams.Values
    {
      forall k :: k in streams ==> streams[k].key == k && streams[k].Valid() && streams[k].registered
    }

    constructor ()
      ensures Valid() && streams == map[]
    {
      streams := map[];
    }

    method Register(k: nat) returns (s: Stream)
      requires Valid() && k !in streams
      modifies this
      ensures Valid() && fresh(s) && streams == old(streams)[k := s]
      ensures s.queue == [] && s.ids == [] && s.sent == [] && s.counted == 0
    {
      s := new Stream(k);
      streams := streams[k := s];
    }

    method Unregister(k: nat)
      requires Valid() && k in streams
      modifies this, streams[k]
      ensures Valid() && streams == old(streams) - {k} && old(streams)[k].Valid() && old(streams)[k].done
    {
      var s := streams[k];
      streams := streams - {k};
      s.EndReceive();
    }

    // Every registered stream either queues the ID or has it counted as dropped.
    method Broadcast(id: Id)
      requires Valid()
      modifies streams.Values
      ensures Valid() && streams == old(streams)
      ensures forall k :: k in streams ==> Got(streams[k], id, old(streams[k].accepted), old(streams[k].refused), old(streams[k].counted))
    {
      hide Stream.Valid;
      var rest := streams.Keys;
      while rest != {}
        invariant streams == old(streams) && rest <= streams.Keys && Valid()
        invariant forall k :: k in rest ==>
                    streams[k].accepted == old(streams[k].accepted) && streams[k].refused == old(streams[k].refused)
                    && streams[k].counted == old(streams[k].counted)
        invariant forall k :: k in streams && k !in rest ==>
                    Got(streams[k], id, old(streams[k].accepted), old(streams[k].refused), old(streams[k].counted))
        decreases rest
      {
        var k :| k in rest;
        streams[k].Push(id);
        rest := rest - {k};
      }
    }
  }

  ghost predicate Got(s: Stream, id: Id, accepted: seq<Id>, refused: nat, counted: nat)
    reads s
  {
    || (s.accepted == accepted + [id] && s.refused == refused && s.counted == counted)
    || (s.accepted == accepted && s.refused == refused + 1 && s.counted == counted + 1)
  }
}
