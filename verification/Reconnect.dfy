// The loops that keep the stream to the parent coordinator open: `send` and `run` of the proxy
// (proxy/pubsub.go), `connect` and `run` of the collector's client (client.go).
module Reconnect {
  import opened PubSub

  // What happens to the loop, in order: the acts of other goroutines, the answers of the calls
  // it makes, and which ready case its select takes. A case that is not ready is not taken.
  datatype Event =
    | Close                  // the loop's context is cancelled
    | RecvFails              // the receive goroutine ends with an error
    | Notify(id: Id)
    | Connects(ok: bool)     // dialing and opening the stream
    | Sends(ok: bool)        // the select takes an ID, and Send returns
    | SeesRecvErr            // the select takes the receive error (client only)
    | SeesDone               // the select takes the cancelled context
    | Elapses                // the select takes the timer

  // How `send` or `connect` comes to an end; Cut when the events are used up before.
  datatype Ended = Nil | Failed | Cut

  // What the loop does to its wait.
  datatype Mark = Wait(seconds: nat) | Reset

  // Where the loop is.
  datatype Place = Top | Connecting | Streaming | Waiting

  // An ID taken from the channel, and whether Send got it out.
  datatype Try = Try(id: Id, ok: bool)

  function Ids(tried: seq<Try>): (s: seq<Id>)
    ensures |s| == |tried|
  {
    seq(|tried|, i requires 0 <= i < |tried| => tried[i].id)
  }

  function Lost(tried: seq<Try>): nat
  {
    if tried == [] then 0 else Lost(tried[..|tried| - 1]) + (if tried[|tried| - 1].ok then 0 else 1)
  }

  function Pow2(n: nat): nat
  {
    if n == 0 then 1 else 2 * Pow2(n - 1)
  }

  function Min(a: nat, b: nat): nat
  {
    if a <= b then a else b
  }

  // Events were consumed from the front, and the context is cancelled iff it was or one of them did it.
  ghost predicate Follows(before: seq<Event>, after: seq<Event>, was: bool, now: bool)
  {
    && |after| <= |before| && after == before[|before| - |after|..]
    && (now <==> was || Close in before[..|before| - |after|])
  }

  lemma FollowsTrans(a: seq<Event>, b: seq<Event>, c: seq<Event>, p: bool, q: bool, r: bool)
    requires Follows(a, b, p, q) && Follows(b, c, q, r)
    ensures Follows(a, c, p, r) && |c| <= |b| <= |a|
  {
    var i, j := |a| - |b|, |b| - |c|;
    assert a[..i + j] == a[..i] + b[..j];
    assert a[i..][j..] == a[i + j..];
  }

  lemma FollowsSelf(a: seq<Event>, p: bool)
    ensures Follows(a, a, p, p)
  {
  }

  // The waits so far double from one second up to the cap; a reset can only be the last mark.
  ghost predicate Doubling(marks: seq<Mark>, cap: nat)
  {
    forall i :: 0 <= i < |marks| ==> marks[i] == Wait(Min(Pow2(i), cap)) || (marks[i].Reset? && i == |marks| - 1)
  }

  ghost predicate WasReset(marks: seq<Mark>)
  {
    marks != [] && marks[|marks| - 1].Reset?
  }

  lemma {:induction false} Pow2Grows(i: nat)
    ensures i <= 5 ==> Pow2(i) == [1, 2, 4, 8, 16, 32][i]
    ensures i >= 5 ==> Pow2(i) >= 32
  {
    if i > 0 {
      Pow2Grows(i - 1);
    }
  }

  lemma DoublingEmpty(cap: nat)
    requires cap >= 1
    ensures Doubling([], cap) && Min(Pow2(0), cap) == 1
  {
  }

  lemma MoreWaits(marks: seq<Mark>, cap: nat)
    requires Doubling(marks, cap) && !WasReset(marks)
    ensures Doubling(marks + [Wait(Min(Pow2(|marks|), cap))], cap)
    ensures Min(2 * Min(Pow2(|marks|), cap), cap) == Min(Pow2(|marks| + 1), cap)
  {
  }

  // Doubling below 30 gives 1, 2, 4, 8, 16, 32 and then 32 for ever.
  lemma ClientDoubles(n: nat)
    ensures var b := Min(Pow2(n), 32); (if b < 30 then 2 * b else b) == Min(Pow2(n + 1), 32)
  {
    Pow2Grows(n);
    Pow2Grows(n + 1);
  }

  lemma ThenReset(marks: seq<Mark>, cap: nat)
    requires Doubling(marks, cap) && !WasReset(marks)
    ensures Doubling(marks + [Reset], cap)
  {
  }

  class Loop {
    var script: seq<Event>   // what is still to come
    var now: Event           // the event taken last
    var at: Place
    var cancelled: bool
    var failed: bool         // the receive goroutine of this stream has returned
    var sendCh: seq<Id>
    var tried: seq<Try>
    var marks: seq<Mark>
    ghost var queued: seq<Id>

    ghost predicate Valid()
      reads this
    {
      |sendCh| <= SEND_CAP && queued == Ids(tried) + sendCh
    }

    constructor (script: seq<Event>)
      ensures Valid() && this.script == script && at == Top && !cancelled && marks == [] && tried == [] && queued == []
    {
      this.script, now, at, cancelled, failed := script, Elapses, Top, false, false;
      sendCh, tried, marks, queued := [], [], [], [];
    }

    // The next event. What other goroutines do takes effect whatever the loop is at.
    method Next() returns (e: Event)
      requires Valid() && script != []
      modifies this`script, this`now, this`cancelled, this`failed, this`sendCh, this`queued
      ensures Valid() && now == e == old(script)[0] && script == old(script)[1..]
      ensures Follows(old(script), script, old(cancelled), cancelled)
      ensures sendCh == if e.Notify? && |old(sendCh)| < SEND_CAP then old(sendCh) + [e.id] else old(sendCh)
      ensures failed == (old(failed) || e.RecvFails?)
    {
      e, now := script[0], script[0];
      script := script[1..];
      match e
      case Close =>
        cancelled := true;
      case RecvFails =>
        failed := true;
      case Notify(id) =>
        if |sendCh| < SEND_CAP {
          sendCh, queued := sendCh + [id], queued + [id];
        }
      case _ =>
    }

    method Take(ok: bool)
      requires Valid() && sendCh != []
      modifies this`sendCh, this`tried
      ensures Valid() && tried == old(tried) + [Try(old(sendCh)[0], ok)]
      ensures Lost(tried) == Lost(old(tried)) + if ok then 0 else 1
    {
      ghost var all, before := sendCh, tried;
      tried, sendCh := tried + [Try(sendCh[0], ok)], sendCh[1..];
      assert all == [all[0]] + sendCh;
      assert Ids(tried) == Ids(before) + [all[0]];
      assert tried[..|before|] == before;
    }

    // The answer of the calls that open a stream.
    method Connect() returns (r: Ended)
      requires Valid()
      modifies this
      ensures Valid() && at == Connecting && marks == old(marks) && tried == old(tried)
      ensures Follows(old(script), script, old(cancelled), cancelled)
      ensures if r.Cut? then script == [] else |script| < |old(script)|
      ensures r.Nil? <==> |script| < |old(script)| && now == Connects(true)
      ensures r.Failed? <==> |script| < |old(script)| && now == Connects(false)
    {
      hide Follows, Ids;
      FollowsSelf(script, cancelled);
      at := Connecting;
      while script != []
        invariant Valid() && at == Connecting && marks == old(marks) && tried == old(tried)
        invariant |script| <= |old(script)| && (|script| < |old(script)| ==> !now.Connects?)
        invariant Follows(old(script), script, old(cancelled), cancelled)
        decreases |script|
      {
        ghost var s0, c0 := script, cancelled;
        var e := Next();
        FollowsTrans(old(script), s0, script, old(cancelled), c0, cancelled);
        if e.Connects? {
          failed := false;
          return if e.ok then Nil else Failed;
        }
      }
      r := Cut;
    }

    // The select around a wait: true when the cancelled context is seen. The timer may win
    // although the context is cancelled.
    method Pause() returns (r: Ended)
      requires Valid()
      modifies this
      ensures Valid() && at == Waiting && marks == old(marks) && tried == old(tried)
      ensures Follows(old(script), script, old(cancelled), cancelled)
      ensures if r.Cut? then script == [] else |script| < |old(script)|
      ensures r.Nil? ==> cancelled && now.SeesDone?
      ensures r.Failed? ==> now.Elapses?
    {
      hide Follows, Ids;
      FollowsSelf(script, cancelled);
      at := Waiting;
      while script != []
        invariant Valid() && at == Waiting && marks == old(marks) && tried == old(tried)
        invariant |script| <= |old(script)|
        invariant Follows(old(script), script, old(cancelled), cancelled)
        decreases |script|
      {
        ghost var s0, c0 := script, cancelled;
        var e := Next();
        FollowsTrans(old(script), s0, script, old(cancelled), c0, cancelled);
        if e.SeesDone? && cancelled {
          return Nil;
        }
        if e.Elapses? {
          return Failed;
        }
      }
      r := Cut;
    }

    // The proxy's `send`. Its context is cancelled by Close and by the receive goroutine; nil only
    // if the outer one is. It returns nil exactly when its select takes the cancelled context
    // after Close; a failed Send, or the end of the stream, is an error even then.
    method ProxySend() returns (r: Ended)
      requires Valid()
      modifies this
      ensures Valid() && at == Streaming && marks == old(marks) && old(tried) <= tried
      ensures Follows(old(script), script, old(cancelled), cancelled)
      ensures r.Cut? ==> script == []
      ensures r.Nil? <==> |script| < |old(script)| && now.SeesDone? && cancelled
      ensures r.Failed? <==> Lost(tried) > Lost(old(tried)) || (|script| < |old(script)| && now.SeesDone? && failed && !cancelled)
      ensures Lost(tried) == Lost(old(tried)) + if r.Failed? && now.Sends? then 1 else 0
    {
      hide Follows, Ids, Lost;
      FollowsSelf(script, cancelled);
      at := Streaming;
      while script != []
        invariant Valid() && at == Streaming && marks == old(marks) && old(tried) <= tried
        invariant Follows(old(script), script, old(cancelled), cancelled)
        invariant Lost(tried) == Lost(old(tried)) && |script| <= |old(script)|
        invariant |script| < |old(script)| && now.SeesDone? ==> !cancelled && !failed
        decreases |script|
      {
        ghost var s0, c0 := script, cancelled;
        var e := Next();
        FollowsTrans(old(script), s0, script, old(cancelled), c0, cancelled);
        if e.Sends? && sendCh != [] {
          Take(e.ok);
          if !e.ok {
            return Failed;
          }
        } else if e.SeesDone? && (failed || cancelled) {
          if cancelled {
            return Nil;
          }
          return Failed;
        }
      }
      r := Cut;
    }

    // The client's `connect`: the same with the receive error as a case of its own, which may win
    // although the context is cancelled.
    method ClientConnect() returns (r: Ended)
      requires Valid()
      modifies this
      ensures Valid() && (at == Connecting || at == Streaming) && marks == old(marks) && old(tried) <= tried
      ensures Follows(old(script), script, old(cancelled), cancelled)
      ensures if r.Cut? then script == [] else |script| < |old(script)|
      ensures r.Nil? <==> |script| < |old(script)| && at == Streaming && now.SeesDone? && cancelled
      ensures r.Failed? <==> (|| Lost(tried) > Lost(old(tried))
                              || (|script| < |old(script)| && at == Streaming && now.SeesRecvErr? && failed)
                              || (|script| < |old(script)| && at == Connecting && now == Connects(false)))
      ensures Lost(tried) == Lost(old(tried)) + if r.Failed? && now.Sends? then 1 else 0
    {
      hide Follows, Ids, Lost;
      r := Connect();
      if !r.Nil? {
        return;
      }
      ghost var s1, c1 := script, cancelled;
      FollowsSelf(script, cancelled);
      at := Streaming;
      while script != []
        invariant Valid() && at == Streaming && marks == old(marks) && old(tried) <= tried
        invariant Follows(s1, script, c1, cancelled)
        invariant Lost(tried) == Lost(old(tried)) && |script| < |old(script)|
        invariant !(now.SeesDone? && cancelled) && !(now.SeesRecvErr? && failed)
        decreases |script|
      {
        ghost var s0, c0 := script, cancelled;
        var e := Next();
        FollowsTrans(s1, s0, script, c1, c0, cancelled);
        if e.Sends? && sendCh != [] {
          Take(e.ok);
          if !e.ok {
            FollowsTrans(old(script), s1, script, old(cancelled), c1, cancelled);
            return Failed;
          }
        } else if e.SeesRecvErr? && failed {
          FollowsTrans(old(script), s1, script, old(cancelled), c1, cancelled);
          return Failed;
        } else if e.SeesDone? && cancelled {
          FollowsTrans(old(script), s1, script, old(cancelled), c1, cancelled);
          return Nil;
        }
      }
      FollowsTrans(old(script), s1, script, old(cancelled), c1, cancelled);
      r := Cut;
    }

    // What a run of either loop promises, for waits capped at `cap`: waits double from one second;
    // a reset comes last, exactly when the loop was stopped by the select of a live stream.
    ghost predicate Ran(before: seq<Event>, was: bool, lost: nat, stopped: bool, cap: nat)
      reads this
    {
      && Follows(before, script, was, cancelled)
      && (if stopped then cancelled else script == [])
      && Doubling(marks, cap)
      && (WasReset(marks) <==> stopped && at == Streaming)
      && Lost(tried) <= lost + |marks|
    }

    method RunProxy() returns (stopped: bool)
      requires Valid() && marks == [] && at == Top
      modifies this
      ensures Valid() && old(tried) <= tried && Ran(old(script), old(cancelled), Lost(old(tried)), stopped, 30)
    {
      hide Follows, Ids, Lost, Doubling, Pow2;
      FollowsSelf(script, cancelled);
      DoublingEmpty(30);
      var backoff := 1;
      while true
        invariant Valid() && old(tried) <= tried && Follows(old(script), script, old(cancelled), cancelled)
        invariant Doubling(marks, 30) && Lost(tried) <= Lost(old(tried)) + |marks|
        invariant if WasReset(marks) then cancelled && at == Streaming else backoff == Min(Pow2(|marks|), 30) && at != Streaming
        decreases |script|
      {
        if cancelled {
          return true;
        }
        ghost var s0, c0 := script, cancelled;
        var r := Connect();
        FollowsTrans(old(script), s0, script, old(cancelled), c0, cancelled);
        if r.Cut? {
          return false;
        }
        if r.Nil? {
          ghost var s1, c1 := script, cancelled;
          r := ProxySend();
          FollowsTrans(old(script), s1, script, old(cancelled), c1, cancelled);
          if r.Cut? {
            return false;
          }
        }
        if r.Failed? {
          MoreWaits(marks, 30);
          marks := marks + [Wait(backoff)];
          ghost var s2, c2 := script, cancelled;
          var p := Pause();
          FollowsTrans(old(script), s2, script, old(cancelled), c2, cancelled);
          if !p.Failed? {
            return p.Nil?;
          }
          backoff := Min(backoff * 2, 30);
        } else {
          ThenReset(marks, 30);
          marks := marks + [Reset];
          backoff := 1;
        }
      }
    }

    method RunClient() returns (stopped: bool)
      requires Valid() && marks == [] && at == Top
      modifies this
      ensures Valid() && old(tried) <= tried && Ran(old(script), old(cancelled), Lost(old(tried)), stopped, 32)
    {
      hide Follows, Ids, Lost, Doubling, Pow2;
      FollowsSelf(script, cancelled);
      DoublingEmpty(32);
      var backoff := 1;
      while true
        invariant Valid() && old(tried) <= tried && Follows(old(script), script, old(cancelled), cancelled)
        invariant Doubling(marks, 32) && Lost(tried) <= Lost(old(tried)) + |marks|
        invariant if WasReset(marks) then cancelled && at == Streaming else backoff == Min(Pow2(|marks|), 32) && at != Streaming
        decreases |script|
      {
        if cancelled {
          return true;
        }
        ghost var s0, c0 := script, cancelled;
        var r := ClientConnect();
        FollowsTrans(old(script), s0, script, old(cancelled), c0, cancelled);
        if r.Cut? {
          return false;
        }
        if r.Failed? {
          MoreWaits(marks, 32);
          marks := marks + [Wait(backoff)];
          ghost var s2, c2 := script, cancelled;
          var p := Pause();
          FollowsTrans(old(script), s2, script, old(cancelled), c2, cancelled);
          if !p.Failed? {
            return p.Nil?;
          }
          ClientDoubles(|marks| - 1);
          if backoff < 30 {
            backoff := backoff * 2;
          }
        } else {
          ThenReset(marks, 32);
          marks := marks + [Reset];
          backoff := 1;
        }
      }
    }
  }
}
