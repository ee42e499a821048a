// The keep-decision protocol over a tree of coordinators: collectors at the leaves, proxies in
// between, root coordinators that share one store of decided IDs.
module KeepTree {
  import opened Bytes
  import opened Records

  type Id = seq<byte>

  datatype Node = Root | Proxy(parent: nat) | Collector(parent: nat)

  // Nodes by number, every parent before its children; how long a decision is remembered.
  datatype Net = Net(nodes: seq<Node>, ttl: nat)

  predicate IsTree(c: Net)
  {
    forall x :: 0 <= x < |c.nodes| && !c.nodes[x].Root? ==>
      c.nodes[x].parent < x && !c.nodes[c.nodes[x].parent].Collector?
  }

  datatype Publication = Publication(id: Id, at: int)

  // Messages down the tree are named by the number of the publication they stem from.
  datatype State = State(
    now: int,
    decided: map<Id, int>,             // the shared store: until when an ID counts as decided
    up: seq<seq<Id>>,                  // per node: notifications on the way to its parent
    down: seq<seq<nat>>,               // per node: decisions on the way to it
    unsent: seq<nat>,                  // set in the store but not yet published
    notified: seq<Id>,                 // history: every ID that a collector notified
    published: seq<Publication>,       // history: every ID newly set in the store
    handled: seq<seq<nat>>)            // history, per node: the decisions it handled

  predicate Init(c: Net, s: State)
  {
    && |s.up| == |s.down| == |s.handled| == |c.nodes|
    && (forall x :: 0 <= x < |c.nodes| ==> s.up[x] == [] && s.down[x] == [] && s.handled[x] == [])
    && s.decided == map[] && s.unsent == [] && s.notified == [] && s.published == []
  }

  datatype Step =
    | Notify(x: nat, tid: TraceId, room: bool)  // a collector samples a trace
    | Up(x: nat, room: bool)                    // x's parent takes the next notification
    | Publish(i: nat, to: set<nat>)             // PUBLISH reaches these roots
    | Crash(i: nat)                             // SET NX was done, PUBLISH never is
    | Down(x: nat, to: set<nat>)                // x handles the next decision
    | LoseUp(x: nat, i: nat)
    | LoseDown(x: nat, i: nat)                  // full buffer or broken stream
    | Tick(t: int)

  predicate Shaped(c: Net, s: State)
  {
    |s.up| == |s.down| == |s.handled| == |c.nodes|
  }

  predicate Enabled(c: Net, s: State, step: Step)
    requires Shaped(c, s)
  {
    match step
    case Notify(x, _, _) => x < |c.nodes| && c.nodes[x].Collector?
    case Up(x, _) => x < |c.nodes| && !c.nodes[x].Root? && s.up[x] != [] && c.nodes[x].parent < |c.nodes|
    case Publish(i, to) => i < |s.unsent| && forall x :: x in to ==> x < |c.nodes| && c.nodes[x].Root?
    case Crash(i) => i < |s.unsent|
    case Down(x, _) => x < |c.nodes| && s.down[x] != []
    case LoseUp(x, i) => x < |c.nodes| && i < |s.up[x]|
    case LoseDown(x, i) => x < |c.nodes| && i < |s.down[x]|
    case Tick(t) => s.now <= t
  }

  function Without<T>(s: seq<T>, i: nat): seq<T>
    requires i < |s|
  {
    s[..i] + s[i + 1..]
  }

  // SET NX at a root: only an ID that is not decided, or no longer so, is set and to be published.
  function Decide(c: Net, s: State, id: Id): State
  {
    if id in s.decided && s.now < s.decided[id] then s
    else s.(decided := s.decided[id := s.now + c.ttl],
            unsent := s.unsent + [|s.published|],
            published := s.published + [Publication(id, s.now)])
  }

  function Append(queues: seq<seq<nat>>, to: set<nat>, k: nat): (r: seq<seq<nat>>)
    ensures |r| == |queues|
  {
    seq(|queues|, x requires 0 <= x < |queues| => if x in to then queues[x] + [k] else queues[x])
  }

  // Broadcast: to every child whose stream has room.
  function Children(c: Net, x: nat, room: set<nat>): set<nat>
  {
    set y | y in room && y < |c.nodes| && !c.nodes[y].Root? && c.nodes[y].parent == x
  }

  function Apply(c: Net, s: State, step: Step): State
    requires Shaped(c, s) && Enabled(c, s, step)
  {
    match step
    case Notify(x, tid, room) =>
      s.(notified := s.notified + [tid], up := if room then s.up[x := s.up[x] + [tid]] else s.up)
    case Up(x, room) =>
      var id, y := s.up[x][0], c.nodes[x].parent;
      var s1 := s.(up := s.up[x := s.up[x][1..]]);
      if c.nodes[y].Root? then Decide(c, s1, id)
      else if room then s1.(up := s1.up[y := s1.up[y] + [id]])
      else s1
    case Publish(i, to) =>
      s.(unsent := Without(s.unsent, i), down := Append(s.down, to, s.unsent[i]))
    case Crash(i) => s.(unsent := Without(s.unsent, i))
    case Down(x, room) =>
      var k := s.down[x][0];
      s.(down := Append(s.down[x := s.down[x][1..]], Children(c, x, room), k),
         handled := s.handled[x := s.handled[x] + [k]])
    case LoseUp(x, i) => s.(up := s.up[x := Without(s.up[x], i)])
    case LoseDown(x, i) => s.(down := s.down[x := Without(s.down[x], i)])
    case Tick(t) => s.(now := t)
  }

  // ---- Invariant ----

  predicate FromNotify(s: State, id: Id)
  {
    id in s.notified && |id| == 16
  }

  // Nothing travels that no collector notified.
  predicate Honest(c: Net, s: State)
    requires Shaped(c, s)
  {
    && (forall x, i :: 0 <= x < |c.nodes| && 0 <= i < |s.up[x]| ==> FromNotify(s, s.up[x][i]))
    && (forall k :: 0 <= k < |s.published| ==> FromNotify(s, s.published[k].id))
  }

  // The store remembers the latest publication of each ID, and equal IDs are a TTL apart.
  predicate Spaced(c: Net, s: State)
  {
    && (forall k :: 0 <= k < |s.published| ==>
          s.published[k].id in s.decided && s.published[k].at + c.ttl <= s.decided[s.published[k].id])
    && (forall j, k :: 0 <= j < k < |s.published| && s.published[j].id == s.published[k].id ==>
          s.published[j].at + c.ttl <= s.published[k].at)
  }

  // Each root sees a publication at most once; each other node handles a decision, or has it on
  // the way, no more often than its parent handled it.
  ghost predicate Once(c: Net, s: State)
    requires Shaped(c, s)
  {
    && (forall k :: multiset(s.unsent)[k] <= if 0 <= k < |s.published| then 1 else 0)
    && (forall x, k :: 0 <= x < |c.nodes| && c.nodes[x].Root? ==> RootCount(s, x, k))
    && (forall x, k :: 0 <= x < |c.nodes| && !c.nodes[x].Root? && c.nodes[x].parent < |c.nodes| ==> ChildCount(c, s, x, k))
  }

  ghost predicate RootCount(s: State, x: nat, k: nat)
    requires x < |s.down| && x < |s.handled|
  {
    multiset(s.handled[x])[k] + multiset(s.down[x])[k] + multiset(s.unsent)[k] <= if k < |s.published| then 1 else 0
  }

  ghost predicate ChildCount(c: Net, s: State, x: nat, k: nat)
    requires Shaped(c, s) && x < |c.nodes| && !c.nodes[x].Root? && c.nodes[x].parent < |c.nodes|
  {
    multiset(s.handled[x])[k] + multiset(s.down[x])[k] <= multiset(s.handled[c.nodes[x].parent])[k]
  }

  ghost predicate Inv(c: Net, s: State)
  {
    Shaped(c, s) && Honest(c, s) && Spaced(c, s) && Once(c, s)
  }

  lemma InitInv(c: Net, s: State)
    requires Init(c, s)
    ensures Inv(c, s)
  {
  }

  // ---- Every step keeps it ----

  lemma {:induction false} CountWithout<T>(s: seq<T>, i: nat, k: T)
    requires i < |s|
    ensures multiset(Without(s, i))[k] == multiset(s)[k] - (if s[i] == k then 1 else 0)
    ensures forall y :: y in Without(s, i) ==> y in s
  {
    assert s == s[..i] + [s[i]] + s[i + 1..];
  }

  lemma CountHead<T>(s: seq<T>, k: T)
    requires s != []
    ensures multiset(s[1..])[k] == multiset(s)[k] - (if s[0] == k then 1 else 0)
  {
    assert s == [s[0]] + s[1..];
  }

  lemma DecideKeeps(c: Net, s: State, id: Id)
    requires Inv(c, s) && FromNotify(s, id)
    ensures Inv(c, Decide(c, s, id))
  {
    var s' := Decide(c, s, id);
    if s' != s {
      DecideOnce(c, s, id);
      DecideSpaced(c, s, id);
    }
  }

  lemma DecideSpaced(c: Net, s: State, id: Id)
    requires Spaced(c, s)
    ensures Spaced(c, Decide(c, s, id))
  {
  }

  lemma DecideOnce(c: Net, s: State, id: Id)
    requires Shaped(c, s) && Once(c, s) && Decide(c, s, id) != s
    ensures Once(c, Decide(c, s, id))
  {
    var s', n := Decide(c, s, id), |s.published|;
    forall k: int ensures multiset(s'.unsent)[k] == multiset(s.unsent)[k] + (if k == n then 1 else 0) {
    }
    forall x, k | 0 <= x < |c.nodes| && c.nodes[x].Root? ensures RootCount(s', x, k) {
      assert RootCount(s, x, k);
    }
    forall x, k | 0 <= x < |c.nodes| && !c.nodes[x].Root? && c.nodes[x].parent < |c.nodes| ensures ChildCount(c, s', x, k) {
      assert ChildCount(c, s, x, k);
    }
  }

  // Steps that only lose messages, or move notifications.
  lemma LossKeepsOnce(c: Net, s: State, s': State)
    requires Shaped(c, s) && Shaped(c, s') && Once(c, s) && s'.handled == s.handled && s'.published == s.published
    requires forall k :: multiset(s'.unsent)[k] <= multiset(s.unsent)[k]
    requires forall x, k :: 0 <= x < |c.nodes| ==> multiset(s'.down[x])[k] <= multiset(s.down[x])[k]
    ensures Once(c, s')
  {
    forall x, k | 0 <= x < |c.nodes| && c.nodes[x].Root? ensures RootCount(s', x, k) {
      assert RootCount(s, x, k);
    }
    forall x, k | 0 <= x < |c.nodes| && !c.nodes[x].Root? && c.nodes[x].parent < |c.nodes| ensures ChildCount(c, s', x, k) {
      assert ChildCount(c, s, x, k);
    }
  }

  lemma NotifyKeeps(c: Net, s: State, x: nat, tid: TraceId, room: bool)
    requires Inv(c, s) && Enabled(c, s, Notify(x, tid, room))
    ensures Inv(c, Apply(c, s, Notify(x, tid, room)))
  {
    var s' := Apply(c, s, Notify(x, tid, room));
    LossKeepsOnce(c, s, s');
    hide Once;
  }

  lemma UpKeeps(c: Net, s: State, x: nat, room: bool)
    requires Inv(c, s) && Enabled(c, s, Up(x, room))
    ensures Inv(c, Apply(c, s, Up(x, room)))
  {
    var id, y := s.up[x][0], c.nodes[x].parent;
    var s1 := s.(up := s.up[x := s.up[x][1..]]);
    assert FromNotify(s, id);
    LossKeepsOnce(c, s, s1);
    assert Inv(c, s1) by { hide Once; }
    if c.nodes[y].Root? {
      DecideKeeps(c, s1, id);
    } else if room {
      var s2 := s1.(up := s1.up[y := s1.up[y] + [id]]);
      LossKeepsOnce(c, s1, s2);
      hide Once;
    }
  }

  lemma PublishKeeps(c: Net, s: State, i: nat, to: set<nat>)
    requires Inv(c, s) && Enabled(c, s, Publish(i, to))
    ensures Inv(c, Apply(c, s, Publish(i, to)))
  {
    var s', n := Apply(c, s, Publish(i, to)), s.unsent[i];
    forall k: nat ensures multiset(s'.unsent)[k] == multiset(s.unsent)[k] - (if n == k then 1 else 0) {
      CountWithout(s.unsent, i, k);
    }
    forall x: nat, k: nat | x < |c.nodes|
      ensures multiset(s'.down[x])[k] == multiset(s.down[x])[k] + (if x in to && k == n then 1 else 0)
    {
    }
    forall x, k | 0 <= x < |c.nodes| && c.nodes[x].Root? ensures RootCount(s', x, k) {
      assert RootCount(s, x, k);
    }
    forall x, k | 0 <= x < |c.nodes| && !c.nodes[x].Root? && c.nodes[x].parent < |c.nodes| ensures ChildCount(c, s', x, k) {
      assert ChildCount(c, s, x, k);
    }
  }

  // What one handled decision does to the counts of node y.
  lemma DownCounts(c: Net, s: State, x: nat, to: set<nat>, y: nat, k: nat)
    requires Shaped(c, s) && Enabled(c, s, Down(x, to)) && y < |c.nodes|
    ensures var s', n := Apply(c, s, Down(x, to)), s.down[x][0];
            && Shaped(c, s')
            && multiset(s'.down[y])[k]
            == multiset(s.down[y])[k] - (if y == x && k == n then 1 else 0) + (if y in Children(c, x, to) && k == n then 1 else 0)
            && multiset(s'.handled[y])[k] == multiset(s.handled[y])[k] + (if y == x && k == n then 1 else 0)
  {
    hide Children;
    if y == x {
      CountHead(s.down[x], k);
    }
  }

  lemma DownOnce(c: Net, s: State, x: nat, to: set<nat>)
    requires IsTree(c) && Shaped(c, s) && Once(c, s) && Enabled(c, s, Down(x, to))
    ensures Shaped(c, Apply(c, s, Down(x, to))) && Once(c, Apply(c, s, Down(x, to)))
  {
    DownCounts(c, s, x, to, x, 0);
    var s' := Apply(c, s, Down(x, to));
    assert s'.unsent == s.unsent && s'.published == s.published;
    hide Apply;
    forall y, k | 0 <= y < |c.nodes| && c.nodes[y].Root? ensures RootCount(s', y, k) {
      assert RootCount(s, y, k);
      DownCounts(c, s, x, to, y, k);
    }
    forall y, k | 0 <= y < |c.nodes| && !c.nodes[y].Root? && c.nodes[y].parent < |c.nodes| ensures ChildCount(c, s', y, k) {
      assert ChildCount(c, s, y, k);
      DownCounts(c, s, x, to, y, k);
      DownCounts(c, s, x, to, c.nodes[y].parent, k);
    }
  }

  lemma DownKeeps(c: Net, s: State, x: nat, to: set<nat>)
    requires IsTree(c) && Inv(c, s) && Enabled(c, s, Down(x, to))
    ensures Inv(c, Apply(c, s, Down(x, to)))
  {
    DownOnce(c, s, x, to);
    hide Once, Append, Children;
  }

  lemma LoseUpKeeps(c: Net, s: State, x: nat, i: nat)
    requires Inv(c, s) && Enabled(c, s, LoseUp(x, i))
    ensures Inv(c, Apply(c, s, LoseUp(x, i)))
  {
    var s' := Apply(c, s, LoseUp(x, i));
    CountWithout(s.up[x], i, s.up[x][i]);
    LossKeepsOnce(c, s, s');
    hide Once;
    assert forall j :: 0 <= j < |s'.up[x]| ==> s'.up[x][j] in s.up[x];
  }

  lemma LoseDownKeeps(c: Net, s: State, x: nat, i: nat)
    requires Inv(c, s) && Enabled(c, s, LoseDown(x, i))
    ensures Inv(c, Apply(c, s, LoseDown(x, i)))
  {
    var s' := Apply(c, s, LoseDown(x, i));
    forall k: nat ensures multiset(s'.down[x])[k] <= multiset(s.down[x])[k] {
      CountWithout(s.down[x], i, k);
    }
    LossKeepsOnce(c, s, s');
    hide Once, Without;
  }

  lemma CrashKeeps(c: Net, s: State, i: nat)
    requires Inv(c, s) && Enabled(c, s, Crash(i))
    ensures Inv(c, Apply(c, s, Crash(i)))
  {
    var s' := Apply(c, s, Crash(i));
    forall k: nat ensures multiset(s'.unsent)[k] <= multiset(s.unsent)[k] {
      CountWithout(s.unsent, i, k);
    }
    LossKeepsOnce(c, s, s');
    hide Once, Without;
  }

  lemma TickKeeps(c: Net, s: State, t: int)
    requires Inv(c, s) && Enabled(c, s, Tick(t))
    ensures Inv(c, Apply(c, s, Tick(t)))
  {
    LossKeepsOnce(c, s, Apply(c, s, Tick(t)));
    hide Once;
  }

  lemma InvKept(c: Net, s: State, step: Step)
    requires IsTree(c) && Inv(c, s) && Enabled(c, s, step)
    ensures Inv(c, Apply(c, s, step))
  {
    hide Inv, Apply;
    ShapedInv(c, s);
    match step
    case Notify(x, tid, room) => NotifyKeeps(c, s, x, tid, room);
    case Up(x, room) => UpKeeps(c, s, x, room);
    case Publish(i, to) => PublishKeeps(c, s, i, to);
    case Down(x, to) => DownKeeps(c, s, x, to);
    case LoseUp(x, i) => LoseUpKeeps(c, s, x, i);
    case LoseDown(x, i) => LoseDownKeeps(c, s, x, i);
    case Crash(i) => CrashKeeps(c, s, i);
    case Tick(t) => TickKeeps(c, s, t);
  }

  lemma ShapedInv(c: Net, s: State)
    requires Inv(c, s)
    ensures Shaped(c, s)
  {
  }

  ghost predicate IsRun(c: Net, run: seq<State>, steps: seq<Step>)
  {
    && |run| == |steps| + 1 && Init(c, run[0])
    && forall i :: 0 <= i < |steps| ==>
         Shaped(c, run[i]) && Enabled(c, run[i], steps[i]) && run[i + 1] == Apply(c, run[i], steps[i])
  }

  lemma {:induction false} InvAlongRun(c: Net, run: seq<State>, steps: seq<Step>, n: nat)
    requires IsTree(c) && IsRun(c, run, steps) && n < |run|
    ensures Inv(c, run[n])
  {
    hide Inv, Apply, Enabled;
    if n == 0 {
      InitInv(c, run[0]);
    } else {
      InvAlongRun(c, run, steps, n - 1);
      InvKept(c, run[n - 1], steps[n - 1]);
    }
  }

  // ---- Safety over every run and a tree of any depth ----

  lemma {:induction false} HandledOnce(c: Net, s: State, x: nat, k: nat)
    requires IsTree(c) && Inv(c, s) && x < |c.nodes|
    ensures multiset(s.handled[x])[k] + multiset(s.down[x])[k] <= if k < |s.published| then 1 else 0
    decreases x
  {
    if c.nodes[x].Root? {
      assert RootCount(s, x, k);
    } else {
      HandledOnce(c, s, c.nodes[x].parent, k);
      assert ChildCount(c, s, x, k);
    }
  }

  predicate Apart(c: Net, p: Publication, q: Publication)
  {
    p.at + c.ttl <= q.at || q.at + c.ttl <= p.at
  }

  // Every decision handed to a collector is for a trace that some collector notified; it is handed
  // over at most once per publication; and publications of the same trace are at least a TTL apart.
  lemma KeepDecisionsAreSafe(c: Net, run: seq<State>, steps: seq<Step>, n: nat, x: nat)
    requires IsTree(c) && IsRun(c, run, steps) && n < |run| && x < |c.nodes|
    ensures |run[n].handled| == |c.nodes|
    ensures var s := run[n]; var got := s.handled[x];
            && (forall i :: 0 <= i < |got| ==> got[i] < |s.published| && FromNotify(s, s.published[got[i]].id))
            && (forall i, j :: 0 <= i < j < |got| ==> got[i] != got[j])
            && (forall i, j :: 0 <= i < j < |got| && s.published[got[i]].id == s.published[got[j]].id ==>
                  Apart(c, s.published[got[i]], s.published[got[j]]))
  {
    hide Apply, Enabled, Once;
    InvAlongRun(c, run, steps, n);
    var s := run[n];
    var got := s.handled[x];
    forall i | 0 <= i < |got| ensures got[i] < |s.published| {
      HandledOnce(c, s, x, got[i]);
      assert got[i] in multiset(got);
    }
    forall i, j | 0 <= i < j < |got| ensures got[i] != got[j] {
      HandledOnce(c, s, x, got[i]);
      if got[i] == got[j] {
        Twice(got, i, j);
      }
    }
  }

  lemma Twice(s: seq<nat>, i: nat, j: nat)
    requires i < j < |s| && s[i] == s[j]
    ensures multiset(s)[s[i]] >= 2
  {
    assert s == s[..j] + [s[j]] + s[j + 1..];
    assert s[i] in s[..j];
  }
}
