// groupByTrace: one pass over a trace tree that builds one tree per trace ID, in place, through
// three maps to the nodes under construction (split.go).
module Split {
  import opened Records
  import opened Traces

  class ScopeNode {
    const scope: map<string, string>
    const schema: string
    var spans: seq<Span>
    ghost const key: SsKey // what the node is for, so that nodes for different keys differ

    constructor (scope: map<string, string>, schema: string, ghost key: SsKey)
      ensures this.scope == scope && this.schema == schema && spans == [] && this.key == key
    {
      this.scope, this.schema, spans := scope, schema, [];
      this.key := key;
    }

    function View(): ScopeSpans
      reads this
    {
      ScopeSpans(scope, schema, spans)
    }
  }

  function ScopeViews(nodes: seq<ScopeNode>): seq<ScopeSpans>
    reads nodes
  {
    if nodes == [] then [] else ScopeViews(nodes[..|nodes| - 1]) + [nodes[|nodes| - 1].View()]
  }

  class ResourceNode {
    const resource: map<string, string>
    const schema: string
    var scopes: seq<ScopeNode>
    ghost const key: RsKey

    constructor (resource: map<string, string>, schema: string, ghost key: RsKey)
      ensures this.resource == resource && this.schema == schema && scopes == [] && this.key == key
    {
      this.resource, this.schema, scopes := resource, schema, [];
      this.key := key;
    }

    function View(): ResourceSpans
      reads this, scopes
    {
      ResourceSpans(resource, schema, ScopeViews(scopes))
    }
  }

  function ResourceViews(nodes: seq<ResourceNode>): seq<ResourceSpans>
    reads nodes, set i, k | 0 <= i < |nodes| && 0 <= k < |nodes[i].scopes| :: nodes[i].scopes[k]
  {
    if nodes == [] then []
    else
      var last := nodes[|nodes| - 1];
      assert last in nodes;
      ResourceViews(nodes[..|nodes| - 1]) + [last.View()]
  }

  class TraceNode {
    var resources: seq<ResourceNode>
    ghost const key: TraceId

    constructor (ghost key: TraceId)
      ensures resources == [] && this.key == key
    {
      resources := [];
      this.key := key;
    }

    function View(): Trace
      reads this, resources, set i, k | 0 <= i < |resources| && 0 <= k < |resources[i].scopes| :: resources[i].scopes[k]
    {
      ResourceViews(resources)
    }
  }

  datatype RsKey = RsKey(tid: TraceId, rs: nat)
  datatype SsKey = SsKey(tid: TraceId, rs: nat, ss: nat)

  // The nodes built for one resource and for one trace, in input order.
  function ScopeList(m: map<SsKey, ScopeNode>, tid: TraceId, rs: nat, n: nat): seq<ScopeNode>
  {
    if n == 0 then []
    else ScopeList(m, tid, rs, n - 1) + (if SsKey(tid, rs, n - 1) in m then [m[SsKey(tid, rs, n - 1)]] else [])
  }

  function ResourceList(m: map<RsKey, ResourceNode>, tid: TraceId, n: nat): seq<ResourceNode>
  {
    if n == 0 then []
    else ResourceList(m, tid, n - 1) + (if RsKey(tid, n - 1) in m then [m[RsKey(tid, n - 1)]] else [])
  }

  predicate InTree(td: Trace, rs: nat, ss: nat)
  {
    rs < |td| && ss < |td[rs].scopes|
  }

  // The spans of one trace seen in scope (rs, ss) when the pass is at span k of scope (i, j).
  function Got(td: Trace, tid: TraceId, rs: nat, ss: nat, i: nat, j: nat, k: nat): seq<Span>
    requires InTree(td, rs, ss)
  {
    var spans := td[rs].scopes[ss].spans;
    if rs < i || (rs == i && ss < j) then OnlySpans(spans, tid)
    else if rs == i && ss == j && k <= |spans| then OnlySpans(spans[..k], tid)
    else []
  }

  lemma {:induction false} ScopeListSame(m: map<SsKey, ScopeNode>, m': map<SsKey, ScopeNode>, tid: TraceId, rs: nat, n: nat)
    requires forall ss: nat :: ss < n ==> (SsKey(tid, rs, ss) in m <==> SsKey(tid, rs, ss) in m')
    requires forall ss: nat :: ss < n && SsKey(tid, rs, ss) in m ==> m'[SsKey(tid, rs, ss)] == m[SsKey(tid, rs, ss)]
    ensures ScopeList(m', tid, rs, n) == ScopeList(m, tid, rs, n)
  {
    if n > 0 {
      ScopeListSame(m, m', tid, rs, n - 1);
    }
  }

  // A node whose key comes after all others of its list goes to the end.
  lemma {:induction false} ScopeListNew(m: map<SsKey, ScopeNode>, key: SsKey, node: ScopeNode, n: nat)
    requires key.ss < n && forall ss: nat :: key.ss <= ss < n ==> SsKey(key.tid, key.rs, ss) !in m
    ensures ScopeList(m[key := node], key.tid, key.rs, n) == ScopeList(m, key.tid, key.rs, n) + [node]
  {
    if n - 1 == key.ss {
      ScopeListSame(m, m[key := node], key.tid, key.rs, n - 1);
    } else {
      ScopeListNew(m, key, node, n - 1);
    }
  }

  lemma {:induction false} ResourceListSame(m: map<RsKey, ResourceNode>, m': map<RsKey, ResourceNode>, tid: TraceId, n: nat)
    requires forall rs: nat :: rs < n ==> (RsKey(tid, rs) in m <==> RsKey(tid, rs) in m')
    requires forall rs: nat :: rs < n && RsKey(tid, rs) in m ==> m'[RsKey(tid, rs)] == m[RsKey(tid, rs)]
    ensures ResourceList(m', tid, n) == ResourceList(m, tid, n)
  {
    if n > 0 {
      ResourceListSame(m, m', tid, n - 1);
    }
  }

  lemma {:induction false} ResourceListNew(m: map<RsKey, ResourceNode>, key: RsKey, node: ResourceNode, n: nat)
    requires key.rs < n && forall rs: nat :: key.rs <= rs < n ==> RsKey(key.tid, rs) !in m
    ensures ResourceList(m[key := node], key.tid, n) == ResourceList(m, key.tid, n) + [node]
  {
    if n - 1 == key.rs {
      ResourceListSame(m, m[key := node], key.tid, n - 1);
    } else {
      ResourceListNew(m, key, node, n - 1);
    }
  }

  lemma OtherResources(m: map<RsKey, ResourceNode>, key: RsKey, node: ResourceNode, n: nat)
    ensures forall tid :: tid != key.tid ==> ResourceList(m[key := node], tid, n) == ResourceList(m, tid, n)
  {
    forall tid | tid != key.tid ensures ResourceList(m[key := node], tid, n) == ResourceList(m, tid, n) {
      ResourceListSame(m, m[key := node], tid, n);
    }
  }

  lemma OtherScopes(m: map<SsKey, ScopeNode>, key: SsKey, node: ScopeNode)
    ensures forall tid, rs: nat, n: nat :: tid != key.tid || rs != key.rs ==>
              ScopeList(m[key := node], tid, rs, n) == ScopeList(m, tid, rs, n)
  {
    forall tid, rs: nat, n: nat | tid != key.tid || rs != key.rs
      ensures ScopeList(m[key := node], tid, rs, n) == ScopeList(m, tid, rs, n)
    {
      ScopeListSame(m, m[key := node], tid, rs, n);
    }
  }

  // ---- The invariant of the pass, on the three maps and on what their nodes hold ----

  datatype ResourceShape = ResourceShape(resource: map<string, string>, schema: string, scopes: seq<ScopeNode>)

  // Every key is a place of the tree whose parents have nodes, and different keys have different nodes.
  ghost predicate KeysOk(td: Trace, out: map<TraceId, TraceNode>, rsMap: map<RsKey, ResourceNode>, ssMap: map<SsKey, ScopeNode>)
  {
    && (forall key :: key in ssMap ==> InTree(td, key.rs, key.ss) && RsKey(key.tid, key.rs) in rsMap && ssMap[key].key == key)
    && (forall key :: key in rsMap ==> key.rs < |td| && key.tid in out && rsMap[key].key == key)
    && (forall tid :: tid in out ==> out[tid].key == tid)
  }

  // A scope node holds exactly the spans of its trace seen so far in its scope; it exists once
  // there is one, or when it is just about to get its first.
  ghost predicate ScopesOk(td: Trace, nodes: map<SsKey, ScopeSpans>, i: nat, j: nat, k: nat, awaiting: set<SsKey>)
  {
    && (forall key :: key in nodes ==>
          InTree(td, key.rs, key.ss)
          && nodes[key] == td[key.rs].scopes[key.ss].(spans := Got(td, key.tid, key.rs, key.ss, i, j, k)))
    && (forall key: SsKey :: InTree(td, key.rs, key.ss) ==>
          (key in nodes <==> key in awaiting || Got(td, key.tid, key.rs, key.ss, i, j, k) != []))
  }

  // A resource node lists its scopes in input order; none is ahead of the pass.
  ghost predicate ResourcesOk(td: Trace, ssMap: map<SsKey, ScopeNode>, nodes: map<RsKey, ResourceShape>, i: nat)
  {
    forall key :: key in nodes ==>
      && key.rs < |td| && key.rs <= i
      && nodes[key] == ResourceShape(td[key.rs].resource, td[key.rs].schema,
                                     ScopeList(ssMap, key.tid, key.rs, |td[key.rs].scopes|))
  }

  ghost predicate TracesOk(td: Trace, rsMap: map<RsKey, ResourceNode>, nodes: map<TraceId, seq<ResourceNode>>)
  {
    forall tid :: tid in nodes ==> nodes[tid] == ResourceList(rsMap, tid, |td|)
  }

  // No resource node without scopes, no trace node without resources.
  ghost predicate FullOk(resources: map<RsKey, ResourceShape>, traces: map<TraceId, seq<ResourceNode>>)
  {
    && (forall key :: key in resources ==> resources[key].scopes != [])
    && (forall tid :: tid in traces ==> traces[tid] != [])
  }

  lemma {:induction false} NoResources(td: Trace, out: map<TraceId, TraceNode>, rsMap: map<RsKey, ResourceNode>,
                                       ssMap: map<SsKey, ScopeNode>, tid: TraceId, n: nat)
    requires KeysOk(td, out, rsMap, ssMap) && tid !in out
    ensures ResourceList(rsMap, tid, n) == []
  {
    if n > 0 {
      NoResources(td, out, rsMap, ssMap, tid, n - 1);
      assert RsKey(tid, n - 1) !in rsMap;
    }
  }

  lemma {:induction false} NoScopes(td: Trace, out: map<TraceId, TraceNode>, rsMap: map<RsKey, ResourceNode>,
                                    ssMap: map<SsKey, ScopeNode>, key: RsKey, n: nat)
    requires KeysOk(td, out, rsMap, ssMap) && key !in rsMap
    ensures ScopeList(ssMap, key.tid, key.rs, n) == []
  {
    if n > 0 {
      NoScopes(td, out, rsMap, ssMap, key, n - 1);
      assert SsKey(key.tid, key.rs, n - 1) !in ssMap;
    }
  }

  // A trace node without resources yet.
  lemma NewTrace(td: Trace, out: map<TraceId, TraceNode>, rsMap: map<RsKey, ResourceNode>, ssMap: map<SsKey, ScopeNode>,
                 nodes: map<TraceId, seq<ResourceNode>>, tid: TraceId, t: TraceNode)
    requires KeysOk(td, out, rsMap, ssMap) && TracesOk(td, rsMap, nodes) && tid !in out && t.key == tid
    ensures KeysOk(td, out[tid := t], rsMap, ssMap) && TracesOk(td, rsMap, nodes[tid := []])
  {
    NoResources(td, out, rsMap, ssMap, tid, |td|);
  }

  // A resource node without scopes yet, last in its trace.
  lemma NewResource(td: Trace, out: map<TraceId, TraceNode>, rsMap: map<RsKey, ResourceNode>, ssMap: map<SsKey, ScopeNode>,
                    resources: map<RsKey, ResourceShape>, traces: map<TraceId, seq<ResourceNode>>, key: RsKey, node: ResourceNode)
    requires KeysOk(td, out, rsMap, ssMap) && ResourcesOk(td, ssMap, resources, key.rs) && TracesOk(td, rsMap, traces)
    requires key !in rsMap && resources.Keys == rsMap.Keys && key.rs < |td| && key.tid in traces && key.tid in out && node.key == key
    ensures KeysOk(td, out, rsMap[key := node], ssMap)
    ensures ResourcesOk(td, ssMap, resources[key := ResourceShape(td[key.rs].resource, td[key.rs].schema, [])], key.rs)
    ensures TracesOk(td, rsMap[key := node], traces[key.tid := traces[key.tid] + [node]])
  {
    hide ScopeList, ResourceList;
    NoScopes(td, out, rsMap, ssMap, key, |td[key.rs].scopes|);
    ResourceListNew(rsMap, key, node, |td|);
    OtherResources(rsMap, key, node, |td|);
  }

  // A scope node without spans yet, last in its resource.
  lemma NewScope(td: Trace, out: map<TraceId, TraceNode>, rsMap: map<RsKey, ResourceNode>, ssMap: map<SsKey, ScopeNode>,
                 resources: map<RsKey, ResourceShape>, scopes: map<SsKey, ScopeSpans>, key: SsKey, k: nat, node: ScopeNode)
    requires KeysOk(td, out, rsMap, ssMap) && ResourcesOk(td, ssMap, resources, key.rs)
    requires ScopesOk(td, scopes, key.rs, key.ss, k, {}) && scopes.Keys == ssMap.Keys
    requires key !in ssMap && InTree(td, key.rs, key.ss) && node.key == key
    requires RsKey(key.tid, key.rs) in resources && RsKey(key.tid, key.rs) in rsMap
    ensures KeysOk(td, out, rsMap, ssMap[key := node])
    ensures ScopesOk(td, scopes[key := td[key.rs].scopes[key.ss].(spans := [])], key.rs, key.ss, k, {key})
    ensures var rk := RsKey(key.tid, key.rs); var shape := resources[rk];
            ResourcesOk(td, ssMap[key := node], resources[rk := shape.(scopes := shape.scopes + [node])], key.rs)
  {
    hide ScopeList, OnlySpans;
    assert forall n: nat :: key.ss <= n < |td[key.rs].scopes| ==> SsKey(key.tid, key.rs, n) !in scopes;
    ScopeListNew(ssMap, key, node, |td[key.rs].scopes|);
    OtherScopes(ssMap, key, node);
  }

  lemma GotNext(td: Trace, other: SsKey, key: SsKey, k: nat)
    requires InTree(td, key.rs, key.ss) && k < |td[key.rs].scopes[key.ss].spans| && InTree(td, other.rs, other.ss)
    requires key.tid == td[key.rs].scopes[key.ss].spans[k].tid
    ensures Got(td, other.tid, other.rs, other.ss, key.rs, key.ss, k + 1)
         == Got(td, other.tid, other.rs, other.ss, key.rs, key.ss, k)
            + (if other == key then [td[key.rs].scopes[key.ss].spans[k]] else [])
  {
    var spans := td[key.rs].scopes[key.ss].spans;
    assert spans[..k + 1][..k] == spans[..k];
  }

  // One more span.
  lemma NewSpan(td: Trace, scopes: map<SsKey, ScopeSpans>, key: SsKey, k: nat, awaiting: set<SsKey>)
    requires InTree(td, key.rs, key.ss) && k < |td[key.rs].scopes[key.ss].spans| && key in scopes
    requires key.tid == td[key.rs].scopes[key.ss].spans[k].tid
    requires ScopesOk(td, scopes, key.rs, key.ss, k, awaiting) && awaiting <= {key}
    ensures var node := scopes[key]; var span := td[key.rs].scopes[key.ss].spans[k];
            ScopesOk(td, scopes[key := node.(spans := node.spans + [span])], key.rs, key.ss, k + 1, {})
  {
    forall other: SsKey | InTree(td, other.rs, other.ss)
      ensures Got(td, other.tid, other.rs, other.ss, key.rs, key.ss, k + 1)
           == Got(td, other.tid, other.rs, other.ss, key.rs, key.ss, k)
              + (if other == key then [td[key.rs].scopes[key.ss].spans[k]] else [])
    {
      GotNext(td, other, key, k);
    }
    hide Got;
  }

  // The local variables of the function.
  class Grouper {
    const td: Trace
    var out: map<TraceId, TraceNode>
    var rsMap: map<RsKey, ResourceNode>
    var ssMap: map<SsKey, ScopeNode>
    ghost var repr: set<object> // every node made so far

    constructor (td: Trace)
      ensures this.td == td && out == map[] && rsMap == map[] && ssMap == map[] && repr == {}
    {
      this.td := td;
      out, rsMap, ssMap, repr := map[], map[], map[], {};
    }

    ghost predicate Owned()
      reads this
    {
      && this !in repr
      && (forall key :: key in ssMap ==> ssMap[key] in repr)
      && (forall key :: key in rsMap ==> rsMap[key] in repr)
      && (forall tid :: tid in out ==> out[tid] in repr)
    }

    // What the nodes hold.
    ghost function ScopeImage(): map<SsKey, ScopeSpans>
      reads this`ssMap, ssMap.Values
    {
      map key | key in ssMap :: ssMap[key].View()
    }

    ghost function ResourceImage(): map<RsKey, ResourceShape>
      reads this`rsMap, rsMap.Values
    {
      map key | key in rsMap :: ResourceShape(rsMap[key].resource, rsMap[key].schema, rsMap[key].scopes)
    }

    ghost function TraceImage(): map<TraceId, seq<ResourceNode>>
      reads this`out, out.Values
    {
      map tid | tid in out :: out[tid].resources
    }

    ghost predicate Nodes(i: nat)
      reads this, rsMap.Values, out.Values
    {
      && Owned() && KeysOk(td, out, rsMap, ssMap)
      && ResourcesOk(td, ssMap, ResourceImage(), i)
      && TracesOk(td, rsMap, TraceImage())
    }

    // The pass is at span k of scope (i, j).
    ghost predicate At(i: nat, j: nat, k: nat)
      reads this, ssMap.Values, rsMap.Values, out.Values
    {
      Nodes(i) && ScopesOk(td, ScopeImage(), i, j, k, {}) && FullOk(ResourceImage(), TraceImage())
    }

    method AddTrace(tid: TraceId)
      requires tid !in out
      modifies this`out
      ensures tid in out && fresh(out[tid]) && out[tid].key == tid && out == old(out)[tid := out[tid]]
      ensures TraceImage() == old(TraceImage())[tid := []]
    {
      var t := new TraceNode(tid);
      out := out[tid := t];
    }

    method AddResource(key: RsKey)
      requires key !in rsMap && key.rs < |td| && key.tid in out && out[key.tid].key == key.tid
      requires forall tid :: tid in out ==> out[tid].key == tid
      modifies this`rsMap, out[key.tid]
      ensures key in rsMap && fresh(rsMap[key]) && rsMap[key].key == key && rsMap == old(rsMap)[key := rsMap[key]]
      ensures ResourceImage() == old(ResourceImage())[key := ResourceShape(td[key.rs].resource, td[key.rs].schema, [])]
      ensures TraceImage() == old(TraceImage())[key.tid := old(TraceImage())[key.tid] + [rsMap[key]]]
    {
      var t := out[key.tid];
      var node := new ResourceNode(td[key.rs].resource, td[key.rs].schema, key);
      t.resources := t.resources + [node];
      rsMap := rsMap[key := node];
    }

    method AddScope(key: SsKey)
      requires key !in ssMap && InTree(td, key.rs, key.ss) && RsKey(key.tid, key.rs) in rsMap
      requires forall rk :: rk in rsMap ==> rsMap[rk].key == rk
      modifies this`ssMap, rsMap[RsKey(key.tid, key.rs)]
      ensures key in ssMap && fresh(ssMap[key]) && ssMap[key].key == key && ssMap == old(ssMap)[key := ssMap[key]]
      ensures ScopeImage() == old(ScopeImage())[key := td[key.rs].scopes[key.ss].(spans := [])]
      ensures var rk := RsKey(key.tid, key.rs); var shape := old(ResourceImage())[rk];
              ResourceImage() == old(ResourceImage())[rk := shape.(scopes := shape.scopes + [ssMap[key]])]
    {
      var rs := rsMap[RsKey(key.tid, key.rs)];
      var ss := td[key.rs].scopes[key.ss];
      var node := new ScopeNode(ss.scope, ss.schema, key);
      rs.scopes := rs.scopes + [node];
      ssMap := ssMap[key := node];
    }

    method AppendSpan(key: SsKey, span: Span)
      requires key in ssMap && forall sk :: sk in ssMap ==> ssMap[sk].key == sk
      modifies ssMap[key]
      ensures ScopeImage() == old(ScopeImage())[key := old(ScopeImage())[key].(spans := old(ScopeImage())[key].spans + [span])]
    {
      var node := ssMap[key];
      node.spans := node.spans + [span];
    }

    method MakeTrace(tid: TraceId, ghost i: nat)
      requires Nodes(i) && tid !in out
      modifies this`out, this`repr
      ensures Nodes(i) && tid in out && fresh(out[tid]) && repr == old(repr) + {out[tid]}
      ensures TraceImage() == old(TraceImage())[tid := []]
    {
      hide *;
      NodesParts(i);
      ghost var traces := TraceImage();
      AddTrace(tid);
      repr := repr + {out[tid]};
      NewTrace(td, old(out), rsMap, ssMap, traces, tid, out[tid]);
      NodesFrom(i);
    }

    method MakeResource(key: RsKey)
      requires Nodes(key.rs) && key.rs < |td| && key !in rsMap && key.tid in out
      modifies this`rsMap, this`repr, out[key.tid]
      ensures Nodes(key.rs) && key in rsMap && fresh(rsMap[key]) && repr == old(repr) + {rsMap[key]}
      ensures ResourceImage() == old(ResourceImage())[key := ResourceShape(td[key.rs].resource, td[key.rs].schema, [])]
      ensures TraceImage() == old(TraceImage())[key.tid := old(TraceImage())[key.tid] + [rsMap[key]]]
    {
      hide *;
      NodesParts(key.rs);
      ghost var rsMap1, resources, traces := rsMap, ResourceImage(), TraceImage();
      AddResource(key);
      repr := repr + {rsMap[key]};
      NewResource(td, out, rsMap1, ssMap, resources, traces, key, rsMap[key]);
      NodesFrom(key.rs);
    }

    lemma ImageKeys()
      ensures ResourceImage().Keys == rsMap.Keys && TraceImage().Keys == out.Keys && ScopeImage().Keys == ssMap.Keys
    {
    }

    // The nodes on the way to a scope that has none for the trace yet.
    method FindResource(key: RsKey)
      requires Nodes(key.rs) && key.rs < |td| && FullOk(ResourceImage(), TraceImage())
      modifies this`out, this`rsMap, this`repr, repr
      ensures Nodes(key.rs) && key in rsMap && FullBut(ResourceImage(), TraceImage(), key)
      ensures fresh(repr - old(repr)) && ScopeImage() == old(ScopeImage())
    {
      hide *;
      ghost var resources, traces := ResourceImage(), TraceImage();
      ImageKeys();
      if key in rsMap {
        FullBoth(resources, traces, resources, traces, key, []);
        return;
      }
      if key.tid !in out {
        MakeTrace(key.tid, key.rs);
      } else {
        NodeIn(key.rs, key.tid);
      }
      MakeResource(key);
      FullBoth(resources, traces, ResourceImage(), TraceImage(), key, TraceImage()[key.tid]);
    }

    lemma NodeIn(i: nat, tid: TraceId)
      requires Nodes(i) && tid in out
      ensures out[tid] in repr && out[tid] in out.Values
    {
    }

    lemma ResourceIn(i: nat, key: RsKey)
      requires Nodes(i) && key in rsMap
      ensures rsMap[key] in repr && this !in repr
    {
    }

    lemma ScopeIn(i: nat, key: SsKey)
      requires Nodes(i) && key in ssMap
      ensures ssMap[key] in repr && this !in repr
    {
    }

    method MakeScope(key: SsKey, ghost k: nat)
      requires Nodes(key.rs) && key !in ssMap && InTree(td, key.rs, key.ss) && RsKey(key.tid, key.rs) in rsMap
      requires ScopesOk(td, ScopeImage(), key.rs, key.ss, k, {})
      requires FullBut(ResourceImage(), TraceImage(), RsKey(key.tid, key.rs))
      modifies this`ssMap, this`repr, rsMap[RsKey(key.tid, key.rs)]
      ensures Nodes(key.rs) && key in ssMap && fresh(ssMap[key]) && repr == old(repr) + {ssMap[key]}
      ensures ScopesOk(td, ScopeImage(), key.rs, key.ss, k, {key})
      ensures FullOk(ResourceImage(), TraceImage())
    {
      hide *;
      NodesParts(key.rs);
      ghost var ssMap1, resources, scopes, traces := ssMap, ResourceImage(), ScopeImage(), TraceImage();
      AddScope(key);
      repr := repr + {ssMap[key]};
      NewScope(td, out, rsMap, ssMap1, resources, scopes, key, k, ssMap[key]);
      Filled(resources, traces, RsKey(key.tid, key.rs), ssMap[key]);
      NodesFrom(key.rs);
    }

    // The node of scope (i, j) for the trace, made with what its path still lacks if it is missing.
    method FindScope(key: SsKey, ghost k: nat) returns (ghost awaiting: set<SsKey>)
      requires At(key.rs, key.ss, k) && InTree(td, key.rs, key.ss)
      modifies this, repr
      ensures Nodes(key.rs) && ScopesOk(td, ScopeImage(), key.rs, key.ss, k, awaiting) && FullOk(ResourceImage(), TraceImage())
      ensures awaiting <= {key} && key in ssMap && fresh(repr - old(repr)) && ssMap[key] in repr
    {
      assert key.rs < |td|;
      hide *;
      AtParts(key.rs, key.ss, k);
      if key in ssMap {
        ScopeIn(key.rs, key);
        return {};
      }
      awaiting := {key};
      FindResource(RsKey(key.tid, key.rs));
      ResourceIn(key.rs, RsKey(key.tid, key.rs));
      MakeScope(key, k);
    }

    // One more span on a node that exists.
    method GrowScope(key: SsKey, span: Span, ghost k: nat, ghost awaiting: set<SsKey>)
      requires key in ssMap && InTree(td, key.rs, key.ss) && k < |td[key.rs].scopes[key.ss].spans|
      requires span == td[key.rs].scopes[key.ss].spans[k] && span.tid == key.tid && awaiting <= {key}
      requires Nodes(key.rs) && ScopesOk(td, ScopeImage(), key.rs, key.ss, k, awaiting) && FullOk(ResourceImage(), TraceImage())
      modifies ssMap[key]
      ensures At(key.rs, key.ss, k + 1)
    {
      hide *;
      NodesParts(key.rs);
      ghost var scopes := ScopeImage();
      AppendSpan(key, span);
      NewSpan(td, scopes, key, k, awaiting);
      AtFrom(key.rs, key.ss, k + 1);
    }

    // Span k of scope (i, j) goes to its trace's tree, whose missing nodes are made on the way.
    method Place(i: nat, j: nat, k: nat)
      requires InTree(td, i, j) && k < |td[i].scopes[j].spans| && At(i, j, k)
      modifies this, repr
      ensures At(i, j, k + 1) && fresh(repr - old(repr))
    {
      assert i < |td| && j < |td[i].scopes|;
      hide *;
      var span := td[i].scopes[j].spans[k];
      var key := SsKey(span.tid, i, j);
      ghost var awaiting := FindScope(key, k);
      GrowScope(key, span, k, awaiting);
    }

    lemma AtParts(i: nat, j: nat, k: nat)
      requires At(i, j, k)
      ensures Nodes(i) && ScopesOk(td, ScopeImage(), i, j, k, {}) && FullOk(ResourceImage(), TraceImage())
    {
    }

    lemma AtFrom(i: nat, j: nat, k: nat)
      requires Nodes(i) && ScopesOk(td, ScopeImage(), i, j, k, {}) && FullOk(ResourceImage(), TraceImage())
      ensures At(i, j, k)
    {
    }

    lemma NodesParts(i: nat)
      requires Nodes(i)
      ensures KeysOk(td, out, rsMap, ssMap) && ResourcesOk(td, ssMap, ResourceImage(), i) && TracesOk(td, rsMap, TraceImage())
      ensures Owned()
      ensures forall key :: key in ssMap ==> ssMap[key] in repr && ssMap[key].key == key
      ensures forall key :: key in rsMap ==> rsMap[key] in repr
      ensures forall tid :: tid in out ==> out[tid] in repr
      ensures ResourceImage().Keys == rsMap.Keys && TraceImage().Keys == out.Keys && ScopeImage().Keys == ssMap.Keys
      ensures forall key :: key in rsMap ==> key.tid in out && rsMap[key].key == key
      ensures forall tid :: tid in out ==> out[tid].key == tid
    {
    }

    lemma NodesFrom(i: nat)
      requires KeysOk(td, out, rsMap, ssMap) && ResourcesOk(td, ssMap, ResourceImage(), i) && TracesOk(td, rsMap, TraceImage())
      requires this !in repr && forall key :: key in ssMap ==> ssMap[key] in repr
      requires forall key :: key in rsMap ==> rsMap[key] in repr
      requires forall tid :: tid in out ==> out[tid] in repr
      ensures Nodes(i)
    {
    }

    lemma NextScope(i: nat, j: nat)
      requires InTree(td, i, j) && At(i, j, |td[i].scopes[j].spans|)
      ensures At(i, j + 1, 0)
    {
      var n := |td[i].scopes[j].spans|;
      assert i < |td| && j < |td[i].scopes|;
      AtParts(i, j, n);
      hide *;
      SameGot(td, i, j, n, i, j + 1);
      SameScopes(td, ScopeImage(), i, j, n, i, j + 1);
      AtFrom(i, j + 1, 0);
    }

    lemma NextResource(i: nat)
      requires i < |td| && At(i, |td[i].scopes|, 0)
      ensures At(i + 1, 0, 0)
    {
      AtParts(i, |td[i].scopes|, 0);
      LaterNodes(i);
      hide *;
      SameGot(td, i, |td[i].scopes|, 0, i + 1, 0);
      SameScopes(td, ScopeImage(), i, |td[i].scopes|, 0, i + 1, 0);
      AtFrom(i + 1, 0, 0);
    }

    lemma LaterNodes(i: nat)
      requires Nodes(i)
      ensures Nodes(i + 1)
    {
      hide ScopeList, ResourceList;
    }

    lemma {:induction false} ScopeViewsOf(tid: TraceId, rs: nat, n: nat)
      requires rs < |td| && n <= |td[rs].scopes| && At(|td|, 0, 0)
      ensures ScopeViews(ScopeList(ssMap, tid, rs, n)) == OnlyScopes(td[rs].scopes[..n], tid)
    {
      hide At, OnlySpans;
      if n > 0 {
        ScopeViewsOf(tid, rs, n - 1);
        var scopes := td[rs].scopes;
        assert scopes[..n][..n - 1] == scopes[..n - 1];
        var front, key := ScopeList(ssMap, tid, rs, n - 1), SsKey(tid, rs, n - 1);
        ScopeHere(key);
        if key in ssMap {
          ScopeViewsMore(front, ssMap[key]);
        } else {
          assert front + [] == front;
        }
      }
    }

    lemma ScopeHere(key: SsKey)
      requires InTree(td, key.rs, key.ss) && At(|td|, 0, 0)
      ensures key in ssMap <==> OnlySpans(td[key.rs].scopes[key.ss].spans, key.tid) != []
      ensures key in ssMap ==>
                ssMap[key].View() == td[key.rs].scopes[key.ss].(spans := OnlySpans(td[key.rs].scopes[key.ss].spans, key.tid))
    {
      AtParts(|td|, 0, 0);
      hide OnlySpans, ScopeList, ResourceList;
      assert ScopeImage().Keys == ssMap.Keys;
    }

    lemma ResourceHere(key: RsKey)
      requires key.rs < |td| && At(|td|, 0, 0)
      ensures key in rsMap <==> OnlyScopes(td[key.rs].scopes, key.tid) != []
      ensures key in rsMap ==>
                rsMap[key].View() == td[key.rs].(scopes := OnlyScopes(td[key.rs].scopes, key.tid))
    {
      AtParts(|td|, 0, 0);
      NodesParts(|td|);
      var n := |td[key.rs].scopes|;
      ScopeViewsOf(key.tid, key.rs, n);
      assert td[key.rs].scopes[..n] == td[key.rs].scopes;
      if key in rsMap {
        hide OnlyScopes, ScopeList, ResourceList;
        assert ResourceImage()[key].scopes == rsMap[key].scopes != [];
      } else {
        NoScopes(td, out, rsMap, ssMap, key, n);
      }
    }

    lemma {:induction false} ResourceViewsOf(tid: TraceId, n: nat)
      requires n <= |td| && At(|td|, 0, 0)
      ensures ResourceViews(ResourceList(rsMap, tid, n)) == Only(td[..n], tid)
    {
      hide At, OnlyScopes;
      if n > 0 {
        ResourceViewsOf(tid, n - 1);
        assert td[..n][..n - 1] == td[..n - 1];
        var front, key := ResourceList(rsMap, tid, n - 1), RsKey(tid, n - 1);
        ResourceHere(key);
        if key in rsMap {
          ResourceViewsMore(front, rsMap[key]);
        } else {
          assert front + [] == front;
        }
      }
    }

    // At the end every trace tree is the input restricted to its trace ID.
    lemma Done(tid: TraceId)
      requires At(|td|, 0, 0)
      ensures tid in out <==> Only(td, tid) != []
      ensures tid in out ==> out[tid].View() == Only(td, tid)
    {
      AtParts(|td|, 0, 0);
      NodesParts(|td|);
      ResourceViewsOf(tid, |td|);
      assert td[..|td|] == td;
      if tid in out {
        hide Only, ResourceList, ScopeList;
        assert TraceImage()[tid] == out[tid].resources != [];
      } else {
        NoResources(td, out, rsMap, ssMap, tid, |td|);
      }
    }
  }

  // As FullOk, save for one resource node.
  ghost predicate FullBut(resources: map<RsKey, ResourceShape>, traces: map<TraceId, seq<ResourceNode>>, key: RsKey)
  {
    && (forall rk :: rk in resources && rk != key ==> resources[rk].scopes != [])
    && (forall tid :: tid in traces ==> traces[tid] != [])
  }

  lemma FullBoth(resources: map<RsKey, ResourceShape>, traces: map<TraceId, seq<ResourceNode>>,
                 resources': map<RsKey, ResourceShape>, traces': map<TraceId, seq<ResourceNode>>,
                 key: RsKey, nodes: seq<ResourceNode>)
    requires FullOk(resources, traces)
    requires forall rk :: rk in resources' && rk != key ==> rk in resources && resources'[rk] == resources[rk]
    requires traces' == traces || (nodes != [] && traces' == traces[key.tid := nodes])
    ensures FullBut(resources', traces', key)
  {
  }

  lemma Filled(resources: map<RsKey, ResourceShape>, traces: map<TraceId, seq<ResourceNode>>, key: RsKey, node: ScopeNode)
    requires FullBut(resources, traces, key) && key in resources
    ensures FullOk(resources[key := resources[key].(scopes := resources[key].scopes + [node])], traces)
  {
  }

  lemma ScopeViewsMore(nodes: seq<ScopeNode>, node: ScopeNode)
    ensures ScopeViews(nodes + [node]) == ScopeViews(nodes) + [node.View()]
  {
    assert (nodes + [node])[..|nodes|] == nodes;
  }

  lemma ResourceViewsMore(nodes: seq<ResourceNode>, node: ResourceNode)
    ensures ResourceViews(nodes + [node]) == ResourceViews(nodes) + [node.View()]
  {
    assert (nodes + [node])[..|nodes|] == nodes;
  }

  // Between two scopes nothing has been seen of the next one yet, and all of the last.
  lemma SameGot(td: Trace, i: nat, j: nat, k: nat, i': nat, j': nat)
    requires (InTree(td, i, j) && k == |td[i].scopes[j].spans| && i' == i && j' == j + 1)
             || (i < |td| && j == |td[i].scopes| && k == 0 && i' == i + 1 && j' == 0)
    ensures forall key: SsKey :: InTree(td, key.rs, key.ss) ==>
              Got(td, key.tid, key.rs, key.ss, i', j', 0) == Got(td, key.tid, key.rs, key.ss, i, j, k)
  {
    if InTree(td, i, j) {
      assert td[i].scopes[j].spans[..k] == td[i].scopes[j].spans;
    }
  }

  lemma SameScopes(td: Trace, nodes: map<SsKey, ScopeSpans>, i: nat, j: nat, k: nat, i': nat, j': nat)
    requires ScopesOk(td, nodes, i, j, k, {})
    requires forall key: SsKey :: InTree(td, key.rs, key.ss) ==>
               Got(td, key.tid, key.rs, key.ss, i', j', 0) == Got(td, key.tid, key.rs, key.ss, i, j, k)
    ensures ScopesOk(td, nodes, i', j', 0, {})
  {
    hide Got;
  }

  // One tree per trace ID of the input. Together with GroupsPartitionSpans: the trees partition
  // the spans, keep their order, and keep resource, scope and schema URLs.
  method GroupByTrace(td: Trace) returns (out: map<TraceId, TraceNode>)
    ensures forall tid :: tid in out <==> Only(td, tid) != []
    ensures forall tid :: tid in out ==> out[tid].View() == Only(td, tid)
  {
    hide *;
    var g := new Grouper(td);
    StartOfPass(g);
    for i := 0 to |td|
      invariant g.At(i, 0, 0) && fresh(g) && fresh(g.repr) && g.td == td
    {
      for j := 0 to |td[i].scopes|
        invariant g.At(i, j, 0) && fresh(g) && fresh(g.repr) && g.td == td
      {
        InTreeHere(td, i, j);
        for k := 0 to |td[i].scopes[j].spans|
          invariant g.At(i, j, k) && fresh(g) && fresh(g.repr) && g.td == td
        {
          g.Place(i, j, k);
        }
        g.NextScope(i, j);
      }
      g.NextResource(i);
    }
    forall tid ensures (tid in g.out <==> Only(td, tid) != []) && (tid in g.out ==> g.out[tid].View() == Only(td, tid)) {
      g.Done(tid);
    }
    out := g.out;
  }

  lemma InTreeHere(td: Trace, i: nat, j: nat)
    requires i < |td| && j < |td[i].scopes|
    ensures InTree(td, i, j)
  {
  }

  lemma StartOfPass(g: Grouper)
    requires g.out == map[] && g.rsMap == map[] && g.ssMap == map[] && g.repr == {}
    ensures g.At(0, 0, 0)
  {
  }
}
