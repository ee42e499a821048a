// The string attribute filter and its cached regular-expression matcher (string_attribute.go).
module StringFilter {
  import opened Traces

  // A compiled expression is an arbitrary predicate on strings.
  type Regex = string -> bool

  predicate MatchesAny(filters: seq<Regex>, s: string)
  {
    exists i :: 0 <= i < |filters| && filters[i](s)
  }

  datatype Entry = Entry(key: string, value: bool)

  // The cache of the LRU library: newest first, at most `max` entries.
  predicate Lru(cache: seq<Entry>, max: nat)
  {
    && |cache| <= max
    && forall i, j :: 0 <= i < j < |cache| ==> cache[i].key != cache[j].key
  }

  predicate Agrees(cache: seq<Entry>, filters: seq<Regex>)
  {
    forall i :: 0 <= i < |cache| ==> (cache[i].value <==> MatchesAny(filters, cache[i].key))
  }

  lemma MovedToFront(cache: seq<Entry>, i: nat, max: nat, filters: seq<Regex>)
    requires i < |cache| && Lru(cache, max) && Agrees(cache, filters)
    ensures var moved := [cache[i]] + cache[..i] + cache[i + 1..];
            Lru(moved, max) && Agrees(moved, filters) && multiset(moved) == multiset(cache)
  {
    hide MatchesAny;
    var moved := [cache[i]] + cache[..i] + cache[i + 1..];
    assert cache == cache[..i] + [cache[i]] + cache[i + 1..];
    assert forall k :: 1 <= k < |moved| ==> moved[k] == cache[if k <= i then k - 1 else k];
  }

  class Matcher {
    const filters: seq<Regex>
    const max: nat
    var cache: seq<Entry>

    ghost predicate Valid()
      reads this
    {
      max > 0 && Lru(cache, max) && Agrees(cache, filters)
    }

    constructor (filters: seq<Regex>, evictSize: int)
      ensures Valid() && this.filters == filters && cache == []
      ensures max == if evictSize <= 0 then 128 else evictSize
    {
      this.filters := filters;
      max := if evictSize <= 0 then 128 else evictSize;
      cache := [];
    }

    // Get: a hit moves its entry to the front.
    method Get(s: string) returns (found: bool, value: bool)
      requires Valid()
      modifies this
      ensures Valid() && multiset(cache) == multiset(old(cache))
      ensures found <==> exists i :: 0 <= i < |old(cache)| && old(cache)[i].key == s
      ensures found ==> cache != [] && cache[0] == Entry(s, value)
      ensures !found ==> cache == old(cache)
    {
      hide Lru, Agrees, MatchesAny;
      for i := 0 to |cache|
        invariant cache == old(cache) && forall j :: 0 <= j < i ==> cache[j].key != s
      {
        if cache[i].key == s {
          value := cache[i].value;
          MovedToFront(cache, i, max, filters);
          cache := [cache[i]] + cache[..i] + cache[i + 1..];
          return true, value;
        }
      }
      found, value := false, false;
    }

    // Add of a key that is not there: in front, and out with the oldest when there are too many.
    method Add(s: string, value: bool)
      requires Valid() && forall i :: 0 <= i < |cache| ==> cache[i].key != s
      requires value <==> MatchesAny(filters, s)
      modifies this
      ensures Valid()
      ensures cache == ([Entry(s, value)] + old(cache))[..if |old(cache)| < max then |old(cache)| + 1 else max]
    {
      hide MatchesAny;
      cache := [Entry(s, value)] + cache;
      if |cache| > max {
        cache := cache[..|cache| - 1];
      }
    }

    // The matcher: whatever has been evicted, the answer is that of the filters themselves.
    method Match(s: string) returns (yes: bool)
      requires Valid()
      modifies this
      ensures Valid() && (yes <==> MatchesAny(filters, s))
      ensures cache != [] && cache[0] == Entry(s, yes)
    {
      var found, value := Get(s);
      if found {
        return value;
      }
      for i := 0 to |filters|
        invariant cache == old(cache) && forall j :: 0 <= j < i ==> !filters[j](s)
      {
        if filters[i](s) {
          Add(s, true);
          return true;
        }
      }
      Add(s, false);
      yes := false;
    }

    // Over any sequence of lookups.
    method MatchAll(queries: seq<string>) returns (answers: seq<bool>)
      requires Valid()
      modifies this
      ensures Valid() && |answers| == |queries|
      ensures forall i :: 0 <= i < |queries| ==> (answers[i] <==> MatchesAny(filters, queries[i]))
    {
      hide MatchesAny, Lru, Agrees;
      answers := [];
      for i := 0 to |queries|
        invariant Valid() && |answers| == i
        invariant forall j :: 0 <= j < i ==> (answers[j] <==> MatchesAny(filters, queries[j]))
      {
        var yes := Match(queries[i]);
        answers := answers + [yes];
      }
    }

    // The filter over a trace tree: a resource attribute that matches, or a non-empty span attribute.
    method Evaluate(key: string, td: Trace) returns (sampled: bool)
      requires Valid()
      modifies this
      ensures Valid() && (sampled <==> exists i :: 0 <= i < |td| && ResourceHit(key, filters, td[i]))
    {
      hide MatchesAny, Lru, Agrees;
      for i := 0 to |td|
        invariant Valid() && forall m :: 0 <= m < i ==> !ResourceHit(key, filters, td[m])
      {
        if key in td[i].resource {
          var yes := Match(td[i].resource[key]);
          if yes {
            return true;
          }
        }
        for j := 0 to |td[i].scopes|
          invariant Valid() && forall m :: 0 <= m < j ==> !ScopeHit(key, filters, td[i].scopes[m])
        {
          var spans := td[i].scopes[j].spans;
          for k := 0 to |spans|
            invariant Valid() && forall m :: 0 <= m < k ==> !SpanHit(key, filters, spans[m])
          {
            if key in spans[k].attributes && spans[k].attributes[key] != "" {
              var yes := Match(spans[k].attributes[key]);
              if yes {
                assert ScopeHit(key, filters, td[i].scopes[j]);
                return true;
              }
            }
          }
        }
      }
      sampled := false;
    }
  }

  predicate SpanHit(key: string, filters: seq<Regex>, s: Span)
  {
    key in s.attributes && s.attributes[key] != "" && MatchesAny(filters, s.attributes[key])
  }

  predicate ScopeHit(key: string, filters: seq<Regex>, ss: ScopeSpans)
  {
    exists k :: 0 <= k < |ss.spans| && SpanHit(key, filters, ss.spans[k])
  }

  predicate ResourceHit(key: string, filters: seq<Regex>, rs: ResourceSpans)
  {
    || (key in rs.resource && MatchesAny(filters, rs.resource[key]))
    || exists j :: 0 <= j < |rs.scopes| && ScopeHit(key, filters, rs.scopes[j])
  }

  // The exact matcher: the set of the values, without the empty one.
  method ExactValues(values: seq<string>) returns (set_: set<string>)
    ensures forall s :: s in set_ <==> s in values && s != ""
  {
    set_ := {};
    for i := 0 to |values|
      invariant forall s :: s in set_ <==> s in values[..i] && s != ""
    {
      assert values[..i + 1] == values[..i] + [values[i]];
      if values[i] != "" {
        set_ := set_ + {values[i]};
      }
    }
    assert values[..|values|] == values;
  }
}
