/**
 * The route accessor of `useCurrentRoute`: `url` merges a partial query
 * update into the router's current query, and `push` and `replace` hand
 * the merged descriptor to the router.
 */
module UseCurrentRoute {
  import opened Wrappers
  import opened NextRouter

  /**
   * A partial query update. `Some(v)` sets the key to `v`; `None` is an
   * explicit `undefined` and deletes the key; a key absent from the map is
   * not mentioned and keeps its current value.
   */
  type Updates = map<string, Option<Value>>

  /** The keys an update deletes. */
  function RemovedKeys(u: Updates): set<string>
  {
    set k | k in u && u[k].None?
  }

  /** The keys an update sets to a value. */
  function DefinedKeys(u: Updates): set<string>
  {
    set k | k in u && u[k].Some?
  }

  /**
   * Reference definition of the merge: drop the deleted keys from the
   * current query, then overlay the values the update defines.
   */
  function Merge(q: Query, u: Updates): (r: Query)
    ensures forall k :: Lookup(r, k) == if k in u then u[k] else Lookup(q, k)
    ensures r.Keys == (q.Keys + DefinedKeys(u)) - RemovedKeys(u)
  {
    (q - RemovedKeys(u)) + map k | k in DefinedKeys(u) :: u[k].value
  }

  /** An empty update leaves the query as it is. */
  lemma MergeEmpty(q: Query)
    ensures Merge(q, map[]) == q
  {
  }

  /** Merging the same update a second time changes nothing. */
  lemma MergeIdempotent(q: Query, u: Updates)
    ensures Merge(Merge(q, u), u) == Merge(q, u)
  {
  }

  /** The scenario query `{id: "ID"}` of the route "/foo/[id]/bar". */
  function ExampleQuery(): Query
  {
    map["id" := Single("ID")]
  }

  /** On `{id: "ID"}`, `{id: "NEW_ID"}` replaces the value of `id`. */
  lemma MergeReplaceExample()
    ensures Merge(ExampleQuery(), map["id" := Some(Single("NEW_ID"))]) == map["id" := Single("NEW_ID")]
  {
  }

  /** On `{id: "ID"}`, `{arg: "ARG"}` adds `arg` and keeps `id`. */
  lemma MergeAddExample()
    ensures Merge(ExampleQuery(), map["arg" := Some(Single("ARG"))])
            == map["id" := Single("ID"), "arg" := Single("ARG")]
  {
  }

  /** On `{id: "ID"}`, `{id: undefined, arg: "ARG"}` drops `id` and adds `arg`. */
  lemma MergeRemoveExample()
    ensures Merge(ExampleQuery(), map["id" := None, "arg" := Some(Single("ARG"))]) == map["arg" := Single("ARG")]
  {
  }

  /** One `[queryKey, newValue]` pair of `Object.entries(queryUpdates)`. */
  datatype Entry = Entry(key: string, update: Option<Value>)

  /** One turn of the `forEach` body: delete the key on `undefined`, assign it otherwise. */
  function Apply(q: Query, e: Entry): Query
  {
    if e.update.None? then q - {e.key} else q[e.key := e.update.value]
  }

  /** The `forEach` over a list of entries, first entry first. */
  function ApplyEntries(q: Query, es: seq<Entry>): Query
    decreases |es|
  {
    if es == [] then q else Apply(ApplyEntries(q, es[..|es| - 1]), es[|es| - 1])
  }

  /** The update object a list of entries was read from. */
  function UpdatesOf(es: seq<Entry>): Updates
    decreases |es|
  {
    if es == [] then map[] else UpdatesOf(es[..|es| - 1])[es[|es| - 1].key := es[|es| - 1].update]
  }

  /** The entries of an object have pairwise distinct keys. */
  predicate DistinctKeys(es: seq<Entry>)
  {
    forall i, j :: 0 <= i < j < |es| ==> es[i].key != es[j].key
  }

  /** With distinct keys, every entry is found under its key, and nothing else is. */
  lemma {:induction false} UpdatesOfEntries(es: seq<Entry>)
    requires DistinctKeys(es)
    ensures forall e :: e in es ==> e.key in UpdatesOf(es) && UpdatesOf(es)[e.key] == e.update
    ensures forall k :: k in UpdatesOf(es) ==> exists e :: e in es && e.key == k
  {
    if es != [] {
      var init, last := es[..|es| - 1], es[|es| - 1];
      assert DistinctKeys(init);
      UpdatesOfEntries(init);
      forall e | e in es ensures e.key in UpdatesOf(es) && UpdatesOf(es)[e.key] == e.update {
        if e != last {
          var i :| 0 <= i < |es| && es[i] == e;
          assert i < |es| - 1;
          assert e in init;
        }
      }
      forall k | k in UpdatesOf(es) ensures exists e :: e in es && e.key == k {
        if k != last.key {
          var e :| e in init && e.key == k;
          assert e in es;
        }
      }
    }
  }

  /** Handling one more key on top of a merge is the merge of the larger update. */
  lemma MergeAddKey(q: Query, u: Updates, e: Entry)
    requires e.key !in u
    ensures Merge(q, u[e.key := e.update]) == Apply(Merge(q, u), e)
  {
    var bigger, stepped := Merge(q, u[e.key := e.update]), Apply(Merge(q, u), e);
    forall k | k in bigger ensures k in stepped && bigger[k] == stepped[k] {
      assert Lookup(bigger, k) == Lookup(stepped, k);
    }
  }

  /**
   * Walking the entries of an update, in the order they come, yields the
   * reference merge.
   */
  lemma {:induction false} ApplyEntriesIsMerge(q: Query, es: seq<Entry>)
    requires DistinctKeys(es)
    ensures ApplyEntries(q, es) == Merge(q, UpdatesOf(es))
  {
    if es != [] {
      var init, last := es[..|es| - 1], es[|es| - 1];
      assert DistinctKeys(init);
      ApplyEntriesIsMerge(q, init);
      UpdatesOfEntries(init);
      MergeAddKey(q, UpdatesOf(init), last);
    }
  }

  /** The order in which the entries are walked does not change the result. */
  lemma EntryOrderIrrelevant(q: Query, es1: seq<Entry>, es2: seq<Entry>)
    requires DistinctKeys(es1) && DistinctKeys(es2)
    requires multiset(es1) == multiset(es2)
    ensures ApplyEntries(q, es1) == ApplyEntries(q, es2)
  {
    UpdatesOfEntries(es1);
    UpdatesOfEntries(es2);
    var u1, u2 := UpdatesOf(es1), UpdatesOf(es2);
    forall e ensures e in es1 <==> e in es2 {
      assert e in es1 <==> e in multiset(es1);
      assert e in es2 <==> e in multiset(es2);
    }
    forall k | k in u1 ensures k in u2 && u1[k] == u2[k] {
      var e :| e in es1 && e.key == k;
    }
    forall k | k in u2 ensures k in u1 {
      var e :| e in es2 && e.key == k;
    }
    assert u1 == u2;
    ApplyEntriesIsMerge(q, es1);
    ApplyEntriesIsMerge(q, es2);
  }

  /**
   * Progress of the `forEach` over `updates`: the keys in `visited` are the
   * ones walked so far, each once, and `remaining` holds the rest.
   */
  ghost predicate Walked(updates: Updates, remaining: set<string>, visited: seq<Entry>)
  {
    && remaining <= updates.Keys
    && DistinctKeys(visited)
    && (forall i :: 0 <= i < |visited| ==> visited[i].key !in remaining)
    && UpdatesOf(visited) == updates - remaining
  }

  /** Walking one more key of the update keeps `Walked` and applies that key's entry. */
  lemma WalkStep(q: Query, updates: Updates, remaining: set<string>, visited: seq<Entry>, key: string)
    requires Walked(updates, remaining, visited) && key in remaining
    ensures Walked(updates, remaining - {key}, visited + [Entry(key, updates[key])])
    ensures ApplyEntries(q, visited + [Entry(key, updates[key])])
            == Apply(ApplyEntries(q, visited), Entry(key, updates[key]))
  {
  }

  /** Once every key is walked, the entries walked give the reference merge. */
  lemma WalkDone(q: Query, updates: Updates, visited: seq<Entry>)
    requires Walked(updates, {}, visited)
    ensures ApplyEntries(q, visited) == Merge(q, updates)
  {
    assert updates - {} == updates;
    ApplyEntriesIsMerge(q, visited);
  }

  /** The accessor object bound to one router. */
  class CurrentRoute {
    const router: Router

    constructor (router: Router)
      ensures this.router == router
    {
      this.router := router;
    }

    /**
     * The router's pathname with the update merged into a copy of its query.
     * The router is left as it was: this method modifies nothing.
     */
    method Url(updates: Updates) returns (url: UrlObject)
      ensures url.pathname == router.pathname
      ensures url.query == Merge(router.query, updates)
    {
      var query := router.query;
      var remaining := updates.Keys;
      ghost var visited: seq<Entry> := [];
      while remaining != {}
        invariant Walked(updates, remaining, visited)
        invariant query == ApplyEntries(router.query, visited)
        decreases remaining
      {
        var key :| key in remaining;
        var newValue := updates[key];
        if newValue.None? {
          query := query - {key};
        } else {
          query := query[key := newValue.value];
        }
        WalkStep(router.query, updates, remaining, visited, key);
        visited := visited + [Entry(key, newValue)];
        remaining := remaining - {key};
      }
      WalkDone(router.query, updates, visited);
      url := UrlObject(router.pathname, query);
    }

    /** Asks the router to navigate, on a new history entry, to what `Url` returns. */
    method Push(updates: Updates)
      modifies router`requests
      ensures router.requests == old(router.requests)
                                 + [Navigation(PushEntry, UrlObject(router.pathname, Merge(router.query, updates)))]
    {
      var url := Url(updates);
      router.Push(url);
    }

    /** Asks the router to navigate, in place of the current entry, to what `Url` returns. */
    method Replace(updates: Updates)
      modifies router`requests
      ensures router.requests == old(router.requests)
                                 + [Navigation(ReplaceEntry, UrlObject(router.pathname, Merge(router.query, updates)))]
    {
      var url := Url(updates);
      router.Replace(url);
    }
  }

  /** `useCurrentRoute()`: the router's current query and an accessor bound to the router. */
  method UseCurrentRoute(router: Router) returns (query: Query, route: CurrentRoute)
    ensures query == router.query
    ensures fresh(route) && route.router == router
  {
    query := router.query;
    route := new CurrentRoute(router);
  }
}
