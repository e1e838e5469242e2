/**
 * The host router as the two hooks see it: the current pathname and parsed
 * query, and the two navigation calls they hand route descriptors to.
 * Navigation itself belongs to the router; here a navigation call only
 * records the descriptor it was given.
 */
module NextRouter {
  import opened Wrappers

  /** A parsed query parameter: one string, or the strings of a repeated key. */
  datatype Value = Single(text: string) | Multiple(items: seq<string>)

  /** A parsed query string: each key at most once, in no particular order. */
  type Query = map<string, Value>

  /** A route descriptor: a pathname pattern such as "/foo/[id]/bar" and its query. */
  datatype UrlObject = UrlObject(pathname: string, query: Query)

  /** Whether a navigation adds a history entry or replaces the current one. */
  datatype NavigationKind = PushEntry | ReplaceEntry

  /** One navigation request, as the router received it. */
  datatype Navigation = Navigation(kind: NavigationKind, url: UrlObject)

  /** Reading `query[key]`: the value under `key`, or `undefined` when the key is absent. */
  function Lookup(q: Query, key: string): (v: Option<Value>)
    ensures v.Some? <==> key in q
    ensures v.Some? ==> v.value == q[key]
  {
    if key in q then Some(q[key]) else None
  }

  class Router {
    var pathname: string
    var query: Query
    /** Every navigation requested of this router, oldest first. */
    var requests: seq<Navigation>

    constructor (pathname: string, query: Query)
      ensures this.pathname == pathname && this.query == query
      ensures requests == []
    {
      this.pathname := pathname;
      this.query := query;
      requests := [];
    }

    /** Requests a navigation to `url` on a new history entry. */
    method Push(url: UrlObject)
      modifies this`requests
      ensures requests == old(requests) + [Navigation(PushEntry, url)]
    {
      requests := requests + [Navigation(PushEntry, url)];
    }

    /** Requests a navigation to `url` in place of the current history entry. */
    method Replace(url: UrlObject)
      modifies this`requests
      ensures requests == old(requests) + [Navigation(ReplaceEntry, url)]
    {
      requests := requests + [Navigation(ReplaceEntry, url)];
    }
  }
}
