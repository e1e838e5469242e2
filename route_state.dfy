/**
 * `useRouteState(queryKey)`: one query key treated as a piece of state
 * stored in the URL. The value is read from the router's query; the setter
 * builds a one-key update and dispatches it to `replace`, `push` or `url`.
 */
module UseRouteState {
  import opened Wrappers
  import opened NextRouter
  import opened UseCurrentRoute

  /** The route methods the setter can dispatch to. */
  datatype RouteMethod = Replace | Push | Url

  /** What the setter returns: a pending navigation, or the computed descriptor in `Url` mode. */
  datatype SetterResult = Pending | Computed(url: UrlObject)

  /** The dispatch target when the caller may leave the method out. */
  function MethodOrDefault(m: Option<RouteMethod>): (r: RouteMethod)
    ensures m.None? ==> r == Replace
    ensures m.Some? ==> r == m.value
  {
    match m
    case None => Replace
    case Some(given) => given
  }

  /** The update `{[queryKey]: newValue}`: one key, mapped to the new value or to `undefined`. */
  function SingleKeyUpdate(queryKey: string, newValue: Option<Value>): (u: Updates)
    ensures u.Keys == {queryKey}
    ensures u[queryKey] == newValue
  {
    map[queryKey := newValue]
  }

  /** The state's current value: what the router's query holds under `queryKey`. */
  function CurrentValue(router: Router, queryKey: string): (v: Option<Value>)
    reads router
    ensures v.None? <==> queryKey !in router.query
    ensures v.Some? ==> v.value == router.query[queryKey]
  {
    Lookup(router.query, queryKey)
  }

  /**
   * The setter: builds the one-key update and hands it to the route method
   * chosen, `Replace` when none is given. `Url` mode returns the merged
   * descriptor and requests nothing; the other two request a navigation to it.
   */
  method SetValue(route: CurrentRoute, queryKey: string, newValue: Option<Value>, routeMethod: Option<RouteMethod>)
    returns (r: SetterResult)
    modifies route.router`requests
    ensures var url := UrlObject(route.router.pathname, Merge(route.router.query, SingleKeyUpdate(queryKey, newValue)));
            match MethodOrDefault(routeMethod)
            case Url => r == Computed(url) && route.router.requests == old(route.router.requests)
            case Push => r == Pending && route.router.requests == old(route.router.requests) + [Navigation(PushEntry, url)]
            case Replace => r == Pending && route.router.requests == old(route.router.requests) + [Navigation(ReplaceEntry, url)]
  {
    var queryUpdates := SingleKeyUpdate(queryKey, newValue);
    match MethodOrDefault(routeMethod)
    case Url =>
      var url := route.Url(queryUpdates);
      r := Computed(url);
    case Push =>
      route.Push(queryUpdates);
      r := Pending;
    case Replace =>
      route.Replace(queryUpdates);
      r := Pending;
  }

  /**
   * Reading the key back from the query the setter produces gives the value
   * set; setting `undefined` leaves the key absent.
   */
  lemma GetAfterSet(q: Query, queryKey: string, newValue: Option<Value>)
    ensures Lookup(Merge(q, SingleKeyUpdate(queryKey, newValue)), queryKey) == newValue
    ensures newValue.None? ==> queryKey !in Merge(q, SingleKeyUpdate(queryKey, newValue))
  {
  }

  /** Setting one key leaves every other key of the query as it was. */
  lemma SetLeavesOtherKeys(q: Query, queryKey: string, newValue: Option<Value>)
    ensures var r := Merge(q, SingleKeyUpdate(queryKey, newValue));
            && (forall k :: k != queryKey ==> Lookup(r, k) == Lookup(q, k))
            && r.Keys == if newValue.Some? then q.Keys + {queryKey} else q.Keys - {queryKey}
  {
  }

  /** Setting the value the key already holds gives back the current query. */
  lemma SetCurrentValueIsNoOp(q: Query, queryKey: string)
    ensures Merge(q, SingleKeyUpdate(queryKey, Lookup(q, queryKey))) == q
  {
  }

  /** In `Url` mode on `{id: "ID"}`, setting `id` to "123" gives `{id: "123"}`. */
  lemma SetIdUrlExample()
    ensures Merge(ExampleQuery(), SingleKeyUpdate("id", Some(Single("123")))) == map["id" := Single("123")]
  {
  }

  /** In `Url` mode on `{id: "ID"}`, setting `search` to "TEST" adds it beside `id`. */
  lemma SetSearchUrlExample()
    ensures Merge(ExampleQuery(), SingleKeyUpdate("search", Some(Single("TEST"))))
            == map["id" := Single("ID"), "search" := Single("TEST")]
  {
  }
}
