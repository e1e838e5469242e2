# next-current-route, modelled in Dafny

A model of the two hooks of next-current-route, a thin layer over the Next.js
router that treats the query string as state.

- `useCurrentRoute` gives the router's current query and an accessor with
  `url`, `push` and `replace`. `url(updates)` copies the router's query and
  walks the update's entries: a key whose new value is `undefined` is
  deleted, any other key is set. The pathname is copied unchanged. `push` and
  `replace` hand the descriptor `url` returns to the router.
- `useRouteState(queryKey)` reads `query[queryKey]` and returns a setter. The
  setter builds the one-key update `{[queryKey]: newValue}` and dispatches it
  to `replace` (the default), `push` or `url`.

Files:

- `wrappers.dfy`: `Option`. `None` stands for JavaScript's `undefined`.
- `next_router.dfy`: query values, queries, route descriptors and the host
  router. The router only records the navigations it is asked for.
- `current_route.dfy`: the merge (`Merge`, the reference definition), the
  entry-by-entry walk (`ApplyEntries`), and the accessor class `CurrentRoute`.
  `CurrentRoute.Url` runs the `forEach` loop as a `while` loop and is proved
  equal to `Merge`.
- `route_state.dfy`: the single-key state: its current value, the one-key
  update, the method dispatch and the setter.

## Model

| member | source | states |
|---|---|---|
| `UseCurrentRoute.Merge` | src/useCurrentRoute.tsx:28-37 | for every key, the merged query holds the update's value if the update mentions the key (absent when that value is `undefined`), and the current query's value otherwise; the key set is (current keys plus defined update keys) minus the deleted keys |
| `UseCurrentRoute.MergeEmpty` | src/useCurrentRoute.tsx:28-37 | an empty update returns a query equal to the current one |
| `UseCurrentRoute.MergeIdempotent` | src/useCurrentRoute.tsx:30-37 | merging the same update into the result again changes nothing |
| `UseCurrentRoute.MergeReplaceExample` | src/useCurrentRoute.test.tsx:50-52 | on query `{id: "ID"}`, the update `{id: "NEW_ID"}` gives `{id: "NEW_ID"}` |
| `UseCurrentRoute.MergeAddExample` | src/useCurrentRoute.test.tsx:54-56 | on query `{id: "ID"}`, the update `{arg: "ARG"}` gives `{id: "ID", arg: "ARG"}` |
| `UseCurrentRoute.MergeRemoveExample` | src/useCurrentRoute.test.tsx:62-64 | on query `{id: "ID"}`, the update `{id: undefined, arg: "ARG"}` gives `{arg: "ARG"}`, with no `id` key |
| `UseCurrentRoute.MergeAddKey` | src/useCurrentRoute.tsx:31-36 | one turn of the loop body (delete on `undefined`, assign otherwise) on top of a merge equals the merge of the update with that key added |
| `UseCurrentRoute.ApplyEntriesIsMerge` | src/useCurrentRoute.tsx:30-37 | walking an object's entries, delete-or-assign one after the other, yields the reference merge of that object |
| `UseCurrentRoute.EntryOrderIrrelevant` | src/useCurrentRoute.tsx:30-37 | any two orders of the same entries give the same query |
| `UseCurrentRoute.CurrentRoute.Url` | src/useCurrentRoute.tsx:24-40 | the result's pathname is the router's pathname and its query is the merge of the router's query with the update; the method modifies nothing, so the router's query is left as it was |
| `UseCurrentRoute.CurrentRoute.Push` | src/useCurrentRoute.tsx:18-20 | the router receives exactly one new push request, whose descriptor is what `Url` returns for the same update |
| `UseCurrentRoute.CurrentRoute.Replace` | src/useCurrentRoute.tsx:21-23 | the router receives exactly one new replace request, whose descriptor is what `Url` returns for the same update |
| `UseCurrentRoute.UseCurrentRoute` | src/useCurrentRoute.tsx:11-45 | returns the router's current query and a new accessor bound to that router |
| `UseRouteState.CurrentValue` | src/useRouteState.tsx:18 | the state's value is the query's value under the key, and absent exactly when the key is not in the query |
| `UseRouteState.SingleKeyUpdate` | src/useRouteState.tsx:22-24 | the setter's update has exactly one key, the state's key, mapped to the new value |
| `UseRouteState.MethodOrDefault` | src/useRouteState.tsx:21 | with no method given the setter dispatches to `Replace`, otherwise to the method given |
| `UseRouteState.SetValue` | src/useRouteState.tsx:20-29 | `Url` mode returns the merged descriptor and requests nothing; `Push` and `Replace` request exactly one navigation of their kind to that descriptor |
| `UseRouteState.GetAfterSet` | src/useRouteState.tsx:22-26 | reading the key from the query the setter produces gives the new value; setting `undefined` leaves the key absent |
| `UseRouteState.SetLeavesOtherKeys` | src/useRouteState.tsx:22-26 | setting one key leaves every other key's value as it was; the key set gains or loses only the state's key |
| `UseRouteState.SetCurrentValueIsNoOp` | src/useRouteState.tsx:22-26 | setting the value the key already holds gives back the current query |
| `UseRouteState.SetIdUrlExample` | src/useRouteState.test.tsx:58-61 | on query `{id: "ID"}`, setting `id` to "123" in `Url` mode gives the query `{id: "123"}` |
| `UseRouteState.SetSearchUrlExample` | src/useRouteState.test.tsx:63-66 | on query `{id: "ID"}`, setting `search` to "TEST" in `Url` mode gives `{id: "ID", search: "TEST"}` |

## Left out

- The router itself: `push` and `replace` only record the requested descriptor. Real navigation, the history stack and route-change events belong to Next.js.
- The `Promise<boolean>` that `push` and `replace` return: the setter's result in those modes is the constant `Pending`.
- React memoization (`useMemo`, `useCallback`): it decides when the accessor and the setter are rebuilt, not what they compute.
- Building the `asPath` string (filling `[id]` into the path, serialising the query string): the router does that, not this code.
- TypeScript generics and casts: query values are the opaque `Value` (a string or a string array).
- A parsed query holding a key whose value is `undefined`: the router's query comes from a parsed URL, so the model's `Query` maps every key to a value.
- The key order of the result object: a JavaScript object remembers the order in which keys were added, and that order shows in `Object.keys` and in the order the router writes the query string. The model's `Query` is a map without order, so `CurrentRoute.Url` walks the update's keys in an arbitrary order, and `EntryOrderIrrelevant` shows only that the resulting key-value pairs do not depend on it.
- Keys named like `Object.prototype` properties: an update key `__proto__` runs the inherited setter instead of adding a key, so the query stays as it was (a string value is ignored). `Merge` treats `__proto__` as an ordinary key and adds it.
- `push` and `replace` work only when called as methods of the accessor: they call `this.url(...)`, so a detached call (`const {push} = route; push(u)`) throws a TypeError. The model's `CurrentRoute.Push` and `CurrentRoute.Replace` are always called on their object and always succeed.
- The declared type of the setter's `url` overload: it says the result is a `ParsedUrlQuery`, but at run time the setter returns what `url` returns, the `{pathname, query}` descriptor. `SetValue` follows the run-time value (`Computed(url)`), not the declared type.
- The setter's `useCallback` dependency list names only `route`, not `queryKey`: under memoization a setter kept across a change of `queryKey` would write the old key. Memoization is left out, so `SetValue` always uses the key it is given.
