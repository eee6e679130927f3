# Bookmark list store (aarlo `LinkStore`)

A Dafny model of `LinkStore`, the bookmark list store of the aarlo client for
a Shaarli link-archiving service. The store keeps one cache (`ListState`) per
list kind (`ListType`): every link, the tag index, or one tag's links. Each
cache holds its links, `canLoadMore`, `searchText` and `didLoad`. One global
`isLoading` flag lets a single client call be outstanding at a time. One
global `showLoadingError` flag records failures. `reduce` dispatches the
actions `load`, `search`, `loadMoreIfNeeded`, `changeSearchText`,
`setShowLoadingError`, `add`, `update` and `delete`.

Files:

- `bookmarks.dfy` (module `Bookmarks`): `Link`, `Tag`, `PostLink`, `ListType`
  and the tag filter `ScopedTags`.
- `list_cache.dfy` (module `ListCache`): `ListState`, and the pure rewrites
  `Updated` and `Deleted` that a successful edit applies to each cache.
- `stores.dfy` (module `Stores`): the store `State`, its read accessors, and
  the class `LinkStore` with `Reduce`, the operations and `LinkFor`. It also
  holds a pure model of the store as a value (`Machine`, `Dispatch`,
  `Resumed`); every state-changing method of the class is proved to follow
  it, and `LinkFor` has its own contract over the caches.
- `store_properties.dfy` (module `StoreProperties`): lemmas about `Dispatch`
  and `Resumed` that relate several steps.

How the asynchronous code is modelled. Each network-backed operation is one
`Task` with a single `await`. The model splits it into two halves:

- The first half runs when the action is dispatched (`LinkStore.Reduce`).
  It checks the busy guard, raises `isLoading`, takes the local copy of the
  list's cache, and returns the client `Request` it issued, or `None` when
  nothing was called.
- The second half is `LinkStore.Resume(reply)`. It takes the client's answer
  as a parameter: a page, completion, or a thrown error. It does the
  write-back, the deferred reset of `isLoading`, and the dispatcher's `catch`
  that raises `showLoadingError`.

While a call is out, the waiting half is kept in the field `inFlight`. The
class invariant `Valid()` says `isLoading` holds exactly while `inFlight` is
set. So single flight can be observed directly: while busy, a network action
issues no request and changes nothing.

The model keeps these behaviours of the code, which a reader may not expect:

- A failed load does not set `didLoad`. The flag is set on the local copy,
  and the copy is written back only on success.
- A success never clears `showLoadingError`. Only the `catch` in `reduce`
  (set to true) and `setShowLoadingError` write it.
- `link(for:)` returns the first match in dictionary iteration order, which
  Swift does not fix. The model only promises some cached match.
- The load writes back the cache copy it took before the `await`. So a
  `changeSearchText` made while that fetch is out is overwritten on success
  (`StoreProperties.EditDuringLoadIsOverwritten`).

## Model

| member | source | states |
|---|---|---|
| `Bookmarks.ScopedTags` | Shared/Stores/LinkStore.swift:161-170 | the filter has at most one tag: exactly the tag's name for a tag-scoped list, none for `all` and `tags` |
| `ListCache.FirstIndexOfId` | Shared/Stores/LinkStore.swift:264 | the result is the first position whose link has the id; `None` exactly when no cached link has it |
| `ListCache.Without` | Shared/Stores/LinkStore.swift:273-275 | `removeAll` by value leaves an in-order subsequence whose multiset is the input's with every copy of the link removed |
| `ListCache.WithoutIsUnique` | Shared/Stores/LinkStore.swift:271-278 | that subsequence-and-multiset contract determines the removal's result uniquely |
| `ListCache.Updated` | Shared/Stores/LinkStore.swift:262-269 | same length and metadata; only the first link with the edited id becomes the edit; a cache without the id is unchanged |
| `ListCache.Deleted` | Shared/Stores/LinkStore.swift:271-278 | metadata unchanged; the links are exactly `Without` of the old links: no copy equal to the link remains, and every other link keeps its copies and their order |
| `Stores.CacheOf` | Shared/Stores/LinkStore.swift:99 | the cache of a list, or the default empty cache when the list has none |
| `Stores.SearchText` | Shared/Stores/LinkStore.swift:67-70 | the list's search text, `""` when it has no cache |
| `Stores.DidLoad` | Shared/Stores/LinkStore.swift:139-141 | the list's `didLoad`, false when it has no cache |
| `Stores.Links` | Shared/Stores/LinkStore.swift:143-145 | the list's cached links, `[]` when it has no cache |
| `Stores.CanLoadMore` | Shared/Stores/LinkStore.swift:157-159 | the list's `canLoadMore`, false when it has no cache |
| `Stores.LinkStore.constructor` | Shared/Stores/LinkStore.swift:50-56 | starts with no caches, both flags false and nothing in flight |
| `Stores.LinkStore.Reduce` | Shared/Stores/LinkStore.swift:72-133 | the new store and the issued client call are those `Dispatch` gives for the action; `isLoading` holds iff an operation is waiting |
| `Stores.LinkStore.Load` | Shared/Stores/LinkStore.swift:176-192 | while busy nothing happens; otherwise the gate is taken and a first-page fetch is issued with the list's tag filter and search text |
| `Stores.LinkStore.LoadMoreIfNeeded` | Shared/Stores/LinkStore.swift:197-213 | fetches at offset equal to the cached count only when idle and the link's id is the last cached link's id |
| `Stores.LinkStore.Add` | Shared/Stores/LinkStore.swift:221-229 | gated; issues the create call |
| `Stores.LinkStore.Update` | Shared/Stores/LinkStore.swift:232-240 | gated; issues the update call |
| `Stores.LinkStore.Delete` | Shared/Stores/LinkStore.swift:247-255 | gated; issues the delete call |
| `Stores.LinkStore.Resume` | Shared/Stores/LinkStore.swift:176-260 | the new store is `Resumed` of the old one for the client's answer: write-back on success, gate released on every path, error flag on failure |
| `Stores.LinkStore.ApplyUpdate` | Shared/Stores/LinkStore.swift:242-244 | after the loop every cache is its `Updated` rewrite, the keys are unchanged and the flags are untouched |
| `Stores.LinkStore.ApplyDelete` | Shared/Stores/LinkStore.swift:257-259 | after the loop every cache is its `Deleted` rewrite, the keys are unchanged and the flags are untouched |
| `Stores.LinkStore.LinkFor` | Shared/Stores/LinkStore.swift:147-155 | a result has the requested id and is held by some cache; `None` only when no cache holds that id |
| `StoreProperties.GateStaysConsistent` | Shared/Stores/LinkStore.swift:176-181 | dispatching keeps `isLoading` in step with the waiting operation; an issued call takes a free gate; resuming always releases it |
| `StoreProperties.BusyStoreDropsNetworkActions` | Shared/Stores/LinkStore.swift:176-255 | while `isLoading`, every network-backed action issues nothing and changes nothing |
| `StoreProperties.IdleStoreIssues` | Shared/Stores/LinkStore.swift:221-240 | with the gate free, load, search, add, update and delete always call the client and take the gate |
| `StoreProperties.SingleFlight` | Shared/Stores/LinkStore.swift:176-260 | after one call is issued, any run of further network actions before its answer calls the client for none of them and leaves the store exactly as it was |
| `StoreProperties.ReplayDropped` | Shared/Stores/LinkStore.swift:176-255 | a busy store is unchanged by any sequence of network-backed actions, and none of them issues a call |
| `StoreProperties.LoadReplacesCache` | Shared/Stores/LinkStore.swift:183-194 | the list's new cache is its old (or default) cache with every other field kept: a successful load replaces the links with the page, sets `didLoad`, sets `canLoadMore` iff the page is full, and keeps the search text, the other caches and the error flag |
| `StoreProperties.SearchIsLoad` | Shared/Stores/LinkStore.swift:74-89 | `search` and `load` have the same effect |
| `StoreProperties.LoadMoreGuard` | Shared/Stores/LinkStore.swift:198-202 | pagination fetches iff idle and the link has the last cached link's id; otherwise nothing changes, not even `isLoading`; an empty or missing cache never fetches |
| `StoreProperties.EarlierLinkDoesNotPaginate` | Shared/Stores/LinkStore.swift:202 | a cached link that is not last (and has a different id) does not trigger a fetch |
| `StoreProperties.LoadMoreAppends` | Shared/Stores/LinkStore.swift:210-217 | the list's new cache is its old cache with every other field kept, and the error flag is unchanged: a successful page fetch asks at offset = old count; the new links are the old ones followed by the page; `canLoadMore` comes from the new page only |
| `StoreProperties.AddChangesNoCache` | Shared/Stores/LinkStore.swift:221-230 | adding a link changes no cache, whether it succeeds or fails |
| `StoreProperties.UpdateReachesEveryCache` | Shared/Stores/LinkStore.swift:232-245 | a successful update rewrites every cache: length and metadata kept, only the first id match replaced, caches without the id identical |
| `StoreProperties.DeleteReachesEveryCache` | Shared/Stores/LinkStore.swift:247-260 | a successful delete rewrites every cache to its links without the deleted value, metadata kept, none longer than before |
| `StoreProperties.DeleteMatchesWholeValue` | Shared/Stores/LinkStore.swift:273-275 | a cached copy with the same id but another field changed survives a delete |
| `StoreProperties.FailureKeepsCaches` | Shared/Stores/LinkStore.swift:76-80 | a client failure leaves every cache unchanged, raises `showLoadingError` and releases the gate |
| `StoreProperties.FailedLoadIsNotMarkedLoaded` | Shared/Stores/LinkStore.swift:183-194 | a failed first load of a list leaves it without a cache, so `didLoad` stays false |
| `StoreProperties.ChangeSearchTextEffects` | Shared/Stores/LinkStore.swift:98-105 | the list's cache becomes its old (or default) cache with the new search text; the other caches and the error flag are unchanged; a call is issued iff the text is empty and the gate is free, and it is a first-page load that waits to write back under that same list; otherwise the gate and the waiting operation are untouched |
| `StoreProperties.SetShowLoadingErrorOnlyWritesFlag` | Shared/Stores/LinkStore.swift:106-107 | the flag takes the given value whether or not a call is out; no call, no cache, the gate and the waiting operation are unchanged; a second write supersedes the first |
| `StoreProperties.MissingListDefaults` | Shared/Stores/LinkStore.swift:139-159 | for a list with no cache the accessors read `""`, `false`, `[]` and `false` |
| `StoreProperties.EditDuringLoadIsOverwritten` | Shared/Stores/LinkStore.swift:183-194 | a search-text edit made while a load is out is replaced by the text captured before the fetch |
| `StoreProperties.FullPageThenShortPage` | Shared/Stores/LinkStore.swift:183-217 | with page size 20, a full first page allows more; a 5-link second page gives 25 links and no more |
| `StoreProperties.EditReachesBothLists` | Shared/Stores/LinkStore.swift:242-244 | an edited link cached under every link and under one tag is replaced at its own position in both lists |

## Left out

- The bookmark client (`Shared/Networking/ShaarliClient.swift`): HTTP, JWT signing, keychain and JSON decoding. Its answers are the `Reply` parameter of `Resume`, and its page size is the constant `pageSize`.
- The definitions of `Link`, `Tag` and `PostLink` are not part of this model. The store reads only `Link.id` and `Tag.name`; the other fields are assumed. The app's real `Link` may hold more, such as dates, and it keeps `url` as a `URL`. `delete` removes links equal in all fields, so the model's value equality covers only the fields it lists. The caches are keyed by list kind, so two tag-scoped lists are the same list exactly when their `Tag`s are equal in every modelled field; the real `Tag`'s equality is assumed.
- Swift concurrency: `Task` scheduling, `@MainActor` and `@Published` observation. The first half of an operation runs at dispatch, not when its `Task` is first scheduled. The model fixes that order: the first halves run in the order the actions are dispatched.
- The `showLoadingError` `Binding` (Shared/Stores/LinkStore.swift:58-65) is left out. Its setter is the `SetShowLoadingError` action.
- The `#if DEBUG` mock store is left out.
- The ignored `tagScope` initialiser parameter is left out. The `tagScope` field of a cache is kept, but the store never writes it.
- Stores.LinkStore.LinkFor: does not say which match is returned when several caches hold the id, because Swift's dictionary iteration order is unspecified.
- `changeSearchText` with an empty text starts the load by calling the first half of `load` directly, not by re-entering `Reduce`. The effect is the same.
- A client that answers a fetch with `Done`, or an edit with a page, cannot happen: the `await` that receives the answer has one result type. `Resume` requires the answer to fit the waiting operation.
