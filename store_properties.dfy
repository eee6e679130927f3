// What the store promises across its actions: first-page loads replace a
// cache, pagination appends behind the last-link guard, the busy flag lets one
// client call out at a time and is always released, edits reach every cache,
// and failures leave the caches alone.

module StoreProperties {
  import opened Bookmarks
  import opened ListCache
  import opened Stores

  // ---------------------------------------------------------------------------
  // The busy gate

  /** Dispatching keeps the flag and the waiting operation in step, and
      resuming always releases the gate. */
  lemma GateStaysConsistent(m: Machine, a: Action, reply: Reply, pageSize: nat)
    requires Consistent(m)
    ensures Consistent(Dispatch(m, a).next)
    ensures Dispatch(m, a).issued.Some? ==> !m.state.isLoading && Dispatch(m, a).next.state.isLoading
    ensures m.inFlight.Some? && Answers(m.inFlight.value, reply) ==>
      var r := Resumed(m, reply, pageSize); !r.state.isLoading && r.inFlight.None? && Consistent(r)
  {
  }

  /** While the gate is held, every network-backed action is dropped: no
      client call and no change at all. */
  lemma BusyStoreDropsNetworkActions(m: Machine, a: Action)
    requires m.state.isLoading && IsNetworkAction(a)
    ensures Dispatch(m, a) == Step(m, None)
  {
  }

  /** With the gate free, a load, search or edit always reaches the client
      and takes the gate. */
  lemma IdleStoreIssues(m: Machine, a: Action)
    requires !m.state.isLoading
    requires a.Load? || a.Search? || a.Add? || a.Update? || a.Delete?
    ensures Dispatch(m, a).issued.Some?
    ensures Dispatch(m, a).next.state.isLoading
  {
  }

  /** Single flight: once one action has started a client call, no further
      network-backed action issues another until the first is resumed, and
      the store is untouched by the dropped ones. */
  lemma {:induction false} SingleFlight(m: Machine, first: Action, later: seq<Action>)
    requires Consistent(m)
    requires Dispatch(m, first).issued.Some?
    requires forall i :: 0 <= i < |later| ==> IsNetworkAction(later[i])
    ensures var busy := Dispatch(m, first).next;
      && busy.state.isLoading
      && Replay(busy, later) == busy
      && |ReplayIssued(busy, later)| == |later|
      && forall i :: 0 <= i < |later| ==> ReplayIssued(busy, later)[i] == None
  {
    var busy := Dispatch(m, first).next;
    ReplayDropped(busy, later);
  }

  /** The store after dispatching `actions` in order, with no client answer
      in between. */
  function Replay(m: Machine, actions: seq<Action>): Machine
    decreases |actions|
  {
    if actions == [] then m else Replay(Dispatch(m, actions[0]).next, actions[1..])
  }

  /** The client calls those dispatches issue, one entry per action. */
  function ReplayIssued(m: Machine, actions: seq<Action>): seq<Option<Request>>
    decreases |actions|
  {
    if actions == [] then []
    else
      var st := Dispatch(m, actions[0]);
      [st.issued] + ReplayIssued(st.next, actions[1..])
  }

  /** A busy store is left as it is by any run of network-backed actions,
      none of which calls the client. */
  lemma {:induction false} ReplayDropped(m: Machine, actions: seq<Action>)
    requires m.state.isLoading
    requires forall i :: 0 <= i < |actions| ==> IsNetworkAction(actions[i])
    ensures Replay(m, actions) == m
    ensures |ReplayIssued(m, actions)| == |actions|
    ensures forall i :: 0 <= i < |actions| ==> ReplayIssued(m, actions)[i] == None
    decreases |actions|
  {
    if actions != [] {
      BusyStoreDropsNetworkActions(m, actions[0]);
      assert forall i :: 0 <= i < |actions[1..]| ==> IsNetworkAction(actions[1..][i]) by {
        forall i | 0 <= i < |actions[1..]| ensures IsNetworkAction(actions[1..][i]) {
          assert actions[1..][i] == actions[i + 1];
        }
      }
      ReplayDropped(m, actions[1..]);
      var rest := ReplayIssued(m, actions[1..]);
      assert ReplayIssued(m, actions) == [None] + rest;
      forall i | 0 < i < |actions| ensures ReplayIssued(m, actions)[i] == None {
        assert ReplayIssued(m, actions)[i] == rest[i - 1];
      }
    }
  }

  // ---------------------------------------------------------------------------
  // First-page load

  /** A successful load asks for the list's tag filter and search text,
      replaces the cached links with the page, marks the list loaded, sets
      `canLoadMore` exactly when the page is full, and leaves the search text,
      the other lists and the error flag as they were. */
  lemma LoadReplacesCache(m: Machine, key: ListType, page: seq<Link>, pageSize: nat)
    requires Consistent(m) && !m.state.isLoading
    ensures var started := Dispatch(m, Load(key));
      && started.issued == Some(FetchFirst(ScopedTags(key), SearchText(m.state, key)))
      && var done := Resumed(started.next, Fetched(page), pageSize);
      && key in done.state.listStates
      && done.state.listStates[key] == CacheOf(m.state, key).(links := page, didLoad := true, canLoadMore := |page| == pageSize)
      && Links(done.state, key) == page
      && DidLoad(done.state, key)
      && CanLoadMore(done.state, key) == (|page| == pageSize)
      && SearchText(done.state, key) == SearchText(m.state, key)
      && (forall k :: k != key ==> (k in done.state.listStates <==> k in m.state.listStates))
      && (forall k :: k != key && k in m.state.listStates ==> done.state.listStates[k] == m.state.listStates[k])
      && done.state.showLoadingError == m.state.showLoadingError
      && !done.state.isLoading
  {
  }

  /** `search` is the same operation as `load`. */
  lemma SearchIsLoad(m: Machine, key: ListType)
    ensures Dispatch(m, Search(key)) == Dispatch(m, Load(key))
  {
  }

  // ---------------------------------------------------------------------------
  // Pagination

  /** Pagination reaches the client only with the gate free and only for the
      id of the last cached link; otherwise nothing changes, not even the
      busy flag. An empty or missing cache never fetches. */
  lemma LoadMoreGuard(m: Machine, key: ListType, link: Link)
    ensures var st := Dispatch(m, LoadMoreIfNeeded(key, link));
      var links := Links(m.state, key);
      && (st.issued.Some? <==> !m.state.isLoading && links != [] && links[|links| - 1].id == link.id)
      && (st.issued.None? ==> st.next == m)
    ensures Links(m.state, key) == [] ==> Dispatch(m, LoadMoreIfNeeded(key, link)) == Step(m, None)
  {
  }

  /** A link that is cached but not last does not trigger pagination (unless
      it shares its id with the last one). */
  lemma EarlierLinkDoesNotPaginate(m: Machine, key: ListType, i: nat)
    requires i + 1 < |Links(m.state, key)|
    requires Links(m.state, key)[i].id != Links(m.state, key)[|Links(m.state, key)| - 1].id
    ensures Dispatch(m, LoadMoreIfNeeded(key, Links(m.state, key)[i])) == Step(m, None)
  {
  }

  /** A successful page fetch asks at offset equal to the cached count, keeps
      the cached links as a prefix followed by the page, and recomputes
      `canLoadMore` from the new page alone. */
  lemma LoadMoreAppends(m: Machine, key: ListType, link: Link, page: seq<Link>, pageSize: nat)
    requires Consistent(m) && !m.state.isLoading
    requires Links(m.state, key) != [] && Links(m.state, key)[|Links(m.state, key)| - 1].id == link.id
    ensures var started := Dispatch(m, LoadMoreIfNeeded(key, link));
      && started.issued == Some(FetchMore(|Links(m.state, key)|, ScopedTags(key), SearchText(m.state, key)))
      && var done := Resumed(started.next, Fetched(page), pageSize);
      && key in done.state.listStates
      && done.state.listStates[key] == CacheOf(m.state, key).(links := Links(m.state, key) + page, canLoadMore := |page| == pageSize)
      && Links(done.state, key) == Links(m.state, key) + page
      && Links(done.state, key)[..|Links(m.state, key)|] == Links(m.state, key)
      && CanLoadMore(done.state, key) == (|page| == pageSize)
      && SearchText(done.state, key) == SearchText(m.state, key)
      && DidLoad(done.state, key) == DidLoad(m.state, key)
      && (forall k :: k != key && k in m.state.listStates ==> k in done.state.listStates && done.state.listStates[k] == m.state.listStates[k])
      && done.state.listStates.Keys == m.state.listStates.Keys + {key}
      && done.state.showLoadingError == m.state.showLoadingError
      && !done.state.isLoading
  {
    var links := Links(m.state, key);
    assert (links + page)[..|links|] == links;
  }

  // ---------------------------------------------------------------------------
  // Edits

  /** Adding a link never changes a cache, whatever the client answers. */
  lemma AddChangesNoCache(m: Machine, post: PostLink, reply: Reply, pageSize: nat)
    requires Consistent(m) && !m.state.isLoading
    requires reply.Done? || reply.Failed?
    ensures Resumed(Dispatch(m, Add(post)).next, reply, pageSize).state.listStates == m.state.listStates
  {
  }

  /** A successful update reaches every cache: each keeps its length and
      metadata, only the first link with the edited id becomes the edit, and
      a cache without that id is left identical. */
  lemma UpdateReachesEveryCache(m: Machine, link: Link, pageSize: nat)
    requires Consistent(m) && !m.state.isLoading
    ensures var started := Dispatch(m, Update(link));
      && started.issued == Some(Change(link))
      && var after := Resumed(started.next, Done, pageSize).state.listStates;
      && after.Keys == m.state.listStates.Keys
      && forall k :: k in m.state.listStates ==>
        var before := m.state.listStates[k];
        && after[k].(links := before.links) == before
        && |after[k].links| == |before.links|
        && (forall j :: 0 <= j < |before.links| && !IsFirstWithId(before.links, j, link.id) ==> after[k].links[j] == before.links[j])
        && (forall j :: IsFirstWithId(before.links, j, link.id) ==> after[k].links[j] == link)
        && (!HasId(before.links, link.id) ==> after[k] == before)
  {
  }

  /** A successful delete reaches every cache: each keeps its metadata and
      becomes exactly the in-order subsequence of links not equal to the
      deleted one. */
  lemma DeleteReachesEveryCache(m: Machine, link: Link, pageSize: nat)
    requires Consistent(m) && !m.state.isLoading
    ensures var started := Dispatch(m, Delete(link));
      && started.issued == Some(Remove(link))
      && var after := Resumed(started.next, Done, pageSize).state.listStates;
      && after.Keys == m.state.listStates.Keys
      && forall k :: k in m.state.listStates ==>
        var before := m.state.listStates[k];
        && after[k].(links := before.links) == before
        && after[k].links == Without(before.links, link)
        && link !in after[k].links
        && |after[k].links| <= |before.links|
  {
  }

  /** The delete removes by whole value: a cached copy with the same id that
      differs in another field stays cached. */
  lemma DeleteMatchesWholeValue(ls: ListState, cached: Link, link: Link)
    requires cached in ls.links && cached.id == link.id && cached != link
    ensures cached in Deleted(link, ls).links
  {
  }

  // ---------------------------------------------------------------------------
  // Failures

  /** A failed client call leaves every cache as it was, raises the error
      flag and releases the gate. */
  lemma FailureKeepsCaches(m: Machine, pageSize: nat)
    requires m.inFlight.Some?
    ensures var r := Resumed(m, Failed, pageSize);
      r.state.listStates == m.state.listStates && r.state.showLoadingError && !r.state.isLoading
  {
  }

  /** Because the cache copy is written back only on success, a failed first
      load of a list leaves it unloaded. */
  lemma FailedLoadIsNotMarkedLoaded(m: Machine, key: ListType, pageSize: nat)
    requires Consistent(m) && !m.state.isLoading && key !in m.state.listStates
    ensures var r := Resumed(Dispatch(m, Load(key)).next, Failed, pageSize);
      !DidLoad(r.state, key) && key !in r.state.listStates
  {
  }

  // ---------------------------------------------------------------------------
  // Search text, accessors, tag filter

  /** Changing the search text creates the cache if needed and sets only its
      text; it reaches the client exactly when the text is cleared and the
      gate is free, and then as a first-page load of that same list, whose
      answer will be written back under `key`. Otherwise the gate and the
      waiting operation are untouched. */
  lemma ChangeSearchTextEffects(m: Machine, text: string, key: ListType)
    requires Consistent(m)
    ensures var st := Dispatch(m, ChangeSearchText(text, key));
      && key in st.next.state.listStates
      && st.next.state.listStates[key] == CacheOf(m.state, key).(searchText := text)
      && st.next.state.listStates.Keys == m.state.listStates.Keys + {key}
      && st.next.state.showLoadingError == m.state.showLoadingError
      && (st.issued.Some? <==> text == "" && !m.state.isLoading)
      && (st.issued.Some? ==> st.issued == Some(FetchFirst(ScopedTags(key), "")))
      && (st.issued.Some? ==> st.next.inFlight == Some(Loading(key, CacheOf(m.state, key).(searchText := text, didLoad := true))))
      && (st.issued.None? ==> st.next.inFlight == m.inFlight && st.next.state.isLoading == m.state.isLoading)
      && (forall k :: k != key && k in m.state.listStates ==> k in st.next.state.listStates && st.next.state.listStates[k] == m.state.listStates[k])
  {
  }

  /** Setting the error flag is a plain write: it needs no free gate, calls
      no client, touches nothing else, and setting it twice is setting it
      once. */
  lemma SetShowLoadingErrorOnlyWritesFlag(m: Machine, show: bool, again: bool)
    requires Consistent(m)
    ensures var st := Dispatch(m, SetShowLoadingError(show));
      && st.issued == None
      && st.next.state.showLoadingError == show
      && st.next.state.listStates == m.state.listStates
      && st.next.state.isLoading == m.state.isLoading
      && st.next.inFlight == m.inFlight
      && Consistent(st.next)
      && Dispatch(st.next, SetShowLoadingError(again)) == Dispatch(m, SetShowLoadingError(again))
  {
  }

  /** A list with no cache reads as empty, unloaded, unfiltered and complete. */
  lemma MissingListDefaults(s: State, key: ListType)
    requires key !in s.listStates
    ensures SearchText(s, key) == "" && !DidLoad(s, key) && Links(s, key) == [] && !CanLoadMore(s, key)
  {
  }

  // ---------------------------------------------------------------------------
  // Interleavings and scenarios

  /** The load writes back the cache copy it took before the client call, so
      a search-text edit made while the fetch is out is overwritten. */
  lemma EditDuringLoadIsOverwritten(m: Machine, key: ListType, text: string, page: seq<Link>, pageSize: nat)
    requires Consistent(m) && !m.state.isLoading
    requires text != SearchText(m.state, key)
    ensures var busy := Dispatch(m, Load(key)).next;
      var edited := Dispatch(busy, ChangeSearchText(text, key)).next;
      && SearchText(edited.state, key) == text
      && SearchText(Resumed(edited, Fetched(page), pageSize).state, key) == SearchText(m.state, key)
  {
    var busy := Dispatch(m, Load(key)).next;
    assert busy.inFlight == Some(Loading(key, CacheOf(m.state, key).(didLoad := true)));
  }

  /** A full first page, then a short second page: 25 links cached and no
      further page expected. */
  lemma FullPageThenShortPage(first: seq<Link>, second: seq<Link>)
    requires |first| == 20 && |second| == 5
    ensures var m0 := Machine(Initial, None);
      var m1 := Resumed(Dispatch(m0, Load(All)).next, Fetched(first), 20);
      && CanLoadMore(m1.state, All)
      && var m2 := Resumed(Dispatch(m1, LoadMoreIfNeeded(All, first[19])).next, Fetched(second), 20);
      && |Links(m2.state, All)| == 25
      && !CanLoadMore(m2.state, All)
  {
    var m0 := Machine(Initial, None);
    var m1 := Resumed(Dispatch(m0, Load(All)).next, Fetched(first), 20);
    assert Links(m1.state, All) == first;
    LoadMoreAppends(m1, All, first[19], second, 20);
  }

  /** An edit of a link cached both under every link and under one tag lands
      at its own position in both lists. */
  lemma EditReachesBothLists(m: Machine, tag: Tag, edited: Link, i: nat, j: nat)
    requires Consistent(m) && !m.state.isLoading
    requires All in m.state.listStates && TagScoped(tag) in m.state.listStates
    requires IsFirstWithId(m.state.listStates[All].links, i, edited.id)
    requires IsFirstWithId(m.state.listStates[TagScoped(tag)].links, j, edited.id)
    ensures var after := Resumed(Dispatch(m, Update(edited)).next, Done, 0).state;
      Links(after, All)[i] == edited && Links(after, TagScoped(tag))[j] == edited
  {
    UpdateReachesEveryCache(m, edited, 0);
  }
}
