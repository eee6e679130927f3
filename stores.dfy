// The bookmark list store: one cache per list kind, one global busy flag that
// lets a single client call be outstanding at a time, one global error flag.
//
// Each network-backed operation of the store runs in two halves around its one
// client call. The first half runs when the action is dispatched: the busy
// guard, raising `isLoading`, taking the local copy of the list's cache, and
// issuing the client request. The second half, `Resume`, runs when the client
// answers: the write-back, the deferred reset of `isLoading`, and the
// dispatcher's catch that raises `showLoadingError`. While a request is out the
// store keeps that suspended second half in `inFlight`.

module Stores {
  import opened Bookmarks
  import opened ListCache

  /** The whole observable state of the store. */
  datatype State = State(
    isLoading: bool,
    listStates: map<ListType, ListState>,
    showLoadingError: bool)

  const Initial: State := State(false, map[], false)

  // ---------------------------------------------------------------------------
  // Read accessors. A list that has no cache yet reads as `Fresh`.

  /** The cache of list `t`; a list that was never written reads as `Fresh`. */
  function CacheOf(s: State, t: ListType): (r: ListState)
    ensures t in s.listStates ==> r == s.listStates[t]
    ensures t !in s.listStates ==> r == Fresh
  {
    if t in s.listStates then s.listStates[t] else Fresh
  }

  /** The search text of list `t`, empty when it has no cache. */
  function SearchText(s: State, t: ListType): (r: string)
    ensures t in s.listStates ==> r == s.listStates[t].searchText
    ensures t !in s.listStates ==> r == ""
  {
    CacheOf(s, t).searchText
  }

  /** Whether list `t` was loaded; false when it has no cache. */
  function DidLoad(s: State, t: ListType): (r: bool)
    ensures t in s.listStates ==> r == s.listStates[t].didLoad
    ensures t !in s.listStates ==> !r
  {
    CacheOf(s, t).didLoad
  }

  /** The cached links of list `t`, empty when it has no cache. */
  function Links(s: State, t: ListType): (r: seq<Link>)
    ensures t in s.listStates ==> r == s.listStates[t].links
    ensures t !in s.listStates ==> r == []
  {
    CacheOf(s, t).links
  }

  /** Whether list `t` has more pages; false when it has no cache. */
  function CanLoadMore(s: State, t: ListType): (r: bool)
    ensures t in s.listStates ==> r == s.listStates[t].canLoadMore
    ensures t !in s.listStates ==> !r
  {
    CacheOf(s, t).canLoadMore
  }

  /** `l` is held by the cache of some list. */
  predicate Cached(s: State, l: Link)
  {
    exists t :: t in s.listStates && l in s.listStates[t].links
  }

  // ---------------------------------------------------------------------------
  // Actions, client requests and replies.

  datatype Action =
    | Load(ListType)
    | LoadMoreIfNeeded(ListType, Link)
    | ChangeSearchText(string, ListType)
    | Search(ListType)
    | SetShowLoadingError(bool)
    | Add(PostLink)
    | Delete(Link)
    | Update(Link)

  /** The actions whose work goes through the client and the busy guard. */
  predicate IsNetworkAction(a: Action)
  {
    a.Load? || a.LoadMoreIfNeeded? || a.Search? || a.Add? || a.Delete? || a.Update?
  }

  /** A call into the bookmark client, with the arguments the store passes. */
  datatype Request =
    | FetchFirst(tags: seq<string>, searchTerm: string)
    | FetchMore(offset: nat, tags: seq<string>, searchTerm: string)
    | Create(post: PostLink)
    | Change(link: Link)
    | Remove(link: Link)

  /** The second half of an operation, waiting for the client's answer; the
      fetches carry the cache copy they took before the call. */
  datatype Flight =
    | Loading(key: ListType, pending: ListState)
    | LoadingMore(key: ListType, pending: ListState)
    | Adding
    | Updating(link: Link)
    | Deleting(link: Link)

  /** What the client answers: a page for a fetch, completion for an edit, or
      a thrown error for either. */
  datatype Reply = Fetched(page: seq<Link>) | Done | Failed

  predicate Answers(f: Flight, r: Reply)
  {
    match r
    case Fetched(_) => f.Loading? || f.LoadingMore?
    case Done => f.Adding? || f.Updating? || f.Deleting?
    case Failed => true
  }

  // ---------------------------------------------------------------------------
  // The store as a value, and the specification of its two entry points.

  datatype Machine = Machine(state: State, inFlight: Option<Flight>)

  /** The busy flag is up exactly while an operation waits for the client. */
  predicate Consistent(m: Machine)
  {
    m.state.isLoading <==> m.inFlight.Some?
  }

  /** The outcome of dispatching an action: the next store and the client call
      it issued, if any. */
  datatype Step = Step(next: Machine, issued: Option<Request>)

  function StartLoad(m: Machine, key: ListType): Step
  {
    if m.state.isLoading then Step(m, None)
    else
      var pending := CacheOf(m.state, key).(didLoad := true);
      Step(Machine(m.state.(isLoading := true), Some(Loading(key, pending))),
           Some(FetchFirst(ScopedTags(key), SearchText(m.state, key))))
  }

  function StartLoadMore(m: Machine, key: ListType, link: Link): Step
  {
    var current := CacheOf(m.state, key);
    if m.state.isLoading then Step(m, None)
    else if current.links == [] || link.id != current.links[|current.links| - 1].id then Step(m, None)
    else
      Step(Machine(m.state.(isLoading := true), Some(LoadingMore(key, current))),
           Some(FetchMore(|current.links|, ScopedTags(key), SearchText(m.state, key))))
  }

  function StartEdit(m: Machine, flight: Flight, request: Request): Step
  {
    if m.state.isLoading then Step(m, None)
    else Step(Machine(m.state.(isLoading := true), Some(flight)), Some(request))
  }

  function WithSearchText(s: State, text: string, key: ListType): State
  {
    s.(listStates := s.listStates[key := CacheOf(s, key).(searchText := text)])
  }

  function UpdatedEverywhere(caches: map<ListType, ListState>, link: Link): map<ListType, ListState>
  {
    map key | key in caches :: Updated(link, caches[key])
  }

  function DeletedEverywhere(caches: map<ListType, ListState>, link: Link): map<ListType, ListState>
  {
    map key | key in caches :: Deleted(link, caches[key])
  }

  /** What `reduce` does with an action before any client call returns. */
  function Dispatch(m: Machine, a: Action): Step
  {
    match a
    case Search(key) => StartLoad(m, key)
    case Load(key) => StartLoad(m, key)
    case LoadMoreIfNeeded(key, link) => StartLoadMore(m, key, link)
    case ChangeSearchText(text, key) =>
      var m' := m.(state := WithSearchText(m.state, text, key));
      if text == "" then StartLoad(m', key) else Step(m', None)
    case SetShowLoadingError(show) => Step(m.(state := m.state.(showLoadingError := show)), None)
    case Delete(link) => StartEdit(m, Deleting(link), Remove(link))
    case Update(link) => StartEdit(m, Updating(link), Change(link))
    case Add(post) => StartEdit(m, Adding, Create(post))
  }

  /** What the waiting operation does once the client answers `reply`. */
  function Resumed(m: Machine, reply: Reply, pageSize: nat): Machine
    requires m.inFlight.Some? && Answers(m.inFlight.value, reply)
  {
    var s := m.state.(isLoading := false);
    if reply.Failed? then Machine(s.(showLoadingError := true), None)
    else
      match m.inFlight.value
      case Loading(key, pending) =>
        var ls := pending.(links := reply.page, canLoadMore := |reply.page| == pageSize);
        Machine(s.(listStates := s.listStates[key := ls]), None)
      case LoadingMore(key, pending) =>
        var ls := pending.(links := pending.links + reply.page, canLoadMore := |reply.page| == pageSize);
        Machine(s.(listStates := s.listStates[key := ls]), None)
      case Adding => Machine(s, None)
      case Updating(link) => Machine(s.(listStates := UpdatedEverywhere(s.listStates, link)), None)
      case Deleting(link) => Machine(s.(listStates := DeletedEverywhere(s.listStates, link)), None)
  }

  // ---------------------------------------------------------------------------

  class LinkStore {
    /** The client's fixed page size. */
    const pageSize: nat
    var state: State
    /** The operation waiting for the client, if one is. */
    var inFlight: Option<Flight>

    ghost predicate Valid()
      reads this
    {
      Consistent(Machine(state, inFlight))
    }

    function Model(): Machine
      reads this
    {
      Machine(state, inFlight)
    }

    constructor (pageSize: nat)
      ensures Valid()
      ensures this.pageSize == pageSize && state == Initial && inFlight == None
    {
      this.pageSize := pageSize;
      state := Initial;
      inFlight := None;
    }

    /** Dispatches `action`; `issued` is the client call it started, if any. */
    method Reduce(action: Action) returns (issued: Option<Request>)
      requires Valid()
      modifies this
      ensures Valid()
      ensures Step(Model(), issued) == Dispatch(old(Model()), action)
    {
      match action
      case Search(key) =>
        issued := Load(key);
      case Load(key) =>
        issued := Load(key);
      case LoadMoreIfNeeded(key, link) =>
        issued := LoadMoreIfNeeded(key, link);
      case ChangeSearchText(text, key) =>
        var listState := if key in state.listStates then state.listStates[key] else Fresh;
        listState := listState.(searchText := text);
        state := state.(listStates := state.listStates[key := listState]);
        issued := None;
        if text == "" {
          issued := Load(key);
        }
      case SetShowLoadingError(show) =>
        state := state.(showLoadingError := show);
        issued := None;
      case Delete(link) =>
        issued := Delete(link);
      case Update(link) =>
        issued := Update(link);
      case Add(post) =>
        issued := Add(post);
    }

    /** First half of a first-page load. */
    method Load(key: ListType) returns (issued: Option<Request>)
      requires Valid()
      modifies this
      ensures Valid()
      ensures Step(Model(), issued) == StartLoad(old(Model()), key)
    {
      if state.isLoading {
        return None;
      }
      var listState := if key in state.listStates then state.listStates[key] else Fresh;
      listState := listState.(didLoad := true);
      state := state.(isLoading := true);
      issued := Some(FetchFirst(ScopedTags(key), SearchText(state, key)));
      inFlight := Some(Loading(key, listState));
    }

    /** First half of pagination; only the last cached link triggers it. */
    method LoadMoreIfNeeded(key: ListType, link: Link) returns (issued: Option<Request>)
      requires Valid()
      modifies this
      ensures Valid()
      ensures Step(Model(), issued) == StartLoadMore(old(Model()), key, link)
    {
      if state.isLoading {
        return None;
      }
      var listState := if key in state.listStates then state.listStates[key] else Fresh;
      if listState.links == [] || link.id != listState.links[|listState.links| - 1].id {
        return None;
      }
      state := state.(isLoading := true);
      issued := Some(FetchMore(|listState.links|, ScopedTags(key), SearchText(state, key)));
      inFlight := Some(LoadingMore(key, listState));
    }

    method Add(post: PostLink) returns (issued: Option<Request>)
      requires Valid()
      modifies this
      ensures Valid()
      ensures Step(Model(), issued) == StartEdit(old(Model()), Adding, Create(post))
    {
      if state.isLoading {
        return None;
      }
      state := state.(isLoading := true);
      issued := Some(Create(post));
      inFlight := Some(Adding);
    }

    method Update(link: Link) returns (issued: Option<Request>)
      requires Valid()
      modifies this
      ensures Valid()
      ensures Step(Model(), issued) == StartEdit(old(Model()), Updating(link), Change(link))
    {
      if state.isLoading {
        return None;
      }
      state := state.(isLoading := true);
      issued := Some(Change(link));
      inFlight := Some(Updating(link));
    }

    method Delete(link: Link) returns (issued: Option<Request>)
      requires Valid()
      modifies this
      ensures Valid()
      ensures Step(Model(), issued) == StartEdit(old(Model()), Deleting(link), Remove(link))
    {
      if state.isLoading {
        return None;
      }
      state := state.(isLoading := true);
      issued := Some(Remove(link));
      inFlight := Some(Deleting(link));
    }

    /** Second half of the waiting operation, run with the client's answer. */
    method Resume(reply: Reply)
      requires Valid() && inFlight.Some? && Answers(inFlight.value, reply)
      modifies this
      ensures Valid()
      ensures Model() == Resumed(old(Model()), reply, pageSize)
    {
      var flight := inFlight.value;
      if !reply.Failed? {
        match flight
        case Loading(key, pending) =>
          var listState := pending.(links := reply.page);
          listState := listState.(canLoadMore := |listState.links| == pageSize);
          state := state.(listStates := state.listStates[key := listState]);
        case LoadingMore(key, pending) =>
          var listState := pending.(links := pending.links + reply.page);
          listState := listState.(canLoadMore := |reply.page| == pageSize);
          state := state.(listStates := state.listStates[key := listState]);
        case Adding =>
        case Updating(link) =>
          ApplyUpdate(link);
        case Deleting(link) =>
          ApplyDelete(link);
      }
      // the deferred reset, on every path
      state := state.(isLoading := false);
      inFlight := None;
      if reply.Failed? {
        state := state.(showLoadingError := true);
      }
    }

    /** Rewrites every cache with `Updated`, key by key. */
    method ApplyUpdate(link: Link)
      modifies this
      ensures state.listStates == UpdatedEverywhere(old(state.listStates), link)
      ensures state.isLoading == old(state.isLoading) && state.showLoadingError == old(state.showLoadingError)
      ensures inFlight == old(inFlight)
    {
      var caches := state.listStates;
      var todo := caches.Keys;
      while todo != {}
        invariant todo <= caches.Keys
        invariant inFlight == old(inFlight)
        invariant state == old(state).(listStates := state.listStates)
        invariant state.listStates.Keys == caches.Keys
        invariant forall key :: key in caches && key !in todo ==> state.listStates[key] == Updated(link, caches[key])
        invariant forall key :: key in todo ==> state.listStates[key] == caches[key]
        decreases todo
      {
        var key :| key in todo;
        state := state.(listStates := state.listStates[key := Updated(link, caches[key])]);
        todo := todo - {key};
      }
    }

    /** Rewrites every cache with `Deleted`, key by key. */
    method ApplyDelete(link: Link)
      modifies this
      ensures state.listStates == DeletedEverywhere(old(state.listStates), link)
      ensures state.isLoading == old(state.isLoading) && state.showLoadingError == old(state.showLoadingError)
      ensures inFlight == old(inFlight)
    {
      var caches := state.listStates;
      var todo := caches.Keys;
      while todo != {}
        invariant todo <= caches.Keys
        invariant inFlight == old(inFlight)
        invariant state == old(state).(listStates := state.listStates)
        invariant state.listStates.Keys == caches.Keys
        invariant forall key :: key in caches && key !in todo ==> state.listStates[key] == Deleted(link, caches[key])
        invariant forall key :: key in todo ==> state.listStates[key] == caches[key]
        decreases todo
      {
        var key :| key in todo;
        state := state.(listStates := state.listStates[key := Deleted(link, caches[key])]);
        todo := todo - {key};
      }
    }

    /** Some cached link with identity `id`, scanning every cache. */
    method LinkFor(id: string) returns (found: Option<Link>)
      ensures found.Some? ==> found.value.id == id && Cached(state, found.value)
      ensures found.None? ==> forall t, l :: t in state.listStates && l in state.listStates[t].links ==> l.id != id
    {
      var todo := state.listStates.Keys;
      while todo != {}
        invariant todo <= state.listStates.Keys
        invariant forall t, l :: t in state.listStates && t !in todo && l in state.listStates[t].links ==> l.id != id
        decreases todo
      {
        var key :| key in todo;
        var links := state.listStates[key].links;
        var i := 0;
        while i < |links|
          invariant 0 <= i <= |links|
          invariant forall j :: 0 <= j < i ==> links[j].id != id
        {
          if links[i].id == id {
            return Some(links[i]);
          }
          i := i + 1;
        }
        todo := todo - {key};
      }
      return None;
    }
  }
}
