/**
 * The filter state store: the filter record, the two shallow-merge mutators,
 * and the `loadGames` sequence that raises the loading flag, awaits the game
 * fetch and lowers the flag again.
 *
 * The 300 ms debounce, the overlap of in-flight fetches and the initial
 * parallel load of genres and platforms are not modelled.
 */
module GameContext {
  import opened Wrappers
  import Api

  /** The `filters` object. */
  datatype FilterState = FilterState(
    searchQuery: string,
    selectedGenres: seq<string>,
    selectedPlatforms: seq<string>,
    liveOnly: bool)

  /** A partial filter object spread over the state; `None` is a key the object lacks. */
  datatype Patch = Patch(
    searchQuery: Option<string>,
    selectedGenres: Option<seq<string>>,
    selectedPlatforms: Option<seq<string>>,
    liveOnly: Option<bool>)

  /** One `[filterType]: value` pair of `updateFilter`, for the four keys of the state. */
  datatype FieldUpdate =
    | SearchQuery(query: string)
    | SelectedGenres(genres: seq<string>)
    | SelectedPlatforms(platforms: seq<string>)
    | LiveOnly(live: bool)

  /** The state the store starts in. */
  function DefaultFilters(): (f: FilterState)
    ensures f.searchQuery == "" && f.selectedGenres == [] && f.selectedPlatforms == []
    ensures f.liveOnly
  {
    FilterState("", [], [], true)
  }

  const EmptyPatch := Patch(None, None, None, None)

  predicate IsEmpty(p: Patch) { p == EmptyPatch }

  /** `{...prev, ...patch}`: every key of the patch takes its value, every other key keeps its own. */
  function Merge(prev: FilterState, p: Patch): (f: FilterState)
    ensures p.searchQuery.Some? ==> f.searchQuery == p.searchQuery.value
    ensures p.searchQuery.None? ==> f.searchQuery == prev.searchQuery
    ensures p.selectedGenres.Some? ==> f.selectedGenres == p.selectedGenres.value
    ensures p.selectedGenres.None? ==> f.selectedGenres == prev.selectedGenres
    ensures p.selectedPlatforms.Some? ==> f.selectedPlatforms == p.selectedPlatforms.value
    ensures p.selectedPlatforms.None? ==> f.selectedPlatforms == prev.selectedPlatforms
    ensures p.liveOnly.Some? ==> f.liveOnly == p.liveOnly.value
    ensures p.liveOnly.None? ==> f.liveOnly == prev.liveOnly
  {
    FilterState(
      p.searchQuery.GetOr(prev.searchQuery),
      p.selectedGenres.GetOr(prev.selectedGenres),
      p.selectedPlatforms.GetOr(prev.selectedPlatforms),
      p.liveOnly.GetOr(prev.liveOnly))
  }

  /** `{...prev, [filterType]: value}`: the named field is set, the other three are unchanged. */
  function SetField(prev: FilterState, u: FieldUpdate): (f: FilterState)
    ensures u.SearchQuery? ==> f == prev.(searchQuery := u.query)
    ensures u.SelectedGenres? ==> f == prev.(selectedGenres := u.genres)
    ensures u.SelectedPlatforms? ==> f == prev.(selectedPlatforms := u.platforms)
    ensures u.LiveOnly? ==> f == prev.(liveOnly := u.live)
  {
    match u
    case SearchQuery(q) => FilterState(q, prev.selectedGenres, prev.selectedPlatforms, prev.liveOnly)
    case SelectedGenres(g) => FilterState(prev.searchQuery, g, prev.selectedPlatforms, prev.liveOnly)
    case SelectedPlatforms(p) => FilterState(prev.searchQuery, prev.selectedGenres, p, prev.liveOnly)
    case LiveOnly(l) => FilterState(prev.searchQuery, prev.selectedGenres, prev.selectedPlatforms, l)
  }

  /** The one-key object `{[filterType]: value}`. */
  function PatchOf(u: FieldUpdate): (p: Patch)
    ensures !IsEmpty(p)
    ensures u.SearchQuery? ==> p == EmptyPatch.(searchQuery := Some(u.query))
    ensures u.SelectedGenres? ==> p == EmptyPatch.(selectedGenres := Some(u.genres))
    ensures u.SelectedPlatforms? ==> p == EmptyPatch.(selectedPlatforms := Some(u.platforms))
    ensures u.LiveOnly? ==> p == EmptyPatch.(liveOnly := Some(u.live))
  {
    match u
    case SearchQuery(q) => Patch(Some(q), None, None, None)
    case SelectedGenres(g) => Patch(None, Some(g), None, None)
    case SelectedPlatforms(ps) => Patch(None, None, Some(ps), None)
    case LiveOnly(l) => Patch(None, None, None, Some(l))
  }

  /** `updateFilter(k, v)` is `updateMultipleFilters({k: v})`. */
  lemma SetFieldIsMerge(prev: FilterState, u: FieldUpdate)
    ensures SetField(prev, u) == Merge(prev, PatchOf(u))
  {
  }

  /** The empty patch changes nothing, and a patch applied twice is applied once. */
  lemma MergeLaws(prev: FilterState, p: Patch)
    ensures Merge(prev, EmptyPatch) == prev
    ensures Merge(Merge(prev, p), p) == Merge(prev, p)
  {
  }

  /** Two patches in a row equal their right-biased combination (`{...p, ...q}`). */
  function Combine(p: Patch, q: Patch): (r: Patch)
    ensures forall s :: Merge(Merge(s, p), q) == Merge(s, r)
  {
    Patch(
      if q.searchQuery.Some? then q.searchQuery else p.searchQuery,
      if q.selectedGenres.Some? then q.selectedGenres else p.selectedGenres,
      if q.selectedPlatforms.Some? then q.selectedPlatforms else p.selectedPlatforms,
      if q.liveOnly.Some? then q.liveOnly else p.liveOnly)
  }

  /** The options `loadGames` hands to `fetchGames`: every option present, each from its field. */
  function FetchOptions(f: FilterState): (o: Api.GameQueryOptions)
    ensures Api.NameSearch(o) == f.searchQuery
    ensures Api.GenreFilters(o) == f.selectedGenres
    ensures Api.PlatformFilters(o) == f.selectedPlatforms
    ensures Api.LiveOnly(o) == f.liveOnly && o.liveOnly.Some?
  {
    Api.GameQueryOptions(Some(f.searchQuery), Some(f.selectedGenres), Some(f.selectedPlatforms), Some(f.liveOnly))
  }

  /** With the default filters the game query carries the single condition `is_live = true`. */
  lemma DefaultQuery()
    ensures Api.WhereConditions(FetchOptions(DefaultFilters())) == [Api.IsLiveEq(true)]
  {
  }

  /** A step of `loadGames` as the store sees it: a `setLoading` call, or the game
      request going out with its query variables. */
  datatype LoadEvent = SetLoading(loading: bool) | Fetched(variables: Api.Where)

  /** How the awaited `fetchGames(...)` call settled. */
  datatype Settled<T> = Fulfilled(value: T) | Rejected

  /** The provider's mutable cells. */
  class GameStore {
    var filters: FilterState
    var games: seq<Api.Game>
    var loading: bool
    /** Every `setLoading` call and every game request, in order. */
    ghost var events: seq<LoadEvent>

    constructor ()
      ensures filters == DefaultFilters()
      ensures games == [] && loading && events == []
    {
      filters := DefaultFilters();
      games := [];
      loading := true;
      events := [];
    }

    method UpdateFilter(u: FieldUpdate)
      modifies this`filters
      ensures filters == SetField(old(filters), u)
    {
      filters := SetField(filters, u);
    }

    method UpdateMultipleFilters(p: Patch)
      modifies this`filters
      ensures filters == Merge(old(filters), p)
    {
      filters := Merge(filters, p);
    }

    /** `setLoading(true)` and the options of the fetch that follows. */
    method BeginLoad() returns (options: Api.GameQueryOptions)
      modifies this`loading, this`events
      ensures loading && events == old(events) + [SetLoading(true)]
      ensures options == FetchOptions(filters)
    {
      loading := true;
      events := events + [SetLoading(true)];
      options := FetchOptions(filters);
    }

    /** The awaited `fetchGames(options)` against the server's `reply`; the flag is not touched. */
    method Fetch(options: Api.GameQueryOptions, reply: Api.Response<seq<Api.RawGame>>)
      returns (variables: Api.Where, gameData: seq<Api.Game>)
      modifies this`events
      ensures variables == Api.And(Api.WhereConditions(options))
      ensures reply.Failed? ==> gameData == []
      ensures reply.Ok? ==> gameData == Api.DecorateAll(reply.data)
      ensures events == old(events) + [Fetched(variables)]
    {
      variables, gameData := Api.FetchGames(options, reply);
      events := events + [Fetched(variables)];
    }

    /** `setGames(gameData)` when the call fulfilled, then (`finally`) `setLoading(false)`. */
    method SettleLoad(call: Settled<seq<Api.Game>>)
      modifies this`games, this`loading, this`events
      ensures games == (if call.Fulfilled? then call.value else old(games))
      ensures !loading && events == old(events) + [SetLoading(false)]
    {
      if call.Fulfilled? {
        games := call.value;
      }
      loading := false;
      events := events + [SetLoading(false)];
    }

    /** `loadGames`: `call` is `Fulfilled(reply)` when `fetchGames` ran with the server's
        `reply`, `Rejected` when awaiting it threw. Returns the variables it sent, if any. */
    method LoadGames(call: Settled<Api.Response<seq<Api.RawGame>>>) returns (sent: Option<Api.Where>)
      modifies this`games, this`loading, this`events
      ensures filters == old(filters) && !loading
      // the flag is raised before the request goes out and lowered after it settles
      ensures call.Fulfilled? ==>
                sent.Some? && events == old(events) + [SetLoading(true), Fetched(sent.value), SetLoading(false)]
      ensures call.Rejected? ==> events == old(events) + [SetLoading(true), SetLoading(false)]
      ensures call.Fulfilled? ==> sent == Some(Api.And(Api.WhereConditions(FetchOptions(filters))))
      ensures call.Fulfilled? && call.value.Ok? ==> games == Api.DecorateAll(call.value.data)
      ensures call.Fulfilled? && call.value.Failed? ==> games == []
      ensures call.Rejected? ==> games == old(games) && sent == None
    {
      var options := BeginLoad();
      var outcome: Settled<seq<Api.Game>>;
      match call {
        case Fulfilled(reply) =>
          var variables, gameData := Fetch(options, reply);
          sent := Some(variables);
          outcome := Fulfilled(gameData);
        case Rejected =>
          sent := None;
          outcome := Rejected;
      }
      SettleLoad(outcome);
    }
  }
}
