/**
 * The catalogue data source: building the `where` conditions of the game query,
 * counting genre and platform occurrences, decorating games with media URLs, and
 * turning every failed request into an empty list.
 *
 * The GraphQL client and the server are not modelled: each request's reply is an
 * input, `Ok(data)` when the request and the reading of its data succeeded and
 * `Failed` otherwise.
 */
module Api {
  import opened Wrappers

  /** What a request gave back once it settled. */
  datatype Response<T> = Ok(data: T) | Failed

  // ---------------------------------------------------------------------------
  // Genre and platform counts
  // ---------------------------------------------------------------------------

  /** The reply of the genre (or platform) query: the list of type names, and one
      occurrence row per (game, genre) tag, each row holding just the name. */
  datatype TypeCatalog = TypeCatalog(types: seq<string>, occurrences: seq<string>)

  /** A genre or platform entry as the sidebar receives it. */
  datatype CountedName = CountedName(name: string, count: nat)

  /** Reference definition: how many rows carry the name `name`. */
  function Occurrences(rows: seq<string>, name: string): nat
  {
    if rows == [] then 0
    else Occurrences(rows[..|rows| - 1], name) + (if rows[|rows| - 1] == name then 1 else 0)
  }

  /** `countMap[name] || 0`: a missing key reads as zero. */
  function CountOf(countMap: map<string, nat>, name: string): (n: nat)
    ensures name in countMap ==> n == countMap[name]
    ensures name !in countMap ==> n == 0
  {
    if name in countMap then countMap[name] else 0
  }

  lemma {:induction false} OccurrencesPositive(rows: seq<string>, name: string)
    ensures Occurrences(rows, name) > 0 <==> name in rows
  {
    if rows != [] {
      OccurrencesPositive(rows[..|rows| - 1], name);
      assert rows == rows[..|rows| - 1] + [rows[|rows| - 1]];
    }
  }

  /** The `forEach` loop that fills `countMap`: afterwards every name maps to its
      number of rows, and exactly the names that occur are keys. */
  method CountOccurrences(rows: seq<string>) returns (countMap: map<string, nat>)
    ensures forall name :: CountOf(countMap, name) == Occurrences(rows, name)
    ensures forall name :: name in countMap <==> name in rows
  {
    countMap := map[];
    var i := 0;
    while i < |rows|
      invariant 0 <= i <= |rows|
      invariant forall name :: CountOf(countMap, name) == Occurrences(rows[..i], name)
      invariant forall name :: name in countMap <==> name in rows[..i]
    {
      var name := rows[i];
      countMap := countMap[name := CountOf(countMap, name) + 1];
      assert rows[..i + 1][..i] == rows[..i];
      assert rows[..i + 1] == rows[..i] + [name];
      i := i + 1;
    }
    assert rows[..i] == rows;
  }

  /** `types.map(t => ({...t, count: countMap[t.name] || 0}))`. */
  function AttachCounts(types: seq<string>, countMap: map<string, nat>): (r: seq<CountedName>)
    ensures |r| == |types|
    ensures forall i :: 0 <= i < |types| ==> r[i].name == types[i]
    ensures forall i :: 0 <= i < |types| && types[i] !in countMap ==> r[i].count == 0
    ensures forall i :: 0 <= i < |types| && types[i] in countMap ==> r[i].count == countMap[types[i]]
  {
    seq(|types|, i requires 0 <= i < |types| => CountedName(types[i], CountOf(countMap, types[i])))
  }

  /** Shared body of `fetchGenres` and `fetchPlatforms` once the request settled. */
  method CountedTypes(reply: Response<TypeCatalog>) returns (r: seq<CountedName>)
    ensures reply.Failed? ==> r == []
    ensures reply.Ok? ==> |r| == |reply.data.types|
    ensures reply.Ok? ==> forall i :: 0 <= i < |r| ==>
              r[i].name == reply.data.types[i] &&
              r[i].count == Occurrences(reply.data.occurrences, reply.data.types[i])
  {
    if reply.Failed? {
      return [];
    }
    var countMap := CountOccurrences(reply.data.occurrences);
    r := AttachCounts(reply.data.types, countMap);
  }

  /** `fetchGenres`: every genre type, in the reply's order, with its number of
      `game_genres` rows; `[]` when the request fails. */
  method FetchGenres(reply: Response<TypeCatalog>) returns (genres: seq<CountedName>)
    ensures reply.Failed? ==> genres == []
    ensures reply.Ok? ==> |genres| == |reply.data.types|
    ensures reply.Ok? ==> forall i :: 0 <= i < |genres| ==>
              genres[i].name == reply.data.types[i] &&
              genres[i].count == Occurrences(reply.data.occurrences, reply.data.types[i])
  {
    genres := CountedTypes(reply);
  }

  /** `fetchPlatforms`: the same as `FetchGenres` over the platform tables. */
  method FetchPlatforms(reply: Response<TypeCatalog>) returns (platforms: seq<CountedName>)
    ensures reply.Failed? ==> platforms == []
    ensures reply.Ok? ==> |platforms| == |reply.data.types|
    ensures reply.Ok? ==> forall i :: 0 <= i < |platforms| ==>
              platforms[i].name == reply.data.types[i] &&
              platforms[i].count == Occurrences(reply.data.occurrences, reply.data.types[i])
  {
    platforms := CountedTypes(reply);
  }

  // ---------------------------------------------------------------------------
  // The game query's where conditions
  // ---------------------------------------------------------------------------

  /** The options object of `fetchGames`; `None` is an omitted (undefined) option. */
  datatype GameQueryOptions = GameQueryOptions(
    nameSearch: Option<string>,
    genreFilters: Option<seq<string>>,
    platformFilters: Option<seq<string>>,
    liveOnly: Option<bool>)

  /** One element of the `_and` list. Conditions are data: the server evaluates them. */
  datatype Condition =
    | NameILike(pattern: string)        // { name: { _ilike: pattern } }
    | IsLiveEq(live: bool)              // { is_live: { _eq: live } }
    | GenreIn(genres: seq<string>)      // { genres: { genre_name: { _in: genres } } }
    | PlatformIn(platforms: seq<string>) // { platforms: { platform_name: { _in: platforms } } }

  /** The query variables `{ where: { _and: conditions } }`. */
  datatype Where = And(conditions: seq<Condition>)

  /** Position of each kind of condition in the list the source builds. */
  function Rank(c: Condition): nat
  {
    match c
    case NameILike(_) => 0
    case IsLiveEq(_) => 1
    case GenreIn(_) => 2
    case PlatformIn(_) => 3
  }

  /** The options after JavaScript's destructuring defaults. */
  function NameSearch(o: GameQueryOptions): (s: string)
    ensures o.nameSearch.None? ==> s == ""
    ensures o.nameSearch.Some? ==> s == o.nameSearch.value
  {
    o.nameSearch.GetOr("")
  }

  function GenreFilters(o: GameQueryOptions): (g: seq<string>)
    ensures o.genreFilters.None? ==> g == []
    ensures o.genreFilters.Some? ==> g == o.genreFilters.value
  {
    o.genreFilters.GetOr([])
  }

  function PlatformFilters(o: GameQueryOptions): (p: seq<string>)
    ensures o.platformFilters.None? ==> p == []
    ensures o.platformFilters.Some? ==> p == o.platformFilters.value
  {
    o.platformFilters.GetOr([])
  }

  function LiveOnly(o: GameQueryOptions): (b: bool)
    ensures o.liveOnly.None? ==> !b
    ensures o.liveOnly.Some? ==> b == o.liveOnly.value
  {
    o.liveOnly.GetOr(false)
  }

  predicate HasName(conds: seq<Condition>) { exists i :: 0 <= i < |conds| && conds[i].NameILike? }
  predicate HasGenre(conds: seq<Condition>) { exists i :: 0 <= i < |conds| && conds[i].GenreIn? }
  predicate HasPlatform(conds: seq<Condition>) { exists i :: 0 <= i < |conds| && conds[i].PlatformIn? }

  /** A condition pushed only when `present` holds: one element or none. */
  function Piece(present: bool, c: Condition): (r: seq<Condition>)
    ensures |r| == if present then 1 else 0
    ensures forall i :: 0 <= i < |r| ==> r[i] == c
  {
    if present then [c] else []
  }

  /** Specification of the `whereConditions` list built by `fetchGames`: which
      conditions are present and what they carry. `WhereConditionsShape` gives their
      number and order. */
  function WhereConditions(o: GameQueryOptions): (conds: seq<Condition>)
    // a live condition carrying `liveOnly` (false when omitted)
    ensures IsLiveEq(LiveOnly(o)) in conds
    ensures o.liveOnly.None? ==> IsLiveEq(false) in conds
    // a name condition iff the search is non-empty, matching it as a substring
    ensures HasName(conds) <==> NameSearch(o) != ""
    ensures forall i :: 0 <= i < |conds| && conds[i].NameILike? ==>
              conds[i].pattern == "%" + NameSearch(o) + "%"
    // a genre/platform condition iff the selection is non-empty, carrying it exactly
    ensures HasGenre(conds) <==> GenreFilters(o) != []
    ensures forall i :: 0 <= i < |conds| && conds[i].GenreIn? ==> conds[i].genres == GenreFilters(o)
    ensures HasPlatform(conds) <==> PlatformFilters(o) != []
    ensures forall i :: 0 <= i < |conds| && conds[i].PlatformIn? ==>
              conds[i].platforms == PlatformFilters(o)
  {
    var n := Piece(NameSearch(o) != "", NameILike("%" + NameSearch(o) + "%"));
    var g := Piece(GenreFilters(o) != [], GenreIn(GenreFilters(o)));
    var p := Piece(PlatformFilters(o) != [], PlatformIn(PlatformFilters(o)));
    var conds := n + [IsLiveEq(LiveOnly(o))] + g + p;
    PiecesAt(n, IsLiveEq(LiveOnly(o)), g, p);
    assert HasName(conds) <==> |n| == 1 by {
      if |n| == 1 { assert conds[0] == n[0]; }
    }
    assert HasGenre(conds) <==> |g| == 1 by {
      if |g| == 1 { assert conds[|n| + 1] == g[0]; }
    }
    assert HasPlatform(conds) <==> |p| == 1 by {
      if |p| == 1 { assert conds[|n| + 1 + |g|] == p[0]; }
    }
    assert conds[|n|] == IsLiveEq(LiveOnly(o));
    conds
  }

  /** Indexing into the four concatenated pieces. */
  lemma PiecesAt(n: seq<Condition>, live: Condition, g: seq<Condition>, p: seq<Condition>)
    ensures forall i :: 0 <= i < |n + [live] + g + p| ==>
      (n + [live] + g + p)[i] == if i < |n| then n[i] else if i == |n| then live
                                 else if i <= |n| + |g| then g[i - |n| - 1] else p[i - |n| - 1 - |g|]
  {
  }

  /** The list holds exactly one live condition, is ordered name, live, genre, platform
      with each kind at most once, has one to four elements, and is just the live
      condition when there is no search and no selection. */
  lemma WhereConditionsShape(o: GameQueryOptions)
    ensures var conds := WhereConditions(o);
      && (exists i :: 0 <= i < |conds| && conds[i] == IsLiveEq(LiveOnly(o)) &&
            forall j :: 0 <= j < |conds| && conds[j].IsLiveEq? ==> j == i)
      && (forall i, j :: 0 <= i < j < |conds| ==> Rank(conds[i]) < Rank(conds[j]))
      && 1 <= |conds| <= 4
      && (NameSearch(o) == "" && GenreFilters(o) == [] && PlatformFilters(o) == [] ==>
            conds == [IsLiveEq(LiveOnly(o))])
  {
    var n := Piece(NameSearch(o) != "", NameILike("%" + NameSearch(o) + "%"));
    var g := Piece(GenreFilters(o) != [], GenreIn(GenreFilters(o)));
    var p := Piece(PlatformFilters(o) != [], PlatformIn(PlatformFilters(o)));
    var conds := WhereConditions(o);
    assert conds == n + [IsLiveEq(LiveOnly(o))] + g + p;
    PiecesAt(n, IsLiveEq(LiveOnly(o)), g, p);
    assert forall i :: 0 <= i < |conds| ==>
      Rank(conds[i]) == if i < |n| then 0 else if i == |n| then 1 else if i <= |n| + |g| then 2 else 3;
    assert conds[|n|] == IsLiveEq(LiveOnly(o));
  }

  /** The pushes of `fetchGames` onto `whereConditions`, one step at a time. */
  method BuildWhereConditions(o: GameQueryOptions) returns (conds: seq<Condition>)
    ensures conds == WhereConditions(o)
  {
    var nameSearch := o.nameSearch.GetOr("");
    var genreFilters := o.genreFilters.GetOr([]);
    var platformFilters := o.platformFilters.GetOr([]);
    var liveOnly := o.liveOnly.GetOr(false);
    conds := [];
    if nameSearch != "" {
      conds := conds + [NameILike("%" + nameSearch + "%")];
    }
    conds := conds + [IsLiveEq(liveOnly)];
    if |genreFilters| > 0 {
      conds := conds + [GenreIn(genreFilters)];
    }
    if |platformFilters| > 0 {
      conds := conds + [PlatformIn(platformFilters)];
    }
  }

  // ---------------------------------------------------------------------------
  // Games and their media URLs
  // ---------------------------------------------------------------------------

  /** A row of the `games` query, as the server returns it. */
  datatype RawGame = RawGame(
    id: int,
    name: string,
    is_live: bool,
    directory_image_name: Option<string>,
    directory_gif_name: Option<string>,
    genres: seq<string>,
    platforms: seq<string>)

  /** A fetched game: every field of the row, plus the two media URLs (`null` is `None`). */
  datatype Game = Game(row: RawGame, image_url: Option<string>, gif_url: Option<string>)

  /** A file name is used only when it is truthy: present and non-empty. */
  predicate Truthy(name: Option<string>) { name.Some? && name.value != "" }

  /** `name ? prefix + name : null`. */
  function MediaUrl(prefix: string, name: Option<string>): (url: Option<string>)
    ensures url.Some? <==> Truthy(name)
    ensures url.Some? ==> |prefix| < |url.value| && url.value[..|prefix|] == prefix &&
                          url.value[|prefix|..] == name.value
  {
    if Truthy(name) then Some(prefix + name.value) else None
  }

  function Decorate(g: RawGame): (d: Game)
    ensures d.row == g
    ensures d.image_url.Some? <==> Truthy(g.directory_image_name)
    ensures d.image_url.Some? ==> d.image_url.value == "/images/" + g.directory_image_name.value
    ensures d.gif_url.Some? <==> Truthy(g.directory_gif_name)
    ensures d.gif_url.Some? ==> d.gif_url.value == "/gifs/" + g.directory_gif_name.value
  {
    Game(g, MediaUrl("/images/", g.directory_image_name), MediaUrl("/gifs/", g.directory_gif_name))
  }

  /** `data.games.map(...)`: the rows in the same order, each decorated. */
  function DecorateAll(rows: seq<RawGame>): (games: seq<Game>)
    ensures |games| == |rows|
    ensures forall i :: 0 <= i < |rows| ==> games[i].row == rows[i]
    ensures forall i :: 0 <= i < |rows| ==> games[i] == Decorate(rows[i])
  {
    seq(|rows|, i requires 0 <= i < |rows| => Decorate(rows[i]))
  }

  /** `fetchGames`: the variables it sends, and the games it resolves with
      (`[]` when the request fails). It never rejects. */
  method FetchGames(o: GameQueryOptions, reply: Response<seq<RawGame>>)
    returns (variables: Where, games: seq<Game>)
    ensures variables == And(WhereConditions(o))
    ensures reply.Failed? ==> games == []
    ensures reply.Ok? ==> games == DecorateAll(reply.data)
  {
    var conds := BuildWhereConditions(o);
    variables := And(conds);
    match reply
    case Failed => games := [];
    case Ok(rows) => games := DecorateAll(rows);
  }
}
