/**
 * The filter sidebar's logic: toggling a name in the genre or platform selection,
 * clearing the filters, writing the filters into the URL's query parameters and
 * reading them back, and truncating long lists to their first six entries.
 *
 * The query string is an ordered list of (name, value) pairs with the semantics of
 * `URLSearchParams` (`set`, `get`, `has`); its percent-encoding is not modelled, so
 * the values here are the decoded strings.
 */
module Sidebar {
  import opened Wrappers
  import opened GameContext

  // ---------------------------------------------------------------------------
  // Toggling a selection
  // ---------------------------------------------------------------------------

  /** `Array.prototype.indexOf`: the first index holding `x`, or -1. */
  function IndexOf(s: seq<string>, x: string): (i: int)
    ensures -1 <= i < |s|
    ensures i == -1 <==> x !in s
    ensures 0 <= i ==> s[i] == x && x !in s[..i]
  {
    if s == [] then -1
    else if s[0] == x then 0
    else
      var k := IndexOf(s[1..], x);
      assert k >= 0 ==> s[..k + 1] == [s[0]] + s[1..][..k];
      if k == -1 then -1 else k + 1
  }

  /** `toggleGenre` / `togglePlatform` on a copy of the selection: an absent name is
      pushed at the end; otherwise its first occurrence is spliced out and the rest
      keeps its order. */
  function Toggle(s: seq<string>, x: string): (r: seq<string>)
    ensures x !in s ==> r == s + [x]
    ensures x in s ==> exists i :: 0 <= i < |s| && s[i] == x && x !in s[..i] && r == s[..i] + s[i + 1..]
  {
    var i := IndexOf(s, x);
    if i == -1 then s + [x] else s[..i] + s[i + 1..]
  }

  /** Toggling an absent name twice gives the selection back. */
  lemma ToggleTwiceAbsent(s: seq<string>, x: string)
    requires x !in s
    ensures Toggle(Toggle(s, x), x) == s
  {
    assert (s + [x])[..|s|] == s;
  }

  predicate NoDuplicates(s: seq<string>)
  {
    forall i, j :: 0 <= i < j < |s| ==> s[i] != s[j]
  }

  /** Splicing out index `i` of a duplicate-free list keeps it duplicate-free and
      removes exactly the name `s[i]`. */
  lemma {:induction false} RemovedAt(s: seq<string>, i: nat, r: seq<string>)
    requires NoDuplicates(s)
    requires i < |s| && r == s[..i] + s[i + 1..]
    ensures NoDuplicates(r)
    ensures forall y :: y in r <==> y in s && y != s[i]
  {
    assert |r| == |s| - 1;
    assert forall k :: 0 <= k < |r| ==> r[k] == s[if k < i then k else k + 1];
    forall y | y in s && y != s[i] ensures y in r {
      var k :| 0 <= k < |s| && s[k] == y;
      assert r[if k < i then k else k - 1] == y;
    }
  }

  /** On a selection without duplicates a toggle keeps it so, flips the membership of
      `x` and leaves the membership of every other name alone. */
  lemma {:induction false} ToggleAsSet(s: seq<string>, x: string)
    requires NoDuplicates(s)
    ensures NoDuplicates(Toggle(s, x))
    ensures forall y :: y in Toggle(s, x) <==> (y in s) != (y == x)
  {
    var i := IndexOf(s, x);
    if i == -1 {
      assert Toggle(s, x) == s + [x];
    } else {
      RemovedAt(s, i, s[..i] + s[i + 1..]);
    }
  }

  /** The `[filterType]: value` pair each sidebar control hands to `updateFilter`. */
  function ToggleGenre(f: FilterState, name: string): (u: FieldUpdate)
    ensures SetField(f, u) == f.(selectedGenres := Toggle(f.selectedGenres, name))
  {
    SelectedGenres(Toggle(f.selectedGenres, name))
  }

  function TogglePlatform(f: FilterState, name: string): (u: FieldUpdate)
    ensures SetField(f, u) == f.(selectedPlatforms := Toggle(f.selectedPlatforms, name))
  {
    SelectedPlatforms(Toggle(f.selectedPlatforms, name))
  }

  function ToggleLive(f: FilterState): (u: FieldUpdate)
    ensures SetField(f, u) == f.(liveOnly := !f.liveOnly)
  {
    LiveOnly(!f.liveOnly)
  }

  lemma ToggleLiveTwice(f: FilterState)
    ensures SetField(SetField(f, ToggleLive(f)), ToggleLive(SetField(f, ToggleLive(f)))) == f
  {
  }

  // ---------------------------------------------------------------------------
  // Clearing
  // ---------------------------------------------------------------------------

  /** The object `handleClearFilters` passes to `updateMultipleFilters`; it has no `liveOnly` key. */
  const ClearPatch := Patch(Some(""), Some([]), Some([]), None)

  /** The Clear button is rendered when a search or a selection is active. */
  predicate ClearVisible(f: FilterState)
    ensures ClearVisible(f) <==> Merge(f, ClearPatch) != f
  {
    f.searchQuery != "" || |f.selectedGenres| > 0 || |f.selectedPlatforms| > 0
  }

  /** The state after Clear: search and selections emptied, `liveOnly` kept, the button
      hidden; Clear changes the state exactly when the button was shown. */
  function Cleared(f: FilterState): (r: FilterState)
    ensures r.searchQuery == "" && r.selectedGenres == [] && r.selectedPlatforms == []
    ensures r.liveOnly == f.liveOnly
    ensures !ClearVisible(r)
    ensures r == f <==> !ClearVisible(f)
  {
    Merge(f, ClearPatch)
  }

  // ---------------------------------------------------------------------------
  // Query parameters
  // ---------------------------------------------------------------------------

  /** A query string's (name, value) list, in order. */
  type Params = seq<(string, string)>

  /** `params.get(key)`: the value of the first pair named `key`. */
  function Get(p: Params, key: string): Option<string>
  {
    if p == [] then None
    else if p[0].0 == key then Some(p[0].1)
    else
      Get(p[1..], key)
  }

  /** `params.has(key)`. */
  predicate Has(p: Params, key: string)
  {
    Get(p, key).Some?
  }

  /** `has` holds exactly when some pair carries the name. */
  lemma {:induction false} HasIffPair(p: Params, key: string)
    ensures Has(p, key) <==> exists i :: 0 <= i < |p| && p[i].0 == key
  {
    if p != [] {
      HasIffPair(p[1..], key);
      assert forall i :: 0 < i < |p| ==> p[i] == p[1..][i - 1];
    }
  }

  /** `get` answers with the first pair of that name. */
  lemma {:induction false} GetIsFirst(p: Params, key: string, i: nat)
    requires i < |p| && p[i].0 == key
    requires forall j :: 0 <= j < i ==> p[j].0 != key
    ensures Get(p, key) == Some(p[i].1)
  {
    if i > 0 {
      GetIsFirst(p[1..], key, i - 1);
    }
  }

  /** The pairs whose name is not `key`, in order. */
  function Without(p: Params, key: string): (r: Params)
    ensures Get(r, key) == None
    ensures forall k :: k != key ==> Get(r, k) == Get(p, k)
  {
    if p == [] then []
    else if p[0].0 == key then Without(p[1..], key)
    else [p[0]] + Without(p[1..], key)
  }

  /** `params.set(key, value)`: the first pair named `key` takes the value and later
      ones are removed; without such a pair, one is appended. */
  function Set(p: Params, key: string, value: string): (r: Params)
    ensures Get(r, key) == Some(value)
    ensures forall k :: k != key ==> Get(r, k) == Get(p, k)
    ensures !Has(p, key) ==> r == p + [(key, value)]
  {
    if p == [] then [(key, value)]
    else if p[0].0 == key then [(key, value)] + Without(p[1..], key)
    else
      var r := [p[0]] + Set(p[1..], key, value);
      assert r[1..] == Set(p[1..], key, value);
      r
  }

  /** `if (cond) params.set(key, value)`. */
  function SetIf(p: Params, cond: bool, key: string, value: string): (r: Params)
    ensures Get(r, key) == if cond then Some(value) else Get(p, key)
    ensures forall k :: k != key ==> Get(r, k) == Get(p, k)
  {
    if cond then Set(p, key, value) else p
  }

  const Comma := ','

  /** `list.join(",")`: the parts in order with one comma between neighbours. */
  function Join(parts: seq<string>): (r: string)
    ensures |parts| == 0 ==> r == ""
    ensures |parts| == 1 ==> r == parts[0]
  {
    if |parts| == 0 then ""
    else if |parts| == 1 then parts[0]
    else parts[0] + [Comma] + Join(parts[1..])
  }

  /** A join holds at least one comma fewer than it has parts, and as many as it has
      parts when some part holds a comma itself. */
  lemma {:induction false} JoinCommas(parts: seq<string>)
    requires |parts| >= 1
    ensures multiset(Join(parts))[Comma] >= |parts| - 1
    ensures !NoComma(parts) ==> multiset(Join(parts))[Comma] >= |parts|
  {
    if |parts| > 1 {
      var rest := Join(parts[1..]);
      JoinCommas(parts[1..]);
      assert !NoComma(parts) ==> Comma in parts[0] || !NoComma(parts[1..]) by {
        if !NoComma(parts) {
          var i :| 0 <= i < |parts| && Comma in parts[i];
          if i > 0 { assert Comma in parts[1..][i - 1]; }
        }
      }
      assert Join(parts) == parts[0] + [Comma] + rest;
      assert multiset(parts[0] + [Comma] + rest) == multiset(parts[0]) + multiset{Comma} + multiset(rest);
    }
  }

  /** Splitting yields one part more than the string has commas. */
  lemma {:induction false} SplitCount(s: string)
    ensures |Split(s)| == 1 + multiset(s)[Comma]
  {
    if s != [] {
      SplitCount(s[1..]);
      assert s == [s[0]] + s[1..];
      assert multiset(s) == multiset{s[0]} + multiset(s[1..]);
    }
  }

  /** `s.split(",")`: always at least one part, none holding a comma. */
  function Split(s: string): (parts: seq<string>)
    ensures |parts| >= 1
    ensures forall i :: 0 <= i < |parts| ==> Comma !in parts[i]
  {
    if s == [] then [""]
    else
      var rest := Split(s[1..]);
      if s[0] == Comma then [""] + rest
      else [[s[0]] + rest[0]] + rest[1..]
  }

  predicate NoComma(names: seq<string>)
  {
    forall i :: 0 <= i < |names| ==> Comma !in names[i]
  }

  lemma {:induction false} SplitWithoutComma(s: string)
    requires Comma !in s
    ensures Split(s) == [s]
  {
    if s != [] {
      SplitWithoutComma(s[1..]);
      assert [s[0]] + s[1..] == s;
    }
  }

  lemma {:induction false} SplitAfterPart(p: string, t: string)
    requires Comma !in p
    ensures Split(p + [Comma] + t) == [p] + Split(t)
  {
    if p == [] {
      assert p + [Comma] + t == [Comma] + t;
      assert ([Comma] + t)[1..] == t;
    } else {
      assert (p + [Comma] + t)[1..] == p[1..] + [Comma] + t;
      SplitAfterPart(p[1..], t);
      assert [p[0]] + p[1..] == p;
    }
  }

  /** Splitting a join gives the list back when it is non-empty and no part holds a comma. */
  lemma {:induction false} SplitJoin(parts: seq<string>)
    requires |parts| >= 1 && NoComma(parts)
    ensures Split(Join(parts)) == parts
  {
    if |parts| == 1 {
      SplitWithoutComma(parts[0]);
    } else {
      assert NoComma(parts[1..]);
      SplitJoin(parts[1..]);
      SplitAfterPart(parts[0], Join(parts[1..]));
      assert [parts[0]] + parts[1..] == parts;
    }
  }

  /** Joining a split always gives the string back. */
  lemma {:induction false} JoinSplit(s: string)
    ensures Join(Split(s)) == s
  {
    if s != [] {
      JoinSplit(s[1..]);
      var rest := Split(s[1..]);
      if s[0] == Comma {
        assert Join([""] + rest) == [Comma] + Join(rest) by {
          assert ([""] + rest)[1..] == rest;
        }
      } else {
        var parts := [[s[0]] + rest[0]] + rest[1..];
        if |rest| == 1 {
          assert Join(parts) == [s[0]] + rest[0];
        } else {
          assert parts[1..] == rest[1..];
          assert Join(parts) == [s[0]] + rest[0] + [Comma] + Join(rest[1..]);
        }
      }
    }
  }

  /** `liveOnly.toString()`: the decoder's `=== "true"` test gives `b` back. */
  function BoolString(b: bool): (r: string)
    ensures (r == "true") <==> b
  {
    if b then "true" else "false"
  }

  /** The parameters the URL-sync effect writes for the filters `f`. */
  function Encode(f: FilterState): (p: Params)
    ensures Has(p, "search") <==> f.searchQuery != ""
    ensures Has(p, "search") ==> Get(p, "search") == Some(f.searchQuery)
    ensures Has(p, "genres") <==> |f.selectedGenres| > 0
    ensures Has(p, "genres") ==> Get(p, "genres") == Some(Join(f.selectedGenres))
    ensures Has(p, "platforms") <==> |f.selectedPlatforms| > 0
    ensures Has(p, "platforms") ==> Get(p, "platforms") == Some(Join(f.selectedPlatforms))
    ensures Get(p, "live") == Some(BoolString(f.liveOnly))
    ensures forall k :: Has(p, k) ==> k == "search" || k == "genres" || k == "platforms" || k == "live"
  {
    var p1 := SetIf([], f.searchQuery != "", "search", f.searchQuery);
    var p2 := SetIf(p1, |f.selectedGenres| > 0, "genres", Join(f.selectedGenres));
    var p3 := SetIf(p2, |f.selectedPlatforms| > 0, "platforms", Join(f.selectedPlatforms));
    var p4 := Set(p3, "live", BoolString(f.liveOnly));
    assert Get([], "search") == None && Get([], "genres") == None && Get([], "platforms") == None;
    p4
  }

  /** The effect body: a fresh `URLSearchParams` filled by `set` calls. */
  method EncodeParams(f: FilterState) returns (params: Params)
    ensures params == Encode(f)
  {
    params := [];
    if f.searchQuery != "" {
      params := Set(params, "search", f.searchQuery);
    }
    if |f.selectedGenres| > 0 {
      params := Set(params, "genres", Join(f.selectedGenres));
    }
    if |f.selectedPlatforms| > 0 {
      params := Set(params, "platforms", Join(f.selectedPlatforms));
    }
    params := Set(params, "live", BoolString(f.liveOnly));
  }

  /** The `initialFilters` object read from the URL: a field for each parameter present. */
  function Decode(p: Params): (patch: Patch)
    ensures patch.searchQuery == Get(p, "search")
    ensures patch.selectedGenres.Some? <==> Has(p, "genres")
    ensures patch.selectedPlatforms.Some? <==> Has(p, "platforms")
    ensures patch.liveOnly.Some? <==> Has(p, "live")
    ensures patch.liveOnly == Some(true) <==> Get(p, "live") == Some("true")
    ensures patch.selectedGenres.Some? ==>
              |patch.selectedGenres.value| >= 1 && Some(Join(patch.selectedGenres.value)) == Get(p, "genres")
    ensures patch.selectedPlatforms.Some? ==>
              |patch.selectedPlatforms.value| >= 1 && Some(Join(patch.selectedPlatforms.value)) == Get(p, "platforms")
    ensures patch.selectedGenres.Some? ==> NoComma(patch.selectedGenres.value)
    ensures patch.selectedPlatforms.Some? ==> NoComma(patch.selectedPlatforms.value)
  {
    var search := Get(p, "search");
    var genres := Get(p, "genres");
    var platforms := Get(p, "platforms");
    var live := Get(p, "live");
    assert genres.Some? ==> Join(Split(genres.value)) == genres.value by {
      if genres.Some? { JoinSplit(genres.value); }
    }
    assert platforms.Some? ==> Join(Split(platforms.value)) == platforms.value by {
      if platforms.Some? { JoinSplit(platforms.value); }
    }
    Patch(
      search,
      if genres.Some? then Some(Split(genres.value)) else None,
      if platforms.Some? then Some(Split(platforms.value)) else None,
      if live.Some? then Some(live.value == "true") else None)
  }

  /** The field-by-field filling of `initialFilters`. */
  method DecodeParams(p: Params) returns (initialFilters: Patch)
    ensures initialFilters == Decode(p)
  {
    initialFilters := EmptyPatch;
    if Has(p, "search") {
      initialFilters := initialFilters.(searchQuery := Some(Get(p, "search").value));
    }
    if Has(p, "genres") {
      initialFilters := initialFilters.(selectedGenres := Some(Split(Get(p, "genres").value)));
    }
    if Has(p, "platforms") {
      initialFilters := initialFilters.(selectedPlatforms := Some(Split(Get(p, "platforms").value)));
    }
    if Has(p, "live") {
      initialFilters := initialFilters.(liveOnly := Some(Get(p, "live").value == "true"));
    }
  }

  /** The patch the URL-parse effect applies, or `None` when no parameter of ours is present. */
  function UrlPatch(p: Params): (r: Option<Patch>)
    ensures r.None? <==> !Has(p, "search") && !Has(p, "genres") && !Has(p, "platforms") && !Has(p, "live")
    ensures r.Some? ==> r.value == Decode(p)
  {
    var patch := Decode(p);
    if IsEmpty(patch) then None else Some(patch)
  }

  /** Reading back the URL written for `f` into the default state restores `f`, provided
      no selected genre or platform name contains a comma. */
  lemma {:induction false} UrlRoundTrip(f: FilterState)
    requires NoComma(f.selectedGenres) && NoComma(f.selectedPlatforms)
    ensures UrlPatch(Encode(f)).Some?
    ensures Merge(DefaultFilters(), UrlPatch(Encode(f)).value) == f
  {
    var p := Encode(f);
    if |f.selectedGenres| > 0 { SplitJoin(f.selectedGenres); }
    if |f.selectedPlatforms| > 0 { SplitJoin(f.selectedPlatforms); }
  }

  /** The round trip holds exactly when no selected name contains a comma: a comma makes
      the decoded list longer than the selection. */
  lemma {:induction false} UrlRoundTripExactly(f: FilterState)
    ensures Merge(DefaultFilters(), Decode(Encode(f))) == f <==>
              NoComma(f.selectedGenres) && NoComma(f.selectedPlatforms)
  {
    var r := Merge(DefaultFilters(), Decode(Encode(f)));
    if NoComma(f.selectedGenres) && NoComma(f.selectedPlatforms) {
      UrlRoundTrip(f);
    } else if !NoComma(f.selectedGenres) {
      assert |f.selectedGenres| > 0;
      JoinCommas(f.selectedGenres);
      SplitCount(Join(f.selectedGenres));
      assert |r.selectedGenres| == 1 + multiset(Join(f.selectedGenres))[Comma];
      assert r.selectedGenres != f.selectedGenres;
    } else {
      assert |f.selectedPlatforms| > 0;
      JoinCommas(f.selectedPlatforms);
      SplitCount(Join(f.selectedPlatforms));
      assert |r.selectedPlatforms| == 1 + multiset(Join(f.selectedPlatforms))[Comma];
      assert r.selectedPlatforms != f.selectedPlatforms;
    }
  }

  /** A selected name with a comma comes back as two names: the proviso above is needed. */
  lemma CommaBreaksRoundTrip(f: FilterState, a: string, b: string)
    requires Comma !in a && Comma !in b
    requires f.selectedGenres == [a + [Comma] + b]
    ensures Decode(Encode(f)).selectedGenres == Some([a, b])
    ensures Merge(DefaultFilters(), Decode(Encode(f))) != f
  {
    var p := Encode(f);
    assert Get(p, "genres") == Some(a + [Comma] + b);
    assert Decode(p).selectedGenres == Some(Split(a + [Comma] + b));
    SplitAfterPart(a, b);
    SplitWithoutComma(b);
    assert [a] + [b] == [a, b];
  }

  // ---------------------------------------------------------------------------
  // Truncated lists
  // ---------------------------------------------------------------------------

  const CollapsedCount := 6

  /** The "Show More/Less" button is rendered for a list longer than six: exactly when
      the collapsed list hides something. */
  predicate HasShowMore<T>(items: seq<T>)
    ensures HasShowMore(items) <==> Visible(items, false) != items
  {
    |items| > CollapsedCount
  }

  /** `expanded ? items : items.slice(0, 6)`: a prefix of the list, all of it when
      expanded, and everything is shown exactly when nothing needs the button. */
  function Visible<T>(items: seq<T>, expanded: bool): (v: seq<T>)
    ensures |v| == if expanded || |items| <= CollapsedCount then |items| else CollapsedCount
    ensures v == items[..|v|]
    ensures !expanded ==> (v == items <==> |items| <= CollapsedCount)
  {
    if expanded then items
    else if |items| <= CollapsedCount then items
    else items[..CollapsedCount]
  }

  /** The `expandedSections` state, one flag per list. */
  datatype Expanded = Expanded(genres: bool, platforms: bool)

  datatype Section = GenresSection | PlatformsSection

  /** `toggleSection`: flips the flag of one section and keeps the other. */
  function ToggleSection(e: Expanded, s: Section): (r: Expanded)
    ensures s.GenresSection? ==> r.genres == !e.genres && r.platforms == e.platforms
    ensures s.PlatformsSection? ==> r.platforms == !e.platforms && r.genres == e.genres
  {
    match s
    case GenresSection => e.(genres := !e.genres)
    case PlatformsSection => e.(platforms := !e.platforms)
  }

  lemma ToggleSectionTwice(e: Expanded, s: Section)
    ensures ToggleSection(ToggleSection(e, s), s) == e
  {
  }

  // ---------------------------------------------------------------------------
  // The handlers, acting on the store
  // ---------------------------------------------------------------------------

  method HandleToggleGenre(store: GameStore, name: string)
    modifies store`filters
    ensures store.filters == old(store.filters).(selectedGenres := Toggle(old(store.filters.selectedGenres), name))
  {
    store.UpdateFilter(ToggleGenre(store.filters, name));
  }

  method HandleTogglePlatform(store: GameStore, name: string)
    modifies store`filters
    ensures store.filters == old(store.filters).(selectedPlatforms := Toggle(old(store.filters.selectedPlatforms), name))
  {
    store.UpdateFilter(TogglePlatform(store.filters, name));
  }

  method HandleToggleLive(store: GameStore)
    modifies store`filters
    ensures store.filters == old(store.filters).(liveOnly := !old(store.filters.liveOnly))
  {
    store.UpdateFilter(ToggleLive(store.filters));
  }

  method HandleClearFilters(store: GameStore)
    modifies store`filters
    ensures store.filters == Cleared(old(store.filters))
  {
    store.UpdateMultipleFilters(ClearPatch);
  }

  /** The URL-parse effect: applies the decoded patch when it has a key. */
  method ApplyUrl(store: GameStore, p: Params)
    modifies store`filters
    ensures UrlPatch(p).None? ==> store.filters == old(store.filters)
    ensures UrlPatch(p).Some? ==> store.filters == Merge(old(store.filters), Decode(p))
  {
    var initialFilters := DecodeParams(p);
    if !IsEmpty(initialFilters) {
      store.UpdateMultipleFilters(initialFilters);
    }
  }

  /** A fresh store that reads the URL written for `f` ends up holding `f`. */
  method ReloadFromUrl(f: FilterState) returns (restored: FilterState)
    requires NoComma(f.selectedGenres) && NoComma(f.selectedPlatforms)
    ensures restored == f
  {
    var url := EncodeParams(f);
    var store := new GameStore();
    ApplyUrl(store, url);
    UrlRoundTrip(f);
    restored := store.filters;
  }
}
