/**
 * The result list's presentation rules: which of the three views is shown, and the
 * demonstration badges given to the first four games by position.
 */
module GameList {
  import Api

  /** A game with the two badge flags added. */
  datatype BadgedGame = BadgedGame(game: Api.Game, is_top_25: bool, is_top_100: bool)

  /** `games.map((game, index) => ({...game, is_top_25: index < 2, is_top_100: 2 <= index < 4}))`. */
  function WithBadges(games: seq<Api.Game>): (r: seq<BadgedGame>)
    ensures |r| == |games|
    ensures forall i :: 0 <= i < |r| ==> r[i].game == games[i]
    ensures forall i :: 0 <= i < |r| ==> (r[i].is_top_25 <==> i < 2)
    ensures forall i :: 0 <= i < |r| ==> (r[i].is_top_100 <==> 2 <= i < 4)
    ensures forall i :: 0 <= i < |r| ==> !(r[i].is_top_25 && r[i].is_top_100)
  {
    seq(|games|, i requires 0 <= i < |games| => BadgedGame(games[i], i < 2, 2 <= i < 4))
  }

  /** How many games of a list carry each badge. */
  function Top25Count(r: seq<BadgedGame>): nat
  {
    if r == [] then 0 else Top25Count(r[..|r| - 1]) + (if r[|r| - 1].is_top_25 then 1 else 0)
  }

  function Top100Count(r: seq<BadgedGame>): nat
  {
    if r == [] then 0 else Top100Count(r[..|r| - 1]) + (if r[|r| - 1].is_top_100 then 1 else 0)
  }

  function Min(a: int, b: int): int { if a < b then a else b }

  /** At most two games get each badge: the first two the top-25 one, the next two the top-100 one. */
  lemma {:induction false} BadgeCounts(games: seq<Api.Game>, k: nat)
    requires k <= |games|
    ensures Top25Count(WithBadges(games)[..k]) == Min(2, k)
    ensures Top100Count(WithBadges(games)[..k]) == if k <= 2 then 0 else Min(2, k - 2)
  {
    if k > 0 {
      var r := WithBadges(games);
      assert r[..k][..k - 1] == r[..k - 1];
      BadgeCounts(games, k - 1);
    }
  }

  /** What `GameList` renders. */
  datatype View =
    | Spinner                                          // while loading
    | NoGamesFound                                     // "No games found"
    | Results(count: nat, cards: seq<BadgedGame>)     // "(n results)" and one card per game

  function ViewFor(loading: bool, games: seq<Api.Game>): (v: View)
    ensures loading ==> v == Spinner
    ensures !loading && games == [] ==> v == NoGamesFound
    ensures v.Results? <==> !loading && games != []
    ensures v.Results? ==> v.count == |games| && v.cards == WithBadges(games)
  {
    if loading then Spinner
    else if |games| == 0 then NoGamesFound
    else Results(|games|, WithBadges(games))
  }
}
