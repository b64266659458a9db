/** The resolver table: the two root queries, the field resolvers of `Game`
    and of `Developer`. Each is a pure function of the context's store. */
module Resolvers {
  import opened Wrappers
  import opened Store
  import Lookup

  function GameKey(g: Game): string { g.id }

  function DeveloperKey(d: Developer): string { d.id }

  // ---------------------------------------------------------------------
  // Query

  /** `Query.game(id)`: the first stored game with that id, or nothing. */
  function QueryGame(ctx: Context, id: string): (r: Option<Game>)
    ensures r.Some? <==> exists i :: 0 <= i < |ctx.db.games| && ctx.db.games[i].id == id
    ensures r.Some? ==> r.value.id == id
    ensures r.Some? ==> exists k :: 0 <= k < |ctx.db.games| && ctx.db.games[k] == r.value
                                    && forall j :: 0 <= j < k ==> ctx.db.games[j].id != id
  {
    Lookup.Find(ctx.db.games, GameKey, id)
  }

  /** `Query.developer(id)`: the first stored developer with that id, or nothing. */
  function QueryDeveloper(ctx: Context, id: string): (r: Option<Developer>)
    ensures r.Some? <==> exists i :: 0 <= i < |ctx.db.developers| && ctx.db.developers[i].id == id
    ensures r.Some? ==> r.value.id == id
    ensures r.Some? ==> exists k :: 0 <= k < |ctx.db.developers| && ctx.db.developers[k] == r.value
                                    && forall j :: 0 <= j < k ==> ctx.db.developers[j].id != id
  {
    Lookup.Find(ctx.db.developers, DeveloperKey, id)
  }

  // ---------------------------------------------------------------------
  // Game

  function GameId(g: Game): string { g.id }

  function GameTitle(g: Game): string { g.title }

  function GameScore(g: Game): Score { g.score }

  /** `Game.developer`: dereferences the game's developer key against the store;
      a dangling key gives nothing rather than a failure. */
  function GameDeveloper(ctx: Context, g: Game): (r: Option<Developer>)
    ensures r == QueryDeveloper(ctx, g.developer)
    ensures r.Some? ==> r.value.id == g.developer
    ensures r.None? <==> forall i :: 0 <= i < |ctx.db.developers| ==> ctx.db.developers[i].id != g.developer
  {
    Lookup.Find(ctx.db.developers, DeveloperKey, g.developer)
  }

  // ---------------------------------------------------------------------
  // Developer

  function DeveloperId(d: Developer): string { d.id }

  function DeveloperName(d: Developer): string { d.name }

  /** Looks up each id of `ids` in turn, one slot per id. */
  function GamesByIds(ctx: Context, ids: seq<string>): (r: seq<Option<Game>>)
    ensures |r| == |ids|
    ensures forall i :: 0 <= i < |ids| ==> r[i] == QueryGame(ctx, ids[i])
    decreases |ids|
  {
    if |ids| == 0 then []
    else [QueryGame(ctx, ids[0])] + GamesByIds(ctx, ids[1..])
  }

  /** `Developer.games`: the developer's game list, each id replaced by its
      game, in the same order; a dangling id leaves nothing in its own slot. */
  function DeveloperGames(ctx: Context, d: Developer): (r: seq<Option<Game>>)
    ensures |r| == |d.games|
    ensures forall i :: 0 <= i < |r| ==> r[i] == QueryGame(ctx, d.games[i])
    ensures forall i :: 0 <= i < |r| && r[i].Some? ==> r[i].value.id == d.games[i]
    ensures forall i :: 0 <= i < |r| ==>
              (r[i].None? <==> forall k :: 0 <= k < |ctx.db.games| ==> ctx.db.games[k].id != d.games[i])
  {
    GamesByIds(ctx, d.games)
  }

  // ---------------------------------------------------------------------
  // Properties relating several resolvers

  /** The projection resolvers hand back the stored field as it is, and a
      score is always one of the three literals. */
  lemma ProjectionsReturnStoredFields(g: Game, d: Developer)
    ensures GameId(g) == g.id && GameTitle(g) == g.title && GameScore(g) == g.score
    ensures DeveloperId(d) == d.id && DeveloperName(d) == d.name
    ensures ScoreName(GameScore(g)) in {"good", "normal", "bad"}
    ensures ParseScore(ScoreName(GameScore(g))) == Some(g.score)
  {
  }

  /** When ids repeat, the earlier game wins: putting more games after the
      store's games never changes a lookup that already succeeds. */
  lemma QueryGameFirstWins(ctx: Context, later: seq<Game>, id: string)
    requires QueryGame(ctx, id).Some?
    ensures QueryGame(Context(ctx.db.(games := ctx.db.games + later)), id) == QueryGame(ctx, id)
  {
    Lookup.FindAppend(ctx.db.games, later, GameKey, id);
  }

  /** The same tie-break for developers. */
  lemma QueryDeveloperFirstWins(ctx: Context, later: seq<Developer>, id: string)
    requires QueryDeveloper(ctx, id).Some?
    ensures QueryDeveloper(Context(ctx.db.(developers := ctx.db.developers + later)), id)
            == QueryDeveloper(ctx, id)
  {
    Lookup.FindAppend(ctx.db.developers, later, DeveloperKey, id);
  }

  /** With distinct ids, looking up a stored game's id finds that game. */
  lemma QueryGameFindsStored(ctx: Context, k: int)
    requires UniqueIds(ctx.db)
    requires 0 <= k < |ctx.db.games|
    ensures QueryGame(ctx, ctx.db.games[k].id) == Some(ctx.db.games[k])
  {
    Lookup.FindDistinctKeys(ctx.db.games, GameKey, k);
  }

  /** With distinct ids, looking up a stored developer's id finds that developer. */
  lemma QueryDeveloperFindsStored(ctx: Context, k: int)
    requires UniqueIds(ctx.db)
    requires 0 <= k < |ctx.db.developers|
    ensures QueryDeveloper(ctx, ctx.db.developers[k].id) == Some(ctx.db.developers[k])
  {
    Lookup.FindDistinctKeys(ctx.db.developers, DeveloperKey, k);
  }

  /** Changing one id of a developer's list changes only that slot of the
      resolved list. */
  lemma DeveloperGamesSlotIsolated(ctx: Context, d: Developer, n: int, id: string)
    requires 0 <= n < |d.games|
    ensures var r := DeveloperGames(ctx, d);
            var r' := DeveloperGames(ctx, d.(games := d.games[n := id]));
            && |r'| == |r|
            && r'[n] == QueryGame(ctx, id)
            && forall i :: 0 <= i < |r| && i != n ==> r'[i] == r[i]
  {
  }

  /** Resolving a concatenated id list is resolving each part. */
  lemma {:induction false} GamesByIdsAppend(ctx: Context, a: seq<string>, b: seq<string>)
    ensures GamesByIds(ctx, a + b) == GamesByIds(ctx, a) + GamesByIds(ctx, b)
  {
    var whole, front, back := GamesByIds(ctx, a + b), GamesByIds(ctx, a), GamesByIds(ctx, b);
    forall i | 0 <= i < |a + b|
      ensures whole[i] == (front + back)[i]
    {
      if i < |a| {
        assert (a + b)[i] == a[i];
      } else {
        assert (a + b)[i] == b[i - |a|];
      }
    }
  }

  /** In a consistent store with distinct ids, following a stored game to its
      developer and back through `Developer.games` finds the game again. */
  lemma GameDeveloperRoundTrip(ctx: Context, k: int)
    requires Consistent(ctx.db) && UniqueIds(ctx.db)
    requires 0 <= k < |ctx.db.games|
    ensures GameDeveloper(ctx, ctx.db.games[k]).Some?
    ensures Some(ctx.db.games[k]) in DeveloperGames(ctx, GameDeveloper(ctx, ctx.db.games[k]).value)
  {
    var g := ctx.db.games[k];
    var j :| 0 <= j < |ctx.db.developers| && ctx.db.developers[j].id == g.developer
             && g.id in ctx.db.developers[j].games;
    var d := ctx.db.developers[j];
    QueryDeveloperFindsStored(ctx, j);
    var n :| 0 <= n < |d.games| && d.games[n] == g.id;
    QueryGameFindsStored(ctx, k);
    assert DeveloperGames(ctx, d)[n] == Some(g);
  }

  /** In a consistent store with distinct ids, no slot of a stored developer's
      resolved game list is empty, and each game there names that developer. */
  lemma DeveloperGamesRoundTrip(ctx: Context, j: int)
    requires Consistent(ctx.db) && UniqueIds(ctx.db)
    requires 0 <= j < |ctx.db.developers|
    ensures var d := ctx.db.developers[j];
            var r := DeveloperGames(ctx, d);
            forall n :: 0 <= n < |r| ==> r[n].Some? && GameDeveloper(ctx, r[n].value) == Some(d)
  {
    var d := ctx.db.developers[j];
    var r := DeveloperGames(ctx, d);
    QueryDeveloperFindsStored(ctx, j);
    forall n | 0 <= n < |r|
      ensures r[n].Some? && GameDeveloper(ctx, r[n].value) == Some(d)
    {
      var i :| 0 <= i < |ctx.db.games| && ctx.db.games[i].id == d.games[n]
               && ctx.db.games[i].developer == d.id;
      QueryGameFindsStored(ctx, i);
    }
  }
}
