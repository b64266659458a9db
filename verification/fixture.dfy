/** The store the server starts with, and what the resolvers give over it. */
module Fixture {
  import opened Wrappers
  import opened Store
  import opened Resolvers

  const SuperMario := Game("1", "Super Mario Bros", "2", Good)
  const Tekken := Game("2", "Tekken", "1", Good)
  const PacMan := Game("3", "Pac-Man", "1", Bad)
  const PokeMon := Game("4", "PokeMon", "2", Normal)
  const Namco := Developer("1", "Namco", ["2", "3"])
  const Nintendo := Developer("2", "Nintendo", ["1", "4"])

  /** The process-wide context every request receives. */
  function FixtureContext(): (ctx: Context)
    ensures ctx.db.games == [SuperMario, Tekken, PacMan, PokeMon]
    ensures ctx.db.developers == [Namco, Nintendo]
  {
    Context(DataBase([SuperMario, Tekken, PacMan, PokeMon], [Namco, Nintendo]))
  }

  /** The fixture's ids are distinct within each collection. */
  lemma FixtureUniqueIds()
    ensures UniqueIds(FixtureContext().db)
  {
  }

  /** The fixture's two relationship directions agree. */
  lemma FixtureConsistent()
    ensures Consistent(FixtureContext().db)
  {
    var db := FixtureContext().db;
    assert db.developers[1].games[0] == "1" && db.games[0].developer == "2";
    assert db.developers[0].games[0] == "2" && db.games[1].developer == "1";
    assert db.developers[0].games[1] == "3" && db.games[2].developer == "1";
    assert db.developers[1].games[1] == "4" && db.games[3].developer == "2";
  }

  /** `developer("2").games` resolves to Super Mario Bros then PokeMon. */
  lemma NintendoGamesInOrder()
    ensures QueryDeveloper(FixtureContext(), "2") == Some(Nintendo)
    ensures DeveloperGames(FixtureContext(), Nintendo) == [Some(SuperMario), Some(PokeMon)]
    ensures SuperMario.title == "Super Mario Bros" && PokeMon.title == "PokeMon"
  {
    var ctx := FixtureContext();
    FixtureUniqueIds();
    QueryDeveloperFindsStored(ctx, 1);
    QueryGameFindsStored(ctx, 0);
    QueryGameFindsStored(ctx, 3);
    var r := DeveloperGames(ctx, Nintendo);
    assert r[0] == QueryGame(ctx, ctx.db.games[0].id);
    assert r[1] == QueryGame(ctx, ctx.db.games[3].id);
  }

  /** `developer("1").games` resolves to Tekken then Pac-Man. */
  lemma NamcoGamesInOrder()
    ensures QueryDeveloper(FixtureContext(), "1") == Some(Namco)
    ensures DeveloperGames(FixtureContext(), Namco) == [Some(Tekken), Some(PacMan)]
  {
    var ctx := FixtureContext();
    FixtureUniqueIds();
    QueryDeveloperFindsStored(ctx, 0);
    QueryGameFindsStored(ctx, 1);
    QueryGameFindsStored(ctx, 2);
    var r := DeveloperGames(ctx, Namco);
    assert r[0] == QueryGame(ctx, ctx.db.games[1].id);
    assert r[1] == QueryGame(ctx, ctx.db.games[2].id);
  }

  /** `game("1") { title score developer { name } }` gives Super Mario Bros,
      good, Nintendo. */
  lemma GameOneScenario()
    ensures QueryGame(FixtureContext(), "1") == Some(SuperMario)
    ensures GameTitle(SuperMario) == "Super Mario Bros"
    ensures ScoreName(GameScore(SuperMario)) == "good"
    ensures GameDeveloper(FixtureContext(), SuperMario) == Some(Nintendo)
    ensures DeveloperName(Nintendo) == "Nintendo"
  {
    var ctx := FixtureContext();
    FixtureUniqueIds();
    QueryGameFindsStored(ctx, 0);
    QueryDeveloperFindsStored(ctx, 1);
  }

  /** `game("99")` is simply absent: no game has that id. */
  lemma UnknownGameIsAbsent()
    ensures QueryGame(FixtureContext(), "99") == None
  {
    var ctx := FixtureContext();
    assert forall i :: 0 <= i < |ctx.db.games| ==> ctx.db.games[i].id != "99";
  }
}
