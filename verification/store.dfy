/** The records of the in-memory store and the store itself. */
module Store {
  import opened Wrappers

  /** A game's rating. The store holds it as one of three string literals;
      the closed set is a datatype here and `ScoreName` gives each literal. */
  datatype Score = Good | Normal | Bad

  /** The literal under which a score is stored and serialised. */
  function ScoreName(s: Score): (r: string)
    ensures r in {"good", "normal", "bad"}
    ensures ParseScore(r) == Some(s)
  {
    match s
    case Good => "good"
    case Normal => "normal"
    case Bad => "bad"
  }

  /** Reads a literal back; anything outside the three literals is no score. */
  function ParseScore(name: string): (r: Option<Score>)
    ensures r.Some? <==> name in {"good", "normal", "bad"}
  {
    if name == "good" then Some(Good)
    else if name == "normal" then Some(Normal)
    else if name == "bad" then Some(Bad)
    else None
  }

  /** Whatever reads as a score is that score's literal. */
  lemma ParseScoreRoundTrip(name: string)
    ensures ParseScore(name).Some? ==> ScoreName(ParseScore(name).value) == name
  {
  }

  /** A game; `developer` is the id of the developer that made it. */
  datatype Game = Game(id: string, title: string, developer: string, score: Score)

  /** A developer; `games` lists the ids of its games, in listing order. */
  datatype Developer = Developer(id: string, name: string, games: seq<string>)

  /** The two collections, in insertion order. */
  datatype DataBase = DataBase(games: seq<Game>, developers: seq<Developer>)

  /** What every resolver receives: a handle on the one store. */
  datatype Context = Context(db: DataBase)

  /** Ids within each collection are pairwise distinct. */
  ghost predicate UniqueIds(db: DataBase) {
    && (forall i, j :: 0 <= i < j < |db.games| ==> db.games[i].id != db.games[j].id)
    && (forall i, j :: 0 <= i < j < |db.developers| ==> db.developers[i].id != db.developers[j].id)
  }

  /** The two directions of the game/developer relationship agree: each game's
      developer exists and lists the game, and each id a developer lists names a
      game that points back at that developer. The store does not enforce this. */
  ghost predicate Consistent(db: DataBase) {
    && (forall i :: 0 <= i < |db.games| ==>
          exists j :: 0 <= j < |db.developers| && db.developers[j].id == db.games[i].developer
                      && db.games[i].id in db.developers[j].games)
    && (forall j, n :: 0 <= j < |db.developers| && 0 <= n < |db.developers[j].games| ==>
          exists i :: 0 <= i < |db.games| && db.games[i].id == db.developers[j].games[n]
                      && db.games[i].developer == db.developers[j].id)
  }
}
