# Game/developer resolver layer — Dafny model

This project models the resolution layer of a small GraphQL server over two
related entities. `Game` records carry a `developer` foreign key and a `Score`.
`Developer` records carry an ordered `games` list of foreign keys. Both live in
a read-only in-memory store that every resolver reaches through its context.
The resolvers are:

- `Query.game(id)` and `Query.developer(id)`: first-match lookups by id;
- the projections `Game.id`, `Game.title`, `Game.score`, `Developer.id`, `Developer.name`;
- `Game.developer`: dereferences one foreign key;
- `Developer.games`: maps every foreign key of the developer's list to its game,
  or to nothing when the key dangles.

Modules:

- `Wrappers` (`wrappers.dfy`): `Option`, where `None` is the `undefined` that `find` returns.
- `Lookup` (`lookup.dfy`): the scan `Array.prototype.find(x => x.id === id)` performs.
  It is written once, generic over the record type and its key. It comes with an
  independent reference definition (`IsFindResult`) and lemmas about ordering and duplicates.
- `Store` (`store.dfy`): `Score`, `Game`, `Developer`, `DataBase`, `Context`.
  It also holds the score literals and the two store predicates `UniqueIds` and `Consistent`.
- `Resolvers` (`resolvers.dfy`): the resolver table, plus lemmas that relate its entries.
- `Fixture` (`fixture.dfy`): the store the server starts with, and scenario lemmas over it.

Every resolver is a pure function of an immutable `Context`. A resolver call
therefore cannot change the store, and repeating a query gives the same answer.

## Model

| member | source | states |
|---|---|---|
| Lookup.FirstIndex | src/index.ts:108 | the scan stops at the first position whose id equals the argument; it finds nothing exactly when no element has that id |
| Lookup.Find | src/index.ts:108 | `find` yields something exactly when some element has the id; what it yields has that id and is the element at the first such position |
| Lookup.FindCharacterized | src/index.ts:108 | `Find` satisfies the reference definition of `find` (nothing when no key matches, else the element at the first match), and no other result does |
| Lookup.FindAppend | src/index.ts:107-113 | on a concatenation, a match in the front part wins over every later record with the same id; the back part is searched only when the front has no match |
| Lookup.FindDistinctKeys | src/index.ts:108 | when ids are distinct, looking up the id of the element at position k yields that element |
| Store.ScoreName | src/index.ts:45 | each score is stored as one of the literals `good`, `normal`, `bad`, and that literal reads back as the score |
| Store.ParseScore | src/index.ts:45 | a string reads as a score exactly when it is one of `good`, `normal`, `bad` |
| Store.ParseScoreRoundTrip | src/index.ts:45 | a string that reads as a score is that score's literal |
| Resolvers.QueryGame | src/index.ts:107-109 | `Query.game(id)` is `Some` exactly when some stored game has the id; the game returned has the id and is the first such game in store order; otherwise `None`, with no failure |
| Resolvers.QueryDeveloper | src/index.ts:110-114 | the same contract over the developers |
| Resolvers.GameDeveloper | src/index.ts:119-123 | `Game.developer(g)` equals `Query.developer(g.developer)`; a developer returned has id `g.developer`; `None` exactly when no stored developer has that id |
| Resolvers.GamesByIds | src/index.ts:132-134 | mapping the lookup over an id list gives one slot per id, and slot i is the game lookup of id i |
| Resolvers.DeveloperGames | src/index.ts:131-135 | `Developer.games(d)` has the length of `d.games`; slot i is the game lookup of `d.games[i]`; a filled slot holds a game with that id; a slot is empty exactly when no stored game has that id |
| Resolvers.ProjectionsReturnStoredFields | src/index.ts:117-130 | the projection resolvers `GameId`, `GameTitle`, `GameScore`, `DeveloperId` and `DeveloperName` return the stored field unchanged; a score is always one of the three literals and reads back as itself |
| Resolvers.QueryGameFirstWins | src/index.ts:108 | when ids repeat, the earlier game wins: appending games never changes a lookup that already succeeds |
| Resolvers.QueryDeveloperFirstWins | src/index.ts:111-113 | the same first-match tie-break for developers |
| Resolvers.QueryGameFindsStored | src/index.ts:107-109 | in a store with distinct ids, looking up a stored game's id returns that game |
| Resolvers.QueryDeveloperFindsStored | src/index.ts:110-114 | in a store with distinct ids, looking up a stored developer's id returns that developer |
| Resolvers.DeveloperGamesSlotIsolated | src/index.ts:131-135 | replacing one id in a developer's list, even with a dangling id, changes only that slot of the resolved list |
| Resolvers.GamesByIdsAppend | src/index.ts:132-134 | resolving a concatenated id list gives the concatenation of resolving each part |
| Resolvers.GameDeveloperRoundTrip | src/index.ts:119-135 | in a consistent store with distinct ids, a stored game's developer exists, and that developer's resolved game list contains the game |
| Resolvers.DeveloperGamesRoundTrip | src/index.ts:119-135 | in a consistent store with distinct ids, no slot of a stored developer's resolved games is empty, and each game there resolves back to that developer |
| Fixture.FixtureContext | src/index.ts:54-95 | the fixture store holds the games Super Mario Bros, Tekken, Pac-Man, PokeMon and the developers Namco, Nintendo, in that order and with the source's fields |
| Fixture.FixtureUniqueIds | src/index.ts:56-93 | the fixture's game ids are distinct, and so are its developer ids |
| Fixture.FixtureConsistent | src/index.ts:56-93 | every fixture game's developer exists and lists the game, and every id a fixture developer lists names a game that points back at it |
| Fixture.NintendoGamesInOrder | src/index.ts:56-93 | `developer("2")` is Nintendo, and its `games` resolve to Super Mario Bros then PokeMon |
| Fixture.NamcoGamesInOrder | src/index.ts:56-93 | `developer("1")` is Namco, and its `games` resolve to Tekken then Pac-Man |
| Fixture.GameOneScenario | src/index.ts:56-130 | `game("1")` is Super Mario Bros, with score literal `good` and developer name Nintendo |
| Fixture.UnknownGameIsAbsent | src/index.ts:56-109 | `game("99")` is `None` |

## Left out

- The schema text (src/index.ts:3-27), GraphQL parsing, validation and execution belong to the external query engine. The engine's non-null propagation for `Game.developer: Developer!` is one of these. The model only states that the resolver returns `None` for a dangling key.
- `ApolloServer` construction, `server.listen()` and the console message (src/index.ts:139-147) are network and I/O plumbing.
- The resolvers' unused parent and argument parameters (`_: any`) are dropped. Each resolver takes only the context and the values it reads.
- The claim that resolvers never modify the store has no separate contract. In this model the store is an immutable value and every resolver is a pure function of it, so the claim holds by construction.
- Asynchronous resolution is left out; the source does not use it.
- `Consistent` and `UniqueIds` are properties of the data, not checks the resolvers make. No resolver requires either. `UniqueIds` is assumed only by `QueryGameFindsStored`, `QueryDeveloperFindsStored` and the two round-trip lemmas. `Consistent` is assumed only by the two round-trip lemmas. The model proves both for the fixture.
- Ids and other strings are Dafny strings, which are sequences of Unicode scalar values. The source's strings are sequences of UTF-16 code units. The resolvers only compare ids for equality, and both notions of equality agree on every string both can represent. An id that contains a lone surrogate cannot be represented in the model.
