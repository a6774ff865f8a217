# Badminton player repository — a verified model

This project models the business logic of a small badminton club web
application: the in-memory player repository `MockPlayerService` and the
match statistics that a `Player` derives from its match history.

- `wrappers.dfy` — module `Wrappers`: the `Option` returned by lookups.
- `player.dfy` — module `Players` (Models/Player.cs): `Player`,
  `MatchHistory`, `SkillLevel` and `MatchType` as datatypes, and the four
  computed statistics `TotalMatches`, `Wins`, `Losses`, `WinRate` as total
  functions of the history, with lemmas about them.
- `mock_player_service.dfy` — module `PlayerService`
  (Services/MockPlayerService.cs): the class `MockPlayerService` with a
  `players: seq<Player>` field, the `nextId` counter and the constant
  court catalogue; the seed data; the stable ordering by ranking; and the
  lookup by id. The class invariant `Valid()` says that `nextId` is above
  every stored id and that stored ids are pairwise distinct. The
  constructor establishes it and every mutator preserves it.

Modelling choices:
- Clock readings (`DateTime.Now`) are parameters. `AddPlayer` takes `now`.
  The constructor takes a `Clock`, which maps "n months ago" or "n days
  ago" to a `DateTime`, so the seed's calendar arithmetic stays outside
  the model. `DateTime` is a synonym for `int`; the model only stores and
  compares these values and does no date arithmetic.
- `WinRate` is computed over exact `real` numbers, not IEEE doubles.
- `OrderBy(p => p.Ranking)` is modelled as a stable insertion sort
  (`OrderByRanking`). Its stability is proved per ranking value: for every
  ranking `k`, the players holding `k` appear in the same relative order
  before and after sorting.
- Nullable strings (`PhoneNumber`, `ProfilePictureUrl`) are `Option<string>`.
- `UpdatePlayer` copies six fields from the edit and keeps the other four:
  `Id`, `RegistrationDate`, `Ranking` and `MatchHistory`
  (Services/MockPlayerService.cs:155-160). `ApplyEdit` states exactly that.
- Rankings are never renormalised. `RankingCollisionScenario` shows that
  after one deletion a new player can get the same ranking as a seeded one.

## Model

| member | source | states |
|---|---|---|
| `Players.DefaultPlayer` | Models/Player.cs:7-36 | a new Player has empty name, email, court list and history and no phone number or picture |
| `Players.CountWins` | Models/Player.cs:40 | the win count is at most the history length, equals it exactly when every entry is a win, and is 0 exactly when none is |
| `Players.CountLosses` | Models/Player.cs:41 | the independent count of lost entries: at most the history length, and 0 exactly when every entry is a win |
| `Players.TotalMatches` | Models/Player.cs:39 | the length of the history, which is the number of wins plus the number of losses |
| `Players.WinsPlusLossesIsLength` | Models/Player.cs:40-41 | every entry counts as a win or as a loss, so wins plus independently counted losses equal the history length |
| `Players.CountWinsAppend` | Models/Player.cs:40 | counting wins distributes over concatenation of histories |
| `Players.Wins` | Models/Player.cs:40 | Wins never exceeds TotalMatches |
| `Players.Losses` | Models/Player.cs:41 | TotalMatches minus Wins is non-negative, equals the number of lost entries, and adds up with Wins to TotalMatches |
| `Players.WinRate` | Models/Player.cs:42 | 0 for an empty history; always within 0..100; 100 exactly when the history is non-empty and all wins; 0 exactly when there is no win |
| `Players.RateBounds` | Models/Player.cs:42 | for 0 < t and w <= t, w/t*100 lies in 0..100, is 100 iff w == t and 0 iff w == 0 |
| `Players.EmptyHistoryStats` | Models/Player.cs:39-42 | with no matches, TotalMatches, Wins, Losses and WinRate are all 0 |
| `Players.DefaultPlayerStats` | Models/Player.cs:28-42 | a default Player has empty courts and history and all four statistics at 0 |
| `Players.ThreeOfFourIsSeventyFive` | Models/Player.cs:40-42 | win, win, win, loss gives 3 wins, 1 loss and a win rate of 75 |
| `Players.TwoOfFourIsFifty` | Models/Player.cs:40-42 | win, loss, win, loss gives 2 wins, 2 losses and a win rate of 50 |
| `Players.NoneOfThreeIsZero` | Models/Player.cs:40-42 | three losses give 0 wins, 3 losses and a win rate of 0 |
| `Players.AppendMatchMovesRate` | Models/Player.cs:39-42 | appending a match adds one to TotalMatches and one to Wins only if it is a win; a win never lowers the rate and a loss never raises it |
| `PlayerService.IndexOfId` | Services/MockPlayerService.cs:139 | returns the position of the first player with the id (all earlier ones have other ids), and None exactly when no player has it |
| `PlayerService.IndexOfIdAt` | Services/MockPlayerService.cs:139 | a player with the id preceded only by other ids is the one the lookup finds |
| `PlayerService.InsertByRanking` | Services/MockPlayerService.cs:134 | inserting into a list sorted by ranking keeps it sorted and adds exactly that one player to the multiset |
| `PlayerService.OrderByRanking` | Services/MockPlayerService.cs:134 | the result is non-decreasing in ranking and a permutation of the input (same multiset, same length) |
| `PlayerService.InsertKeepsRankClasses` | Services/MockPlayerService.cs:134 | inserting a player keeps, for each ranking, the order it would have when placed first |
| `PlayerService.OrderByRankingIsStable` | Services/MockPlayerService.cs:134 | for every ranking value, players holding it keep their relative storage order (OrderBy is stable) |
| `PlayerService.UniqueBestComesFirst` | Services/MockPlayerService.cs:134 | a player ranked strictly better than all others is the first element of the ordering |
| `PlayerService.MaxId` | Services/MockPlayerService.cs:34 | the largest id of a non-empty list: no stored id exceeds it and some stored player has it |
| `PlayerService.AppendAtBoundKeepsIds` | Services/MockPlayerService.cs:144-147 | appending a player whose id is the counter keeps ids unique and all below the incremented counter |
| `PlayerService.RemoveAtDropsId` | Services/MockPlayerService.cs:166-170 | removing the record at one position of a list with unique ids leaves unique ids, no record with its id, and every id bound intact |
| `PlayerService.ApplyEdit` | Services/MockPlayerService.cs:155-160 | the edited record takes exactly name, email, phone, skill level, preferred courts and picture from the edit, and keeps id, ranking, registration date and history |
| `PlayerService.ApplyEditKeepsStats` | Services/MockPlayerService.cs:155-160 | an edit leaves TotalMatches, Wins, Losses and WinRate of the record unchanged |
| `PlayerService.SeedJohnChen` | Services/MockPlayerService.cs:41-59 | John Chen: id 1, Advanced, ranking 1, four matches of which three are won |
| `PlayerService.SeedSarahLee` | Services/MockPlayerService.cs:60-77 | Sarah Lee: id 2, Advanced, ranking 2, three matches of which two are won |
| `PlayerService.SeedMikeWong` | Services/MockPlayerService.cs:78-94 | Mike Wong: id 3, Intermediate, ranking 5, two matches of which one is won |
| `PlayerService.SeedEmmaDavis` | Services/MockPlayerService.cs:95-112 | Emma Davis: id 4, Expert, ranking 3, three matches of which two are won |
| `PlayerService.SeedDavidKim` | Services/MockPlayerService.cs:113-128 | David Kim: id 5, Beginner, ranking 12, one lost match |
| `PlayerService.SeedPlayers` | Services/MockPlayerService.cs:37-130 | the five seeded players in declaration order |
| `PlayerService.SeedCourtsInCatalogue` | Services/MockPlayerService.cs:39-129 | every court a seeded player prefers or has played on is in the six-court catalogue |
| `PlayerService.SeedStatistics` | Services/MockPlayerService.cs:39-129 | the seeded histories give John Chen 3 wins, 1 loss and 75; Sarah Lee and Emma Davis 2 wins, 1 loss and 200/3; Mike Wong 1 and 1 and 50; David Kim 0 wins, 1 loss and 0 |
| `PlayerService.SeedIds` | Services/MockPlayerService.cs:39-129 | the seed holds five players with ids 1..5 in order, ids are unique and the largest is 5 |
| `PlayerService.SeedLeader` | Services/MockPlayerService.cs:41-59 | John Chen, ranking 1, is the first player of the seed ordered by ranking |
| `PlayerService.MockPlayerService.Valid` | Services/MockPlayerService.cs:34 | the id invariant: the counter is above every stored id and stored ids are pairwise distinct, so a lookup of the counter's value finds nothing |
| `PlayerService.MockPlayerService.constructor` | Services/MockPlayerService.cs:30-35 | the store starts as the seed with the counter at 6 (largest seeded id plus one) and the id invariant holds |
| `PlayerService.MockPlayerService.GetAllPlayers` | Services/MockPlayerService.cs:132-135 | all stored players as a permutation of the store, non-decreasing in ranking |
| `PlayerService.MockPlayerService.GetPlayerById` | Services/MockPlayerService.cs:137-140 | the first stored player with the id, or None exactly when no stored player has it |
| `PlayerService.MockPlayerService.GetAvailableCourts` | Services/MockPlayerService.cs:173-176 | the six court names of the catalogue, in declaration order |
| `PlayerService.MockPlayerService.AddPlayer` | Services/MockPlayerService.cs:142-148 | the stored record is the draft with id = old counter, ranking = old count + 1 and the given date, appended at the end; the counter grows by one; earlier records are unchanged; the invariant holds and the new id is found |
| `PlayerService.MockPlayerService.UpdatePlayer` | Services/MockPlayerService.cs:150-162 | replaces only the record with the edit's id by its edited form, leaving all other records and the counter alone; with an absent id the store is unchanged; a later lookup returns the edited record |
| `PlayerService.MockPlayerService.DeletePlayer` | Services/MockPlayerService.cs:164-171 | removes only the record with the id, the others keeping their order, so the count drops by one; an absent id leaves the store unchanged; afterwards the id is not found |
| `PlayerService.DeleteSeededPlayerScenario` | Services/MockPlayerService.cs:164-171 | on the seeded store, John Chen leads the ranking; deleting Mike Wong (id 3) leaves four players and no player with id 3 |
| `PlayerService.RankingCollisionScenario` | Services/MockPlayerService.cs:142-148 | after deleting id 1 from the seed, a new player gets ranking 5, the same as the seeded Mike Wong |

## Left out

- PlayerService.MockPlayerService.AddPlayer: does not model 32-bit wrap-around of `_nextId++` or of `Count + 1`; ids and counts are unbounded integers, because more than two billion registrations are outside the application's use.
- Shared static state: the C# store is a pair of static fields seeded once per process by the static constructor, so every instance sees the same list. The model has one repository object that seeds itself when constructed.
- Object aliasing: `AddPlayer` mutates and stores the caller's own `Player` object, `GetPlayerById` hands out references to stored objects, `UpdatePlayer` shares the caller's `PreferredCourts` list, and `GetAvailableCourts` returns the live static `_availableCourts` list, so a caller could change the catalogue. The model uses values: `AddPlayer` returns the stored record, and the catalogue is a `const` that nothing can change.
- Null arguments: passing a null `Player` to `AddPlayer` or `UpdatePlayer` throws in C#; Dafny datatype values cannot be null.
- `DateTime.Now` and the calendar arithmetic of `AddMonths`/`AddDays`: clock readings are parameters.
- Floating point: `WinRate` is exact real arithmetic, so rounding of `double` division (e.g. 1/3*100) is not modelled.
- Data-annotation validation (`[Required]`, `[EmailAddress]`, `[Phone]`) and display names: enforced by the web framework, not by this code.
- Controllers/PlayerController.cs: request dispatch and views. Besides null checks it rejects an edit whose route id differs from the record's id (lines 74-77), branches on `ModelState.IsValid` (lines 46-48 and 79-81) and overwrites `PreferredCourts` with the selected courts before calling the repository. These are request handling, outside the repository.
- wwwroot/js/site.js: theme toggling in the browser.
