/**
 * The in-memory player repository (Services/MockPlayerService.cs): a list
 * of players, an id counter that is always above every stored id, and a
 * fixed court catalogue.
 */
module PlayerService {
  import opened Wrappers
  import opened Players

  // ---------------------------------------------------------------------
  // Specification predicates over the stored list

  /** Every stored id is strictly below `bound`. */
  predicate IdsBelow(ps: seq<Player>, bound: int)
  {
    forall i :: 0 <= i < |ps| ==> ps[i].id < bound
  }

  /** No two stored players share an id. */
  predicate UniqueIds(ps: seq<Player>)
  {
    forall i, j :: 0 <= i < j < |ps| ==> ps[i].id != ps[j].id
  }

  /** Rankings never decrease along the list. */
  predicate SortedByRanking(ps: seq<Player>)
  {
    forall i, j :: 0 <= i < j < |ps| ==> ps[i].ranking <= ps[j].ranking
  }

  /** The players with ranking `k`, in the order they appear. */
  function WithRanking(ps: seq<Player>, k: int): seq<Player>
  {
    if ps == [] then []
    else (if ps[0].ranking == k then [ps[0]] else []) + WithRanking(ps[1..], k)
  }

  // ---------------------------------------------------------------------
  // FirstOrDefault(p => p.Id == id)

  /** Position of the first player with `id`, or None when there is none. */
  function IndexOfId(ps: seq<Player>, id: int): (k: Option<nat>)
    ensures k.Some? ==> k.value < |ps| && ps[k.value].id == id
    ensures k.Some? ==> forall j :: 0 <= j < k.value ==> ps[j].id != id
    ensures k.None? <==> forall j :: 0 <= j < |ps| ==> ps[j].id != id
  {
    if ps == [] then None
    else if ps[0].id == id then Some(0)
    else match IndexOfId(ps[1..], id)
      case None => None
      case Some(j) => Some(j + 1)
  }

  /** A player with `id` preceded only by players with other ids is the one found. */
  lemma IndexOfIdAt(ps: seq<Player>, id: int, k: nat)
    requires k < |ps| && ps[k].id == id
    requires forall j :: 0 <= j < k ==> ps[j].id != id
    ensures IndexOfId(ps, id) == Some(k)
  {
  }

  // ---------------------------------------------------------------------
  // OrderBy(p => p.Ranking): a stable sort

  /** Puts `p` before the first element whose ranking is not smaller than its own. */
  function InsertByRanking(p: Player, s: seq<Player>): (r: seq<Player>)
    requires SortedByRanking(s)
    ensures SortedByRanking(r)
    ensures multiset(r) == multiset(s) + multiset{p}
    ensures |r| == |s| + 1
    ensures r[0] == p || (s != [] && r[0] == s[0])
  {
    if s == [] || p.ranking <= s[0].ranking then [p] + s
    else
      assert s == [s[0]] + s[1..];
      [s[0]] + InsertByRanking(p, s[1..])
  }

  /** The players ordered by ascending ranking; equal rankings keep their input order. */
  function OrderByRanking(ps: seq<Player>): (r: seq<Player>)
    ensures SortedByRanking(r)
    ensures multiset(r) == multiset(ps)
    ensures |r| == |ps|
  {
    if ps == [] then []
    else
      assert ps == [ps[0]] + ps[1..];
      InsertByRanking(ps[0], OrderByRanking(ps[1..]))
  }

  lemma {:induction false} InsertKeepsRankClasses(p: Player, s: seq<Player>, k: int)
    requires SortedByRanking(s)
    ensures WithRanking(InsertByRanking(p, s), k) == WithRanking([p] + s, k)
  {
    if s == [] || p.ranking <= s[0].ranking {
    } else {
      var rest := InsertByRanking(p, s[1..]);
      assert ([s[0]] + rest)[1..] == rest;
      assert ([p] + s)[1..] == s;
      assert ([p] + s[1..])[1..] == s[1..];
      InsertKeepsRankClasses(p, s[1..], k);
      if p.ranking != k {
        assert WithRanking([p] + s, k) == WithRanking(s, k);
      } else {
        // s[0] ranks strictly below p, so it is not in p's class
        assert WithRanking(s, k) == WithRanking(s[1..], k);
      }
    }
  }

  /** OrderBy is stable: for each ranking, the players holding it keep their relative order. */
  lemma {:induction false} OrderByRankingIsStable(ps: seq<Player>, k: int)
    ensures WithRanking(OrderByRanking(ps), k) == WithRanking(ps, k)
  {
    if ps != [] {
      OrderByRankingIsStable(ps[1..], k);
      InsertKeepsRankClasses(ps[0], OrderByRanking(ps[1..]), k);
      assert ([ps[0]] + OrderByRanking(ps[1..]))[1..] == OrderByRanking(ps[1..]);
    }
  }

  /** A player ranked strictly better than every other one comes first in the ordered list. */
  lemma UniqueBestComesFirst(ps: seq<Player>, best: Player)
    requires best in ps
    requires forall q :: q in ps && q != best ==> best.ranking < q.ranking
    ensures OrderByRanking(ps) != [] && OrderByRanking(ps)[0] == best
  {
    var r := OrderByRanking(ps);
    assert best in multiset(r);
    var i :| 0 <= i < |r| && r[i] == best;
    assert r[0] in multiset(ps);
  }

  // ---------------------------------------------------------------------
  // Max(p => p.Id) and the lemmas behind the id invariant

  /** The largest id in a non-empty list (Max throws on an empty one). */
  function MaxId(ps: seq<Player>): (m: int)
    requires |ps| > 0
    ensures forall i :: 0 <= i < |ps| ==> ps[i].id <= m
    ensures exists i :: 0 <= i < |ps| && ps[i].id == m
  {
    if |ps| == 1 then ps[0].id
    else
      var m := MaxId(ps[1..]);
      assert forall i :: 1 <= i < |ps| ==> ps[i] == ps[1..][i - 1];
      if ps[0].id >= m then ps[0].id else m
  }

  /** Appending a player whose id is the bound keeps ids unique and below the incremented bound. */
  lemma AppendAtBoundKeepsIds(ps: seq<Player>, bound: int, p: Player)
    requires IdsBelow(ps, bound) && UniqueIds(ps)
    requires p.id == bound
    ensures IdsBelow(ps + [p], bound + 1) && UniqueIds(ps + [p])
  {
  }

  /** Removing the record at position k of a list with unique ids leaves no record with its id. */
  lemma RemoveAtDropsId(ps: seq<Player>, k: nat)
    requires UniqueIds(ps) && k < |ps|
    ensures var rest := ps[..k] + ps[k + 1..];
      UniqueIds(rest) && IndexOfId(rest, ps[k].id).None? &&
      forall b :: IdsBelow(ps, b) ==> IdsBelow(rest, b)
  {
  }

  /** The fields an update copies from the edited record; identity, ranking, registration and history stay. */
  function ApplyEdit(existing: Player, edit: Player): (r: Player)
    ensures r.id == existing.id && r.ranking == existing.ranking
    ensures r.registrationDate == existing.registrationDate && r.matchHistory == existing.matchHistory
    ensures r.fullName == edit.fullName && r.email == edit.email && r.phoneNumber == edit.phoneNumber
    ensures r.skillLevel == edit.skillLevel && r.preferredCourts == edit.preferredCourts
    ensures r.profilePictureUrl == edit.profilePictureUrl
  {
    existing.(fullName := edit.fullName, email := edit.email, phoneNumber := edit.phoneNumber,
              skillLevel := edit.skillLevel, preferredCourts := edit.preferredCourts,
              profilePictureUrl := edit.profilePictureUrl)
  }

  /** An edit leaves the match statistics of the record as they were. */
  lemma ApplyEditKeepsStats(existing: Player, edit: Player)
    ensures TotalMatches(ApplyEdit(existing, edit)) == TotalMatches(existing)
    ensures Wins(ApplyEdit(existing, edit)) == Wins(existing)
    ensures Losses(ApplyEdit(existing, edit)) == Losses(existing)
    ensures WinRate(ApplyEdit(existing, edit)) == WinRate(existing)
  {
  }

  // ---------------------------------------------------------------------
  // Seed data

  /** How far back from the seeding moment a seeded date lies. */
  datatype Offset = MonthsAgo(months: nat) | DaysAgo(days: nat)

  /** The calendar arithmetic on the process clock (DateTime.Now.AddMonths / AddDays). */
  type Clock = Offset -> DateTime

  const CourtCatalogue: seq<string> := [
    "Central Sports Complex",
    "Riverside Badminton Club",
    "Elite Sports Arena",
    "Westside Community Center",
    "North Point Sports Hub",
    "Metro Badminton Academy"
  ]

  const Picture: Option<string> := Some("https://via.placeholder.com/150")

  function SeedJohnChen(at: Clock): Player
  {
    Player(1, "John Chen", "john.chen@email.com", Some("555-0101"), Advanced, 1,
      ["Central Sports Complex", "Elite Sports Arena"], at(MonthsAgo(6)), Picture,
      [ MatchHistory(1, at(DaysAgo(5)), "Sarah Lee", 21, 18, true, "Central Sports Complex", Singles),
        MatchHistory(2, at(DaysAgo(10)), "Mike Wong", 21, 19, true, "Elite Sports Arena", Singles),
        MatchHistory(3, at(DaysAgo(15)), "Emma Davis", 19, 21, false, "Central Sports Complex", Singles),
        MatchHistory(4, at(DaysAgo(20)), "David Kim", 21, 15, true, "Riverside Badminton Club", Singles) ])
  }

  function SeedSarahLee(at: Clock): Player
  {
    Player(2, "Sarah Lee", "sarah.lee@email.com", Some("555-0102"), Advanced, 2,
      ["Riverside Badminton Club", "Metro Badminton Academy"], at(MonthsAgo(8)), Picture,
      [ MatchHistory(5, at(DaysAgo(3)), "Tom Brown", 21, 16, true, "Riverside Badminton Club", Singles),
        MatchHistory(6, at(DaysAgo(7)), "John Chen", 18, 21, false, "Central Sports Complex", Singles),
        MatchHistory(7, at(DaysAgo(12)), "Lisa Wang", 21, 19, true, "Metro Badminton Academy", Singles) ])
  }

  function SeedMikeWong(at: Clock): Player
  {
    Player(3, "Mike Wong", "mike.wong@email.com", Some("555-0103"), Intermediate, 5,
      ["Elite Sports Arena", "Westside Community Center"], at(MonthsAgo(3)), Picture,
      [ MatchHistory(8, at(DaysAgo(4)), "Anna Patel", 21, 18, true, "Elite Sports Arena", Singles),
        MatchHistory(9, at(DaysAgo(11)), "John Chen", 19, 21, false, "Elite Sports Arena", Singles) ])
  }

  function SeedEmmaDavis(at: Clock): Player
  {
    Player(4, "Emma Davis", "emma.davis@email.com", Some("555-0104"), Expert, 3,
      ["Central Sports Complex", "North Point Sports Hub"], at(MonthsAgo(12)), Picture,
      [ MatchHistory(10, at(DaysAgo(2)), "Chris Taylor", 21, 14, true, "Central Sports Complex", Singles),
        MatchHistory(11, at(DaysAgo(6)), "John Chen", 21, 19, true, "Central Sports Complex", Singles),
        MatchHistory(12, at(DaysAgo(9)), "Sarah Lee", 20, 22, false, "North Point Sports Hub", Doubles) ])
  }

  function SeedDavidKim(at: Clock): Player
  {
    Player(5, "David Kim", "david.kim@email.com", Some("555-0105"), Beginner, 12,
      ["Westside Community Center"], at(MonthsAgo(1)), Picture,
      [ MatchHistory(13, at(DaysAgo(8)), "John Chen", 15, 21, false, "Riverside Badminton Club", Singles) ])
  }

  /** The five example players the repository starts with. */
  function SeedPlayers(at: Clock): seq<Player>
  {
    [SeedJohnChen(at), SeedSarahLee(at), SeedMikeWong(at), SeedEmmaDavis(at), SeedDavidKim(at)]
  }

  /** The seed holds ids 1..5 in order and its largest id is 5. */
  lemma SeedIds(at: Clock)
    ensures |SeedPlayers(at)| == 5
    ensures forall i :: 0 <= i < 5 ==> SeedPlayers(at)[i].id == i + 1
    ensures UniqueIds(SeedPlayers(at)) && MaxId(SeedPlayers(at)) == 5
  {
    var s := SeedPlayers(at);
    assert s[0].id == 1 && s[1].id == 2 && s[2].id == 3 && s[3].id == 4 && s[4].id == 5;
  }

  /** Every court a seeded player prefers or has played on is one of the catalogue's. */
  lemma SeedCourtsInCatalogue(at: Clock)
    ensures forall i, c :: 0 <= i < |SeedPlayers(at)| && c in SeedPlayers(at)[i].preferredCourts ==> c in CourtCatalogue
    ensures forall i, j :: 0 <= i < |SeedPlayers(at)| && 0 <= j < |SeedPlayers(at)[i].matchHistory| ==>
      SeedPlayers(at)[i].matchHistory[j].court in CourtCatalogue
  {
  }

  lemma JohnChenStats(at: Clock)
    ensures Wins(SeedJohnChen(at)) == 3 && Losses(SeedJohnChen(at)) == 1 && WinRate(SeedJohnChen(at)) == 75.0
  {
    var h := SeedJohnChen(at).matchHistory;
    assert h[1..][1..] == h[2..] && h[2..][1..] == h[3..] && h[3..][1..] == [];
    assert CountWins(h[3..]) == 1 && CountWins(h[2..]) == 1 && CountWins(h[1..]) == 2;
  }

  lemma SarahLeeStats(at: Clock)
    ensures Wins(SeedSarahLee(at)) == 2 && Losses(SeedSarahLee(at)) == 1 && WinRate(SeedSarahLee(at)) == 200.0 / 3.0
  {
    var h := SeedSarahLee(at).matchHistory;
    assert h[1..][1..] == h[2..] && h[2..][1..] == [];
    assert CountWins(h[2..]) == 1 && CountWins(h[1..]) == 1;
  }

  lemma EmmaDavisStats(at: Clock)
    ensures Wins(SeedEmmaDavis(at)) == 2 && Losses(SeedEmmaDavis(at)) == 1 && WinRate(SeedEmmaDavis(at)) == 200.0 / 3.0
  {
    var h := SeedEmmaDavis(at).matchHistory;
    assert h[1..][1..] == h[2..] && h[2..][1..] == [];
    assert CountWins(h[2..]) == 0 && CountWins(h[1..]) == 1;
  }

  /** The seeded match histories give these win and loss counts and win rates. */
  lemma SeedStatistics(at: Clock)
    ensures Wins(SeedJohnChen(at)) == 3 && Losses(SeedJohnChen(at)) == 1 && WinRate(SeedJohnChen(at)) == 75.0
    ensures Wins(SeedSarahLee(at)) == 2 && Losses(SeedSarahLee(at)) == 1 && WinRate(SeedSarahLee(at)) == 200.0 / 3.0
    ensures Wins(SeedMikeWong(at)) == 1 && Losses(SeedMikeWong(at)) == 1 && WinRate(SeedMikeWong(at)) == 50.0
    ensures Wins(SeedEmmaDavis(at)) == 2 && Losses(SeedEmmaDavis(at)) == 1 && WinRate(SeedEmmaDavis(at)) == 200.0 / 3.0
    ensures Wins(SeedDavidKim(at)) == 0 && Losses(SeedDavidKim(at)) == 1 && WinRate(SeedDavidKim(at)) == 0.0
  {
    JohnChenStats(at);
    SarahLeeStats(at);
    EmmaDavisStats(at);
  }

  /** John Chen, the only seeded player with ranking 1, leads the ordering by ranking. */
  lemma SeedLeader(at: Clock)
    ensures OrderByRanking(SeedPlayers(at)) != []
    ensures OrderByRanking(SeedPlayers(at))[0] == SeedJohnChen(at)
    ensures SeedJohnChen(at).fullName == "John Chen" && SeedJohnChen(at).ranking == 1
  {
    var s := SeedPlayers(at);
    var john := SeedJohnChen(at);
    assert s[0] == john;
    assert forall i :: 0 <= i < 5 ==> s[i] == john || john.ranking < s[i].ranking;
    UniqueBestComesFirst(s, john);
  }

  // ---------------------------------------------------------------------
  // The repository

  class MockPlayerService {
    var players: seq<Player>
    var nextId: int
    const availableCourts: seq<string> := CourtCatalogue

    /** The id counter is above every stored id, so stored ids are pairwise distinct. */
    ghost predicate Valid()
      reads this
      ensures Valid() ==> IndexOfId(players, nextId).None?
    {
      IdsBelow(players, nextId) && UniqueIds(players)
    }

    /** Seeds the five example players and sets the counter one past the largest seeded id. */
    constructor (at: Clock)
      ensures Valid()
      ensures players == SeedPlayers(at)
      ensures nextId == 6
    {
      var seed := SeedPlayers(at);
      SeedIds(at);
      players := seed;
      nextId := MaxId(seed) + 1;
    }

    /** All players, ordered by ascending ranking, ties in storage order. */
    function GetAllPlayers(): (r: seq<Player>)
      reads this
      ensures SortedByRanking(r)
      ensures multiset(r) == multiset(players) && |r| == |players|
    {
      OrderByRanking(players)
    }

    /** The first stored player with `id`, or None. */
    function GetPlayerById(id: int): (r: Option<Player>)
      reads this
      ensures r.Some? ==> r.value.id == id && r.value in players
      ensures r.Some? ==> exists k :: 0 <= k < |players| && players[k] == r.value &&
                                      forall j :: 0 <= j < k ==> players[j].id != id
      ensures r.None? <==> forall j :: 0 <= j < |players| ==> players[j].id != id
    {
      match IndexOfId(players, id)
      case None => None
      case Some(k) => Some(players[k])
    }

    /** The fixed catalogue of six courts, in declaration order. */
    function GetAvailableCourts(): (r: seq<string>)
      ensures |r| == 6
      ensures r[0] == "Central Sports Complex" && r[1] == "Riverside Badminton Club"
      ensures r[2] == "Elite Sports Arena" && r[3] == "Westside Community Center"
      ensures r[4] == "North Point Sports Hub" && r[5] == "Metro Badminton Academy"
    {
      availableCourts
    }

    /**
     * Stores `draft` with the next id, ranking count + 1 and registration
     * date `now`, appended at the end; returns the stored record.
     */
    method AddPlayer(draft: Player, now: DateTime) returns (stored: Player)
      requires Valid()
      modifies this
      ensures Valid()
      ensures stored == draft.(id := old(nextId), registrationDate := now, ranking := |old(players)| + 1)
      ensures players == old(players) + [stored]
      ensures nextId == old(nextId) + 1
      ensures GetPlayerById(stored.id) == Some(stored)
    {
      stored := draft.(id := nextId, registrationDate := now, ranking := |players| + 1);
      AppendAtBoundKeepsIds(players, nextId, stored);
      nextId := nextId + 1;
      players := players + [stored];
      IndexOfIdAt(players, stored.id, |players| - 1);
    }

    /**
     * Overwrites the six editable fields of the record with `edit.id`;
     * does nothing when no record has that id.
     */
    method UpdatePlayer(edit: Player)
      requires Valid()
      modifies this
      ensures Valid()
      ensures nextId == old(nextId)
      ensures match IndexOfId(old(players), edit.id)
        case None => players == old(players)
        case Some(k) => players == old(players)[k := ApplyEdit(old(players)[k], edit)]
      ensures |players| == |old(players)|
      ensures GetPlayerById(edit.id) ==
        match old(GetPlayerById(edit.id))
        case None => None
        case Some(existing) => Some(ApplyEdit(existing, edit))
    {
      var found := IndexOfId(players, edit.id);
      if found.Some? {
        var k := found.value;
        players := players[k := ApplyEdit(players[k], edit)];
        IndexOfIdAt(players, edit.id, k);
      }
    }

    /** Removes the record with `id`, keeping the others in order; does nothing when it is absent. */
    method DeletePlayer(id: int)
      requires Valid()
      modifies this
      ensures Valid()
      ensures nextId == old(nextId)
      ensures match IndexOfId(old(players), id)
        case None => players == old(players)
        case Some(k) => players == old(players)[..k] + old(players)[k + 1..]
      ensures |players| == |old(players)| - (if old(GetPlayerById(id)).Some? then 1 else 0)
      ensures GetPlayerById(id) == None
    {
      var found := IndexOfId(players, id);
      if found.Some? {
        var k := found.value;
        RemoveAtDropsId(players, k);
        players := players[..k] + players[k + 1..];
      }
    }
  }

  // ---------------------------------------------------------------------
  // Scenarios over the seeded repository

  /** Seeded: John Chen leads the ranking; deleting Mike Wong (id 3) leaves four players and no id 3. */
  method DeleteSeededPlayerScenario(at: Clock) returns (leader: string, remaining: nat, lookup: Option<Player>)
    ensures leader == "John Chen"
    ensures remaining == 4
    ensures lookup == None
  {
    var service := new MockPlayerService(at);
    SeedLeader(at);
    SeedIds(at);
    leader := service.GetAllPlayers()[0].fullName;
    IndexOfIdAt(service.players, 3, 2);
    service.DeletePlayer(3);
    remaining := |service.GetAllPlayers()|;
    lookup := service.GetPlayerById(3);
  }

  /**
   * Rankings are not renormalised: after deleting id 1 the count is 4, so
   * a new player gets ranking 5, the same as the seeded Mike Wong.
   */
  method RankingCollisionScenario(at: Clock, draft: Player, now: DateTime) returns (newRanking: int, existingRanking: int)
    ensures newRanking == 5 && existingRanking == 5
  {
    var service := new MockPlayerService(at);
    ghost var seed := service.players;
    SeedIds(at);
    assert seed[0].id == 1 && seed[2].id == 3 && seed[2].ranking == 5;
    IndexOfIdAt(seed, 1, 0);
    service.DeletePlayer(1);
    assert |service.players| == 4 && service.players[1] == seed[2];
    var stored := service.AddPlayer(draft, now);
    newRanking := stored.ranking;
    assert service.players[1] == seed[2] && service.players[0].id != 3;
    IndexOfIdAt(service.players, 3, 1);
    var mike := service.GetPlayerById(3);
    existingRanking := if mike.Some? then mike.value.ranking else 0;
  }
}
