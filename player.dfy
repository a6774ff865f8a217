/**
 * Player records, their match history and the statistics derived from it
 * (Models/Player.cs). Every statistic is a total function of the history,
 * recomputed on each read.
 */
module Players {
  import opened Wrappers

  /** A point in time, as an integer synonym. The source reads the process clock; the model only stores and compares these values. */
  type DateTime = int

  /** The value of an unset DateTime (DateTime.MinValue in .NET). */
  const DefaultDateTime: DateTime := 0

  datatype SkillLevel = Beginner | Intermediate | Advanced | Expert | Professional

  datatype MatchType = Singles | Doubles | MixedDoubles

  /**
   * One recorded game. `isWin` is stored on its own and is deliberately
   * not derived from the two scores.
   */
  datatype MatchHistory = MatchHistory(
    id: int,
    matchDate: DateTime,
    opponent: string,
    playerScore: int,
    opponentScore: int,
    isWin: bool,
    court: string,
    matchType: MatchType)

  datatype Player = Player(
    id: int,
    fullName: string,
    email: string,
    phoneNumber: Option<string>,
    skillLevel: SkillLevel,
    ranking: int,
    preferredCourts: seq<string>,
    registrationDate: DateTime,
    profilePictureUrl: Option<string>,
    matchHistory: seq<MatchHistory>)

  /** A freshly constructed Player: empty strings and lists, enum and numbers at their defaults. */
  function DefaultPlayer(): (p: Player)
    ensures p.id == 0 && p.ranking == 0 && p.skillLevel == Beginner
    ensures p.registrationDate == DefaultDateTime
    ensures p.preferredCourts == [] && p.matchHistory == []
    ensures p.fullName == "" && p.email == ""
    ensures p.phoneNumber == None && p.profilePictureUrl == None
  {
    Player(0, "", "", None, Beginner, 0, [], DefaultDateTime, None, [])
  }

  // ---------------------------------------------------------------------
  // Counting over a history (the `Count(m => m.IsWin)` of the source)

  /** Number of entries marked as won. */
  function CountWins(h: seq<MatchHistory>): (w: nat)
    ensures w <= |h|
    ensures w == |h| <==> forall i :: 0 <= i < |h| ==> h[i].isWin
    ensures w == 0 <==> forall i :: 0 <= i < |h| ==> !h[i].isWin
  {
    if h == [] then 0
    else (if h[0].isWin then 1 else 0) + CountWins(h[1..])
  }

  /** Number of entries marked as lost: an independent count used as the reference for Losses. */
  function CountLosses(h: seq<MatchHistory>): (l: nat)
    ensures l <= |h|
    ensures l == 0 <==> forall i :: 0 <= i < |h| ==> h[i].isWin
  {
    if h == [] then 0
    else (if h[0].isWin then 0 else 1) + CountLosses(h[1..])
  }

  /** Every entry is either a win or a loss. */
  lemma {:induction false} WinsPlusLossesIsLength(h: seq<MatchHistory>)
    ensures CountWins(h) + CountLosses(h) == |h|
  {
    if h != [] {
      WinsPlusLossesIsLength(h[1..]);
    }
  }

  /** Counting wins distributes over concatenation of histories. */
  lemma {:induction false} CountWinsAppend(a: seq<MatchHistory>, b: seq<MatchHistory>)
    ensures CountWins(a + b) == CountWins(a) + CountWins(b)
  {
    if a == [] {
      assert a + b == b;
    } else {
      assert (a + b)[0] == a[0];
      assert (a + b)[1..] == a[1..] + b;
      CountWinsAppend(a[1..], b);
    }
  }

  // ---------------------------------------------------------------------
  // The four computed statistics of a Player

  /** The number of recorded matches: every one of them is counted either as a win or as a loss. */
  function TotalMatches(p: Player): (n: nat)
    ensures n == CountWins(p.matchHistory) + CountLosses(p.matchHistory)
  {
    WinsPlusLossesIsLength(p.matchHistory);
    |p.matchHistory|
  }

  function Wins(p: Player): (w: nat)
    ensures w <= TotalMatches(p)
  {
    CountWins(p.matchHistory)
  }

  /** Total minus wins; it never goes negative and equals the number of lost entries. */
  function Losses(p: Player): (l: nat)
    ensures l == CountLosses(p.matchHistory)
    ensures Wins(p) + l == TotalMatches(p)
  {
    WinsPlusLossesIsLength(p.matchHistory);
    TotalMatches(p) - Wins(p)
  }

  /**
   * Percentage of matches won, 0 for an empty history (which avoids the
   * division by zero). Exact real arithmetic stands for the source's double.
   */
  function WinRate(p: Player): (r: real)
    ensures TotalMatches(p) == 0 ==> r == 0.0
    ensures 0.0 <= r <= 100.0
    ensures r == 100.0 <==> TotalMatches(p) > 0 && forall i :: 0 <= i < |p.matchHistory| ==> p.matchHistory[i].isWin
    ensures r == 0.0 <==> forall i :: 0 <= i < |p.matchHistory| ==> !p.matchHistory[i].isWin
  {
    var t := TotalMatches(p);
    var w := Wins(p);
    if t > 0 then
      RateBounds(w, t);
      (w as real) / (t as real) * 100.0
    else 0.0
  }

  /** The ratio w/t*100 of `w <= t` lies in [0, 100], hits 100 exactly when w == t and 0 exactly when w == 0. */
  lemma RateBounds(w: nat, t: nat)
    requires 0 < t && w <= t
    ensures 0.0 <= (w as real) / (t as real) * 100.0 <= 100.0
    ensures (w as real) / (t as real) * 100.0 == 100.0 <==> w == t
    ensures (w as real) / (t as real) * 100.0 == 0.0 <==> w == 0
  {
  }

  // ---------------------------------------------------------------------
  // Statements about the statistics

  /** A player without matches has all four statistics at zero. */
  lemma EmptyHistoryStats(p: Player)
    requires p.matchHistory == []
    ensures TotalMatches(p) == 0 && Wins(p) == 0 && Losses(p) == 0 && WinRate(p) == 0.0
  {
  }

  /** A default-constructed player has empty collections and all statistics at zero. */
  lemma DefaultPlayerStats()
    ensures DefaultPlayer().preferredCourts == [] && DefaultPlayer().matchHistory == []
    ensures TotalMatches(DefaultPlayer()) == 0 && Wins(DefaultPlayer()) == 0
    ensures Losses(DefaultPlayer()) == 0 && WinRate(DefaultPlayer()) == 0.0
  {
    EmptyHistoryStats(DefaultPlayer());
  }

  /** Three wins followed by a loss give a win rate of 75. */
  lemma ThreeOfFourIsSeventyFive(p: Player)
    requires |p.matchHistory| == 4
    requires p.matchHistory[0].isWin && p.matchHistory[1].isWin && p.matchHistory[2].isWin
    requires !p.matchHistory[3].isWin
    ensures Wins(p) == 3 && Losses(p) == 1 && WinRate(p) == 75.0
  {
    var h := p.matchHistory;
    assert h[1..][1..] == h[2..] && h[2..][1..] == h[3..] && h[3..][1..] == [];
    assert CountWins(h[3..]) == 0;
    assert CountWins(h[2..]) == 1;
    assert CountWins(h[1..]) == 2;
  }

  /** Alternating win, loss, win, loss gives a win rate of 50. */
  lemma TwoOfFourIsFifty(p: Player)
    requires |p.matchHistory| == 4
    requires p.matchHistory[0].isWin && !p.matchHistory[1].isWin
    requires p.matchHistory[2].isWin && !p.matchHistory[3].isWin
    ensures Wins(p) == 2 && Losses(p) == 2 && WinRate(p) == 50.0
  {
    var h := p.matchHistory;
    assert h[1..][1..] == h[2..] && h[2..][1..] == h[3..] && h[3..][1..] == [];
    assert CountWins(h[3..]) == 0;
    assert CountWins(h[2..]) == 1;
    assert CountWins(h[1..]) == 1;
  }

  /** Three losses give a win rate of 0 and three losses. */
  lemma NoneOfThreeIsZero(p: Player)
    requires |p.matchHistory| == 3
    requires !p.matchHistory[0].isWin && !p.matchHistory[1].isWin && !p.matchHistory[2].isWin
    ensures Wins(p) == 0 && Losses(p) == 3 && WinRate(p) == 0.0
  {
  }

  /** Appending a won match never lowers the win rate; appending a lost one never raises it. */
  lemma {:induction false} AppendMatchMovesRate(p: Player, m: MatchHistory)
    ensures var q := p.(matchHistory := p.matchHistory + [m]);
      TotalMatches(q) == TotalMatches(p) + 1 &&
      Wins(q) == Wins(p) + (if m.isWin then 1 else 0) &&
      (m.isWin ==> WinRate(q) >= WinRate(p)) &&
      (!m.isWin ==> WinRate(q) <= WinRate(p))
  {
    var q := p.(matchHistory := p.matchHistory + [m]);
    CountWinsAppend(p.matchHistory, [m]);
    assert [m][1..] == [];
    var t := TotalMatches(p);
    var w := Wins(p);
    if t > 0 {
      if m.isWin {
        RatioUp(w, t);
      } else {
        RatioDown(w, t);
      }
    }
  }

  /** Fractions with positive denominators compare as their cross products do. */
  lemma CrossMultiply(a: real, b: real, c: real, d: real)
    requires b > 0.0 && d > 0.0 && a * d >= c * b
    ensures a / b >= c / d
  {
  }

  lemma RatioUp(w: nat, t: nat)
    requires 0 < t && w <= t
    ensures ((w + 1) as real) / ((t + 1) as real) >= (w as real) / (t as real)
  {
    CrossMultiply((w + 1) as real, (t + 1) as real, w as real, t as real);
  }

  lemma RatioDown(w: nat, t: nat)
    requires 0 < t && w <= t
    ensures (w as real) / ((t + 1) as real) <= (w as real) / (t as real)
  {
    CrossMultiply(w as real, t as real, w as real, (t + 1) as real);
  }
}
