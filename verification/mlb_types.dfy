/** The shapes of the schedule API's records: a game with its two sides, its
    status, its doubleheader marker and optional betting odds, and a day of games. */
module MlbTypes {
  import opened Wrappers

  datatype Pitcher = Pitcher(id: int, fullName: string)

  datatype TeamInfo = TeamInfo(id: int, name: string)

  /** One side of a game: the team and, when announced, its probable pitcher. */
  datatype Side = Side(team: TeamInfo, probablePitcher: Option<Pitcher>)

  datatype Teams = Teams(away: Side, home: Side)

  datatype Status = Status(detailedState: string)

  datatype Venue = Venue(id: int, name: string)

  /** A betting line for one team; prices are whole numbers (American odds). */
  datatype OddsEntry = OddsEntry(name: string, price: int)

  datatype Game = Game(
    officialDate: string,
    gameDate: string,
    status: Status,
    teams: Teams,
    venue: Venue,
    doubleHeader: string,
    odds: Option<seq<OddsEntry>>)

  /** One day of the schedule response: the date and that day's games in the order received. */
  datatype Day = Day(date: string, games: seq<Game>)

  function HomeName(g: Game): string
  {
    g.teams.home.team.name
  }

  function AwayName(g: Game): string
  {
    g.teams.away.team.name
  }

  predicate IsPostponed(g: Game)
  {
    g.status.detailedState == "Postponed"
  }

  /** Only the exact marker "Y" counts as a doubleheader leg. */
  predicate IsDoubleHeader(g: Game)
  {
    g.doubleHeader == "Y"
  }

  /** The team plays in the game, on either side. */
  predicate Involves(g: Game, team: string)
  {
    HomeName(g) == team || AwayName(g) == team
  }

  /** Strict lexicographic order on team names. It only fixes the order in which a
      matchup names its two teams. */
  predicate Precedes(a: string, b: string)
    decreases |a|
  {
    if a == [] then b != []
    else b != [] && (a[0] < b[0] || (a[0] == b[0] && Precedes(a[1..], b[1..])))
  }

  lemma {:induction false} PrecedesTotal(a: string, b: string)
    ensures a == b || Precedes(a, b) || Precedes(b, a)
    ensures !(Precedes(a, b) && Precedes(b, a))
    decreases |a|
  {
    if a != [] && b != [] && a[0] == b[0] {
      PrecedesTotal(a[1..], b[1..]);
      assert a == [a[0]] + a[1..] && b == [b[0]] + b[1..];
    }
  }

  /** The two teams of a game, whichever of them is at home. */
  datatype Matchup = Matchup(one: string, other: string)

  /** The game's matchup: its two teams, the one earlier in name order first, so
      that a rematch with home and away swapped is the same matchup. */
  function MatchupOf(g: Game): (mu: Matchup)
    ensures (mu.one == HomeName(g) && mu.other == AwayName(g)) || (mu.one == AwayName(g) && mu.other == HomeName(g))
  {
    if Precedes(AwayName(g), HomeName(g)) then Matchup(AwayName(g), HomeName(g))
    else Matchup(HomeName(g), AwayName(g))
  }

  /** Two games have the same matchup exactly when they are between the same two
      teams, in the same or in swapped home and away roles. */
  lemma SameMatchup(g1: Game, g2: Game)
    ensures MatchupOf(g1) == MatchupOf(g2) <==>
      (HomeName(g1) == HomeName(g2) && AwayName(g1) == AwayName(g2)) ||
      (HomeName(g1) == AwayName(g2) && AwayName(g1) == HomeName(g2))
  {
    PrecedesTotal(HomeName(g1), AwayName(g1));
    PrecedesTotal(HomeName(g2), AwayName(g2));
  }
}
