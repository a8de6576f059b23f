/** One table row: the team's abbreviation, then one cell per day entry. */
module ScheduleRow {
  import opened Wrappers
  import opened OrderedMaps
  import opened MlbTypes
  import opened ScheduleData

  /** One line of a cell's content. */
  datatype Line = Opponent(text: string) | PitcherName(name: string) | Price(price: int)

  /** A table cell; `<td></td>` is a cell without lines. */
  datatype Cell = Cell(lines: seq<Line>)

  /** A row: the abbreviation cell (blank when the roster has no abbreviation, as
      JSX renders `undefined` as nothing) and the day cells. */
  datatype Row = Row(abbreviation: Option<string>, cells: seq<Cell>)

  /** `${teamAbbreviations.get(name)}`: a team's abbreviation interpolated into a
      template string, where a name the map lacks reads `undefined` and becomes the
      text "undefined". */
  function AbbrText(abbrs: OrderedMap<string>, name: string): (r: string)
    ensures name in abbrs.values ==> r == abbrs.values[name]
    ensures name !in abbrs.values ==> r == "undefined"
  {
    match Get(abbrs, name)
    case Some(a) => a
    case None => "undefined"
  }

  /** `odds[0].name === team ? odds[0].price : odds[1].price`; None where reading an
      entry that is not there throws a TypeError. */
  function OddsPrice(odds: seq<OddsEntry>, team: string): (r: Option<int>)
    ensures r.Some? <==> |odds| >= 2 || (|odds| == 1 && odds[0].name == team)
    ensures r.Some? ==> r.value == (if odds[0].name == team then odds[0] else odds[1]).price
  {
    if |odds| == 0 then None
    else if odds[0].name == team then Some(odds[0].price)
    else if |odds| >= 2 then Some(odds[1].price)
    else None
  }

  /** The row team's view of a game: it is at home exactly when the home side has
      its name, and otherwise is read as the away side. */
  predicate IsHome(g: Game, team: string)
  {
    HomeName(g) == team
  }

  /** The content of a cell holding game `g` in `team`'s row: the opponent's
      abbreviation, prefixed with '@' when the team is away; then the team's own
      probable pitcher when announced; then the team's price when the game has odds.
      None when the odds cannot be read for this team (a thrown TypeError). */
  function GameCell(g: Game, team: string, abbrs: OrderedMap<string>): (r: Option<Cell>)
    ensures r.None? <==> g.odds.Some? && OddsPrice(g.odds.value, team).None?
    ensures r.Some? ==>
      var side := if IsHome(g, team) then g.teams.home else g.teams.away;
      var opponent := if IsHome(g, team) then AwayName(g) else HomeName(g);
      && |r.value.lines| == 1 + (if side.probablePitcher.Some? then 1 else 0) + (if g.odds.Some? then 1 else 0)
      && r.value.lines[0] == Opponent((if IsHome(g, team) then "" else "@") + AbbrText(abbrs, opponent))
      && (side.probablePitcher.Some? ==> r.value.lines[1] == PitcherName(side.probablePitcher.value.fullName))
      && (g.odds.Some? ==> r.value.lines[|r.value.lines| - 1] == Price(OddsPrice(g.odds.value, team).value))
  {
    var home := IsHome(g, team);
    var side := if home then g.teams.home else g.teams.away;
    var opponent := if home then AwayName(g) else HomeName(g);
    var first := [Opponent((if home then "" else "@") + AbbrText(abbrs, opponent))];
    var pitcher := if side.probablePitcher.Some? then [PitcherName(side.probablePitcher.value.fullName)] else [];
    match g.odds
    case None => Some(Cell(first + pitcher))
    case Some(odds) =>
      match OddsPrice(odds, team)
      case None => None
      case Some(p) => Some(Cell(first + pitcher + [Price(p)]))
  }

  /** The cell for one day entry: blank for `null`. Pair entries are outside what a
      row accepts. */
  function SlotCell(s: Slot, team: string, abbrs: OrderedMap<string>): (r: Option<Cell>)
    requires !s.Pair?
    ensures s.Empty? ==> r == Some(Cell([]))
    ensures s.Single? ==> r == GameCell(s.game, team, abbrs)
  {
    match s
    case Empty => Some(Cell([]))
    case Single(g) => GameCell(g, team, abbrs)
  }

  /** The row accepts single games and `null` only. */
  predicate NoPairs(games: seq<Slot>)
  {
    forall i :: 0 <= i < |games| ==> !games[i].Pair?
  }

  /** The day cells of a row, one per entry; None when some cell throws. */
  function Cells(games: seq<Slot>, team: string, abbrs: OrderedMap<string>): (r: Option<seq<Cell>>)
    requires NoPairs(games)
    ensures r.Some? <==> forall i :: 0 <= i < |games| ==> SlotCell(games[i], team, abbrs).Some?
    ensures r.Some? ==> |r.value| == |games|
    ensures r.Some? ==> forall i :: 0 <= i < |games| ==> Some(r.value[i]) == SlotCell(games[i], team, abbrs)
    decreases |games|
  {
    if games == [] then Some([])
    else
      var before := games[..|games| - 1];
      assert forall i :: 0 <= i < |before| ==> before[i] == games[i];
      match Cells(before, team, abbrs)
      case None => None
      case Some(front) =>
        match SlotCell(games[|games| - 1], team, abbrs)
        case None => None
        case Some(c) => Some(front + [c])
  }

  /** `<ScheduleRow teamName={team} games={games} />`. */
  function RowFor(team: string, games: seq<Slot>, abbrs: OrderedMap<string>): (r: Option<Row>)
    requires NoPairs(games)
    ensures r.Some? <==> Cells(games, team, abbrs).Some?
    ensures r.Some? ==> r.value.abbreviation == Get(abbrs, team) && |r.value.cells| == |games|
    ensures r.Some? ==> forall i :: 0 <= i < |games| ==> Some(r.value.cells[i]) == SlotCell(games[i], team, abbrs)
  {
    match Cells(games, team, abbrs)
    case None => None
    case Some(cells) => Some(Row(Get(abbrs, team), cells))
  }

  /** The two rows of a game's teams mirror each other: exactly one of them carries
      the '@', each names the other team, and each shows its own probable pitcher. */
  lemma HomeAndAwayCellsMirror(g: Game, abbrs: OrderedMap<string>)
    requires HomeName(g) != AwayName(g)
    requires g.odds.None?
    ensures var h := GameCell(g, HomeName(g), abbrs).value;
      var a := GameCell(g, AwayName(g), abbrs).value;
      && h.lines[0] == Opponent(AbbrText(abbrs, AwayName(g)))
      && a.lines[0] == Opponent("@" + AbbrText(abbrs, HomeName(g)))
      && (match g.teams.home.probablePitcher
          case Some(p) => h.lines == h.lines[..1] + [PitcherName(p.fullName)]
          case None => |h.lines| == 1)
      && (match g.teams.away.probablePitcher
          case Some(p) => a.lines == a.lines[..1] + [PitcherName(p.fullName)]
          case None => |a.lines| == 1)
  {
  }
}
