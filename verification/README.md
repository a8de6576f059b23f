# Weekly MLB schedule grid — a Dafny model

The modelled program is a browser page that shows one week of the MLB schedule as a
table. It has one row per team and one column per day. Each cell shows the opponent
(with `@` for an away game), the team's probable pitcher and, optionally, the team's
betting price.

The model covers the pure core behind that table:

- **`parseScheduleData`** (module `ScheduleData`, properties in `ScheduleProperties`).
  It reshapes the API's chronological list of days into a map from team name to one
  entry per day. An entry is `null` (`Slot.Empty`), a game (`Single`) or a
  doubleheader `[game, game]` (`Pair`). Postponed games are skipped. A name outside
  the roster is ignored, because every access is `teamMap.get(name)?.…`. The
  doubleheader flag is reset at the start of each day and shared by all of that
  day's games. On the second leg both teams' last entries are popped. The pair is
  pushed only when the popped home entry was a single game. The end-of-day pass then
  pads every list that is shorter than the day count with one `null`.
- **Starting week** (module `WeekSelection`). This is the first `"start;end"` week
  whose end date is on or after today, and otherwise the first week. The module also
  holds the `split(";")` of a date range.
- **Day columns and today's column** (module `ScheduleTable`). The columns are every
  calendar day from the start through the end date, each labelled month-day. Today's
  column is the first label that reads as today when the year 2023 is put in front,
  and -1 when there is none. The table has one row per map entry, in map order.
- **Cells** (module `ScheduleRow`). A row starts with the team's abbreviation and has
  one cell per entry. A `null` entry gives an empty cell. A game gives the opponent
  line, then the team's own probable pitcher when one is announced, then the price
  when the game has odds.

Supporting modules:

- `Wrappers`: the `Option` type.
- `OrderedMaps`: a JavaScript `Map`, which iterates in insertion order and keeps a
  re-set key in its place.
- `Strings`: `split` and `join` on one separator character, with both round trips.
- `MlbTypes`: the API's game, side, status and odds records.

Dates are integer day numbers. Three things come from outside the core and are
parameters of the model:

- `parse: string -> Option<int>` reads a `yyyy-mm-dd` string as a day. `None` means
  Luxon's invalid DateTime: it compares false, and its interval splits into nothing.
- `format: int -> string` is the `LL-dd` rendering of a day.
- `today: int` is the current day.

The team roster (`teamAbbreviations`) and the week table (`mlbWeeks`) are parameters
too, because their files are not part of this model.

A JavaScript `TypeError` is modelled as a failure value, not as a precondition. This
covers a week or range without `;`, and a game whose odds array lacks the entry the
row reads. The one exception is pair entries reaching a row: the row's declared type
is `(MlbGame | null)[]`, so the row takes "no pairs" as a precondition.

Three more modules state the one-entry-per-day shape that the doc comment of
`parseScheduleData` promises ("null if no game is on that day"):

- `ScheduleKeyed` is `parseScheduleData` with the doubleheader flag kept per matchup
  instead of once per day. A matchup is the game's two teams, whichever of them is at
  home (`MlbTypes.MatchupOf`), so a nightcap with home and away swapped still answers
  its opener, as it does in `parseScheduleData`. Everything else is as in
  `parseScheduleData`.
- `DayShapes` proves the shape for the per-matchup version on every day where each
  team plays one matchup at most (`OneMatchupPerTeam`). It proves the shape for
  `parseScheduleData` on the narrower days where one first leg is unanswered at a time
  (`OneSlotPerTeam`), because on those days the two versions build the same map. It
  also exhibits two kinds of day that separate them (see "## Findings"): two
  doubleheaders whose legs interleave, and a doubleheader whose nightcap is postponed
  followed by another matchup's "Y" opener.
- `DayContents` gives the exact entry of each team on each such day. A team's
  entry is read off its own non-postponed games of that day: none gives `null`, one
  gives that game, and two give the pair, earlier game first, wherever the two legs
  sit in the day's list and whichever team is at home in each leg. The exception is a
  doubleheader whose second leg's home team is not in the roster: the second leg
  merges only when popping its own home team's list yields the opener, and an unknown
  team has no list, so the other team gets `null`.

The table modules take the team map as a parameter, so they apply to either version.

## Model

| member | source | states |
|---|---|---|
| `OrderedMaps.Get` | src/components/ScheduleRow.tsx:23 | `Map.get`: the key's value when the key is present, and `undefined` exactly when it is absent |
| `OrderedMaps.Set` | src/components/ScheduleGrid.tsx:29-31 | `Map.set`: a new key joins the end of the iteration order, an existing key keeps its place, and only that key's value changes |
| `OrderedMaps.SetAllKeepsOrder` | src/components/ScheduleGrid.tsx:29-31 | setting distinct keys one after another yields exactly that key order |
| `MlbTypes.MatchupOf` | src/components/ScheduleGrid.tsx:46-53 | a game's matchup holds its two teams, the home and the away team in one order or the other |
| `MlbTypes.SameMatchup` | src/components/ScheduleGrid.tsx:46-53 | two games have the same matchup exactly when they are between the same two teams, with home and away the same or swapped; a swapped nightcap pops its own home team's list, which holds the opener, so the source merges it too |
| `ScheduleData.Init` | src/components/ScheduleGrid.tsx:27-31 | the result's keys are exactly the roster's team names, in roster order, each with an empty list |
| `ScheduleData.InitIsSetAll` | src/components/ScheduleGrid.tsx:28-30 | calling `set(name, [])` for each roster name in turn, starting from an empty `Map`, builds exactly that initial map |
| `ScheduleData.Push` | src/components/ScheduleGrid.tsx:57-58 | `get(team)?.push(s)` appends `s` to a known team's list and leaves every other list unchanged; for an unknown name nothing changes and no key is added |
| `ScheduleData.Pop` | src/components/ScheduleGrid.tsx:48-49 | `get(team)?.pop()` returns the last entry and removes it; for an unknown team or an empty list it returns undefined and changes nothing |
| `ScheduleData.PushBoth` | src/components/ScheduleGrid.tsx:61-64 | the same entry is appended to the home and the away list (twice if both sides name one team); teams not in the game are untouched |
| `ScheduleData.SecondLeg` | src/components/ScheduleGrid.tsx:47-55 | both teams lose their last entry; `[earlier, this game]` is appended to both only when the home team's popped entry was a single game; teams not in the game are untouched |
| `ScheduleData.Step` | src/components/ScheduleGrid.tsx:36-65 | a postponed game changes neither the lists nor the flag; a non-"Y" game appends itself to both teams and keeps the flag; a "Y" game toggles the flag, appending itself to both teams when the flag was down and, when the flag was up, popping both teams' last entries and merging them as `SecondLeg` states |
| `ScheduleData.ProcessGames` | src/components/ScheduleGrid.tsx:35-65 | a day's games never add or remove keys or change their order, whatever names the games carry |
| `ScheduleData.Fill` | src/components/ScheduleGrid.tsx:67-73 | after day k, a list shorter than k gets exactly one `null` appended, and a list already k or longer is unchanged |
| `ScheduleData.ParseSchedule` | src/components/ScheduleGrid.tsx:26-77 | the result's keys are the roster's names in roster order; games naming unknown teams add no keys |
| `ScheduleProperties.FlagParity` | src/components/ScheduleGrid.tsx:35-60 | after any prefix of a day's games, the flag is up exactly when an odd number of non-postponed "Y" games has been seen, whichever teams they involve |
| `ScheduleProperties.UnknownTeamsIgnored` | src/components/ScheduleGrid.tsx:48-63 | a game whose two team names are both outside the roster changes no list |
| `ScheduleProperties.ParseDrawsFromInput` | src/components/ScheduleGrid.tsx:33-74 | for any input, every game in the result is a non-postponed game of the input; a single game involves the team it is listed for; a pair's second game is a "Y" game involving that team |
| `ScheduleProperties.DoubleHeaderPairs` | src/components/ScheduleGrid.tsx:46-60 | on a day whose games are just the two legs, a "Y" game followed by a "Y" rematch between the same two teams, home and away the same or swapped, with the rematch's home team in the roster, appends one `[first, second]` entry to both teams' lists and leaves every other list unchanged; `DayContents.DoubleHeaderEntry` states the merge wherever the legs sit |
| `ScheduleProperties.DoubleHeaderMerges` | src/components/ScheduleGrid.tsx:46-73 | on a day holding just the two legs, two "Y" games between the same two teams, in either home and away order, with the second game's home team in the roster, become one `[first, second]` entry for both teams, and every other team gets `null` |
| `ScheduleKeyed.StepKeyed` | src/components/ScheduleGrid.tsx:36-65 | one game with per-matchup flags, a matchup being the two teams whichever is at home: the lists change as `Step` would change them with this game's matchup's flag; that flag moves as `Step`'s day-wide flag would; no other matchup's flag changes |
| `ScheduleKeyed.ParseScheduleKeyed` | src/components/ScheduleGrid.tsx:26-77 | the per-matchup version of `parseScheduleData` keeps the roster's keys in roster order |
| `DayShapes.TrackCoversPlayers` | src/components/ScheduleGrid.tsx:57-63 | on a day where each team plays one matchup at most, every team that plays a non-postponed game has been given its slot |
| `DayShapes.DayThenFill` | src/components/ScheduleGrid.tsx:34-73 | on a day where each team plays one matchup at most, the per-matchup merge and the end-of-day pass grow every list by exactly one entry and keep the earlier entries; the new entry is `null`, a non-postponed game of that day involving the team, or two of that day's non-postponed "Y" games of one matchup involving the team, earlier first, in either home and away order; it is `null` for a team with no non-postponed game that day |
| `DayShapes.ParseShapeKeyed` | src/components/ScheduleGrid.tsx:19-77 | when each team plays one matchup a day at most, the per-matchup merge gives every list one entry per day, in day order, each entry as described for `DayThenFill` |
| `DayShapes.TracksAgree` | src/components/ScheduleGrid.tsx:46-60 | a day with one first leg unanswered at a time is a day where each team plays one matchup at most, with the same teams placed and the same pending leg |
| `DayShapes.DayAgrees` | src/components/ScheduleGrid.tsx:35-65 | on a day with one first leg unanswered at a time, the day-wide flag and the per-matchup flags build the same lists; the day-wide flag is up exactly when a first leg is pending, and the open matchups are that leg's |
| `DayShapes.ParseAgrees` | src/components/ScheduleGrid.tsx:26-77 | when every day has one first leg unanswered at a time, `parseScheduleData` and the per-matchup version build the same map |
| `DayShapes.ParseShape` | src/components/ScheduleGrid.tsx:19-77 | when every day has one first leg unanswered at a time, `parseScheduleData` gives one entry per team per day, in day order, each entry as described for `DayThenFill` |
| `DayShapes.InterleavedFirstDay` | src/components/ScheduleGrid.tsx:46-73 | on a first day holding two interleaved doubleheaders, where every team plays one matchup, the day-wide flag gives the first matchup's teams two single entries and the second matchup's teams `null` |
| `DayShapes.InterleavedKeyedFirstDay` | src/components/ScheduleGrid.tsx:46-73 | on the same day the per-matchup version gives each matchup's teams that matchup's pair, earlier game first, and every other team `null` |
| `DayShapes.InterleavedAsWritten` | src/components/ScheduleGrid.tsx:46-73 | a concrete interleaved day (Red Sox–Yankees, Cubs–Mets, Red Sox–Yankees, Cubs–Mets, all "Y"): the Red Sox list is two singles and the Cubs list is `[null]` |
| `DayShapes.InterleavedKeyed` | src/components/ScheduleGrid.tsx:46-73 | on that concrete day the per-matchup version gives the Red Sox and the Cubs each their own pair |
| `DayShapes.NightcapPostponedTracked` | src/components/ScheduleGrid.tsx:39-60 | a "Y" opener, its postponed "Y" nightcap and then the "Y" opener of two other teams: each team plays one matchup that day, yet it is not a day with one first leg unanswered at a time |
| `DayShapes.FlagUpAfterPostponed` | src/components/ScheduleGrid.tsx:39-60 | after that opener and its postponed nightcap the day-wide flag is up, the lists are those after the opener alone, and teams outside the opener's matchup are untouched |
| `DayShapes.NightcapPostponedAsWritten` | src/components/ScheduleGrid.tsx:39-73 | on such a day `parseScheduleData` takes the second opener as a nightcap: its home team's entry of the day before, a single game, becomes the pair of that game and today's game, and its entry for today is `null` |
| `DayShapes.NightcapPostponedKeyed` | src/components/ScheduleGrid.tsx:39-73 | on the same day the per-matchup version keeps the earlier entries and gives that team today's game as a single entry |
| `DayContents.DayContent` | src/components/ScheduleGrid.tsx:34-65 | on a day where each team plays one matchup at most, the per-matchup merge leaves each list as its starting list plus exactly what that team's own games leave: nothing, its one game, or its two legs as one pair when the second leg's home team is in the roster; the still-open matchups are exactly those with an unanswered first leg |
| `DayContents.DayThenFillContent` | src/components/ScheduleGrid.tsx:34-73 | with the end-of-day pass, every list gains exactly one entry: `null` when the team has no non-postponed game that day, its game when it has one, the pair of its two games, earlier first, when it has two and the second game's home team is in the roster, and `null` when that team is not |
| `DayContents.ParseContentsKeyed` | src/components/ScheduleGrid.tsx:26-77 | when each team plays one matchup a day at most, the per-matchup version gives every team one entry per day, entry d being exactly the entry its own games of day d call for |
| `DayContents.ParseContents` | src/components/ScheduleGrid.tsx:26-77 | when every day has one first leg unanswered at a time, `parseScheduleData` gives every team one entry per day, entry d being exactly the entry its own games of day d call for |
| `DayContents.TwoLegs` | src/components/ScheduleGrid.tsx:46-60 | on a day with one first leg unanswered at a time, a team's two non-postponed games, wherever they sit, are all its games that day and are two "Y" games of one matchup |
| `DayContents.DoubleHeaderEntry` | src/components/ScheduleGrid.tsx:46-73 | on such days, a team's two games of day d, with any other games before or between them, are the "Y" legs of one matchup, with home and away the same or swapped, and the team's entry for day d is the pair of them, earlier first, when the later game's home team is in the roster |
| `DayContents.SwappedLegsMerged` | src/components/ScheduleGrid.tsx:46-60 | a concrete doubleheader whose nightcap has the Yankees at home after a Red Sox home opener: `parseScheduleData` gives both teams the pair, and the per-matchup version builds the same map |
| `Strings.Split` | src/components/ScheduleTable.tsx:13 | `String.prototype.split` on one character: at least one piece, none containing the separator |
| `Strings.JoinSplit` | src/components/ScheduleTable.tsx:13 | joining the pieces of `split(";")` with `;` gives back the string |
| `Strings.SplitJoin` | src/components/ScheduleTable.tsx:13 | splitting `;`-free pieces joined with `;` gives back the pieces |
| `Strings.SplitCount` | src/components/ScheduleTable.tsx:13 | `split` yields one more piece than there are separators |
| `WeekSelection.DateRange` | src/components/ScheduleGrid.tsx:101 | `[start, end] = range.split(";")`: the end is present exactly when the range contains `;`, and neither half contains `;` |
| `WeekSelection.DateRangeRoundTrip` | src/components/ScheduleTable.tsx:13 | a range written as `start;end` from two `;`-free dates reads back as exactly those two dates |
| `WeekSelection.EndsOnOrAfterRange` | src/components/ScheduleGrid.tsx:86-88 | the `find` predicate on a week written `start;end`: true exactly when the end date is a valid date on or after today; the start date plays no part |
| `WeekSelection.StartingWeek` | src/components/ScheduleGrid.tsx:85-93 | the first week whose end date is on or after today; the first week if none is; undefined for an empty table; a thrown error exactly when the scan reaches a week without `;` |
| `ScheduleTable.DaysBetween` | src/components/ScheduleTable.tsx:14-18 | the days from start through end inclusive, ascending and consecutive: entry i is start + i; empty when end is before start |
| `ScheduleTable.DaysBetweenMembers` | src/components/ScheduleTable.tsx:14-18 | a day is listed exactly when it lies between start and end inclusive |
| `ScheduleTable.DayLabels` | src/components/ScheduleTable.tsx:13-19 | one month-day label per day of the range, label i being the start day + i; empty for an invalid date; a thrown error exactly when the range has no `;` |
| `ScheduleTable.TodayIndex` | src/components/ScheduleTable.tsx:21-24 | the first index whose label, read with year 2023, is today; -1 exactly when no label is |
| `ScheduleTable.IsTodayOfDay` | src/components/ScheduleTable.tsx:22-23 | the `findIndex` predicate on the label of a day that reads back as itself with year 2023: true exactly when that day is today |
| `ScheduleTable.TodayIndexIsOffset` | src/components/ScheduleTable.tsx:21-24 | when every day of the range reads back as itself with year 2023, today's index is today minus the start day, and -1 when today is outside the range |
| `ScheduleTable.Rows` | src/components/ScheduleTable.tsx:26-36 | one row per map key, in map order, row i being the row of key i; a thrown error exactly when some row throws |
| `ScheduleTable.Table` | src/components/ScheduleTable.tsx:38-50 | the header is one blank cell followed by the day labels; there is one row per team in map order, row i being the row of key i and its list, with that team's abbreviation and one cell per entry |
| `ScheduleRow.OddsPrice` | src/components/ScheduleRow.tsx:29-31 | the price is entry 0's when entry 0 names the team, otherwise entry 1's; it is defined exactly when that entry exists |
| `ScheduleRow.AbbrText` | src/components/ScheduleRow.tsx:23 | a team's abbreviation interpolated into the opponent text: the roster's abbreviation when the team has one, the text "undefined" when it has none |
| `ScheduleRow.GameCell` | src/components/ScheduleRow.tsx:19-34 | the opponent is the other side's team, prefixed with `@` exactly when the row's team is not the home team; then the row team's own pitcher when announced; then its price when odds exist; a thrown error exactly when the odds lack the entry read |
| `ScheduleRow.SlotCell` | src/components/ScheduleRow.tsx:14-18 | a `null` entry gives an empty cell; a game gives that game's cell |
| `ScheduleRow.Cells` | src/components/ScheduleRow.tsx:13-36 | exactly one cell per entry, in order, each the cell of its entry; a thrown error exactly when some cell throws |
| `ScheduleRow.RowFor` | src/components/ScheduleRow.tsx:11-37 | the row's first cell is the team's abbreviation, followed by exactly one cell per entry, cell i being the cell of entry i; a thrown error exactly when some cell throws |
| `ScheduleRow.HomeAndAwayCellsMirror` | src/components/ScheduleRow.tsx:19-27 | for a game without odds, the home row names the away team without `@`, the away row names the home team with `@`, and each shows only its own side's pitcher |

## Left out

- The fetch and its surroundings (src/components/ScheduleGrid.tsx:98-122): URL building from the environment, axios, error toasts, the loading flag and the `useEffect` re-fetch. These are network I/O and React lifecycle. The race between overlapping requests is a concurrency matter.
- The week menu, the odds checkbox and the `LLL dd` menu labels (src/components/ScheduleGrid.tsx:124-174). These are presentational.
- Luxon. Date parsing, `startOf`/`endOf`, `Interval.splitBy`, `hasSame` and `toFormat` are replaced by day numbers and the `parse`/`format` parameters. `getDateTimeFromDateString` in src/utils/utils.ts is the `parse` parameter; `sleep` is a timer.
- src/App.tsx, which only composes components.
- The contents of `teamAbbreviations`, `mlbWeeks` and the `MlbDay` type. Those files are not part of this model; the first two are parameters, and a day is modelled as a date plus its games.
- Odds prices are JavaScript numbers. They are modelled as integers, so no floating point is involved.
- React element keys and the `todayIndex` prop. ScheduleTable passes `todayIndex` to ScheduleRow, which does not declare it, so it does not affect the rendered table.
- ScheduleRow.SlotCell: a pair entry reaching a row is excluded by precondition, as the row's declared entry type excludes it. At run time the row would fail reading `teams` of an array.
- ScheduleData.SecondLeg: the per-team contents are stated only for games whose home and away names differ. A game naming one team on both sides pops that list twice; only "teams not in the game are untouched" is stated for it.
- DayShapes.DayThenFill: states that a team without a game gets `null`, not the converse. The converse fails when a doubleheader's second leg has its home team outside the roster: the second leg pops the other team's first leg and pushes nothing, so that team ends the day with `null`. `DayContents.DayThenFillContent` and `DayContents.ParseContentsKeyed` state the exact entry on every day where each team plays one matchup at most, this case included, and `DayContents.ParseContents` does so on every day with one first leg unanswered at a time.
- DayShapes.ParseShape: stated only for days with one first leg unanswered at a time. On a day where two doubleheaders interleave, or where a postponed nightcap leaves the flag up for another matchup's opener, lists can end up shorter or longer than the day count, or an entry can move to the day before (see "## Findings"). `ParseDrawsFromInput` is the property that holds for every input.

## Findings

| source | as written | input that shows it | evidently intended | confidence | as-written member | corrected member |
|---|---|---|---|---|---|---|
| src/components/ScheduleGrid.tsx:34-60 | one doubleheader flag per day, shared by all matchups: any "Y" game seen while it is up is taken as the second leg of the last first leg | a day whose games are Red Sox–Yankees "Y", Cubs–Mets "Y", Red Sox–Yankees "Y", Cubs–Mets "Y"; or Red Sox–Yankees "Y", Red Sox–Yankees "Y" postponed, Cubs–Mets "Y", with the Cubs' list ending in a single game | each matchup's two legs merged into one `[first, second]` entry, so every team has one entry per day, as the doc comment at lines 19-25 and the comment at lines 67-68 describe | not executed; the interleaved order needs the API to list the games that way, but the same flag also catches a doubleheader whose nightcap is postponed followed by another matchup's "Y" opener, with no interleaving: that opener is merged into its home team's entry of the day before, and the team gets `null` for today | `DayShapes.InterleavedAsWritten`, `DayShapes.NightcapPostponedAsWritten` | `DayShapes.InterleavedKeyed` and `DayShapes.NightcapPostponedKeyed`, on the corrected `ScheduleKeyed.ParseScheduleKeyed`, whose one-entry-per-day shape `DayShapes.ParseShapeKeyed` proves for every input where each team plays one matchup a day at most |
