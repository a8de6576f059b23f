/** `parseScheduleData`: reshapes the chronological list of days into, for each
    team of the roster, one entry per day — no game, one game, or the two games
    of a doubleheader. */
module ScheduleData {
  import opened Wrappers
  import opened OrderedMaps
  import opened MlbTypes

  /** A team's entry for one day: `null`, one game, or a `[game, game]` doubleheader. */
  datatype Slot = Empty | Single(game: Game) | Pair(first: Game, second: Game)

  /** `teamAbbreviations`: team name to abbreviation, in the roster's order. */
  type Roster = OrderedMap<string>

  /** The result map: team name to that team's entries. */
  type TeamMap = OrderedMap<seq<Slot>>

  /** Same iteration order and same key set. */
  ghost predicate SameKeys(a: TeamMap, b: TeamMap)
  {
    a.keys == b.keys && a.values.Keys == b.values.Keys
  }

  function DropLast<T>(l: seq<T>): seq<T>
  {
    if |l| == 0 then l else l[..|l| - 1]
  }

  /** `teamMap.get(team)?.push(s)`: appends to a known team's list, and does nothing
      for an unknown name. */
  function Push(m: TeamMap, team: string, s: Slot): (r: TeamMap)
    requires Valid(m)
    ensures Valid(r) && SameKeys(r, m)
    ensures team in m.values ==> r.values[team] == m.values[team] + [s]
    ensures team !in m.values ==> r == m
    ensures forall k :: k in m.values && k != team ==> r.values[k] == m.values[k]
  {
    if team in m.values then Replace(m, team, m.values[team] + [s]) else m
  }

  /** `teamMap.get(team)?.pop()`: removes and returns a known team's last entry;
      `undefined` (None) for an unknown name or an empty list, which stay as they were. */
  function Pop(m: TeamMap, team: string): (r: (Option<Slot>, TeamMap))
    requires Valid(m)
    ensures Valid(r.1) && SameKeys(r.1, m)
    ensures r.0.Some? <==> team in m.values && |m.values[team]| > 0
    ensures r.0.Some? ==> m.values[team] == r.1.values[team] + [r.0.value]
    ensures r.0.None? ==> r.1 == m
    ensures forall k :: k in m.values && k != team ==> r.1.values[k] == m.values[k]
  {
    if team in m.values && |m.values[team]| > 0 then
      var l := m.values[team];
      assert l == l[..|l| - 1] + [l[|l| - 1]];
      (Some(l[|l| - 1]), Replace(m, team, l[..|l| - 1]))
    else (None, m)
  }

  /** The entries an unconditional push of `s` for both sides adds to team `k`'s list
      (twice when a game names the same team on both sides). */
  function BothSides(g: Game, k: string, s: Slot): seq<Slot>
  {
    (if HomeName(g) == k then [s] else []) + (if AwayName(g) == k then [s] else [])
  }

  /** The last entry of a team's list, if the team is known and has one. */
  function LastEntry(m: TeamMap, team: string): Option<Slot>
  {
    if team in m.values && |m.values[team]| > 0 then Some(m.values[team][|m.values[team]| - 1])
    else None
  }

  /** Appends `s` for the home side, then for the away side. */
  function PushBoth(m: TeamMap, g: Game, s: Slot): (r: TeamMap)
    requires Valid(m)
    ensures Valid(r) && SameKeys(r, m)
    ensures forall k :: k in m.values ==> r.values[k] == m.values[k] + BothSides(g, k, s)
  {
    Push(Push(m, HomeName(g), s), AwayName(g), s)
  }

  /** The second leg of a doubleheader: pops the home and then the away side's last
      entry; when the popped home entry is a single game (not `null`, not already a
      pair, not `undefined`), `[that game, g]` is appended for both sides. */
  function SecondLeg(m: TeamMap, g: Game): (r: TeamMap)
    requires Valid(m)
    ensures Valid(r) && SameKeys(r, m)
    ensures forall k :: k in m.values && !Involves(g, k) ==> r.values[k] == m.values[k]
    ensures HomeName(g) != AwayName(g) ==>
      var existing := LastEntry(m, HomeName(g));
      var added := if existing.Some? && existing.value.Single? then [Pair(existing.value.game, g)] else [];
      forall k :: k in m.values && Involves(g, k) ==> r.values[k] == DropLast(m.values[k]) + added
  {
    var (existing, m1) := Pop(m, HomeName(g));
    var (_, m2) := Pop(m1, AwayName(g));
    if existing.Some? && existing.value.Single? then PushBoth(m2, g, Pair(existing.value.game, g))
    else m2
  }

  /** One game of the day, given the day's doubleheader flag; returns the new map and
      flag. A postponed game changes nothing. A game not marked "Y" is appended for
      both sides. A "Y" game with the flag down is appended for both sides and raises
      the flag; with the flag up it is merged as a second leg and lowers the flag. */
  function Step(m: TeamMap, flag: bool, g: Game): (r: (TeamMap, bool))
    requires Valid(m)
    ensures Valid(r.0) && SameKeys(r.0, m)
    ensures IsPostponed(g) ==> r == (m, flag)
    ensures !IsPostponed(g) ==> r.1 == (if IsDoubleHeader(g) then !flag else flag)
    ensures !IsPostponed(g) && !(IsDoubleHeader(g) && flag) ==>
      forall k :: k in m.values ==> r.0.values[k] == m.values[k] + BothSides(g, k, Single(g))
    ensures !IsPostponed(g) && IsDoubleHeader(g) && flag ==> r.0 == SecondLeg(m, g)
  {
    if IsPostponed(g) then (m, flag)
    else if IsDoubleHeader(g) then
      if flag then (SecondLeg(m, g), false)
      else (PushBoth(m, g, Single(g)), true)
    else (PushBoth(m, g, Single(g)), flag)
  }

  /** The games of one day in the order received, the flag starting down. */
  function ProcessGames(m: TeamMap, gs: seq<Game>): (r: (TeamMap, bool))
    requires Valid(m)
    ensures Valid(r.0) && SameKeys(r.0, m)
    decreases |gs|
  {
    if gs == [] then (m, false)
    else
      var before := ProcessGames(m, gs[..|gs| - 1]);
      Step(before.0, before.1, gs[|gs| - 1])
  }

  /** One more game at the end of the day is one more step of the fold. */
  lemma ProcessGamesSnoc(m: TeamMap, gs: seq<Game>, g: Game)
    requires Valid(m)
    ensures ProcessGames(m, gs + [g]) == Step(ProcessGames(m, gs).0, ProcessGames(m, gs).1, g)
  {
    assert (gs + [g])[..|gs|] == gs;
  }

  /** The end-of-day pass: after day `dayCount`, a list shorter than `dayCount`
      gets one `null` appended; a list already that long is left alone. */
  function Fill(m: TeamMap, dayCount: nat): (r: TeamMap)
    requires Valid(m)
    ensures Valid(r) && SameKeys(r, m)
    ensures forall k :: k in m.values && |m.values[k]| < dayCount ==> r.values[k] == m.values[k] + [Empty]
    ensures forall k :: k in m.values && |m.values[k]| >= dayCount ==> r.values[k] == m.values[k]
  {
    OrderedMap(m.keys, map k | k in m.values :: Pad(m.values[k], dayCount))
  }

  function Pad(l: seq<Slot>, dayCount: nat): (r: seq<Slot>)
  {
    if |l| < dayCount then l + [Empty] else l
  }

  /** One empty list per roster team, in the roster's order. */
  function Init(roster: Roster): (r: TeamMap)
    requires Valid(roster)
    ensures Valid(r) && r.keys == roster.keys && r.values.Keys == roster.values.Keys
    ensures forall k :: k in r.values ==> r.values[k] == []
  {
    OrderedMap(roster.keys, map k | k in roster.values :: [])
  }

  /** Calling `set(name, [])` for each roster name in turn builds exactly `Init`. */
  lemma InitIsSetAll(roster: Roster)
    requires Valid(roster)
    ensures SetAll(roster.keys, []) == Init(roster)
  {
    var none: seq<Slot> := [];
    SetAllKeepsOrder(roster.keys, none);
  }

  /** `parseScheduleData(days)` with the roster made explicit: the days in order,
      each day's games then the end-of-day pass with the day count. */
  function ParseSchedule(roster: Roster, days: seq<Day>): (r: TeamMap)
    requires Valid(roster)
    ensures Valid(r) && r.keys == roster.keys && r.values.Keys == roster.values.Keys
    decreases |days|
  {
    if days == [] then Init(roster)
    else
      var before := ParseSchedule(roster, days[..|days| - 1]);
      Fill(ProcessGames(before, days[|days| - 1].games).0, |days|)
  }
}
