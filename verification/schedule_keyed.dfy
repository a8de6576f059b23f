/** `parseScheduleData` with the doubleheader flag kept per matchup (the game's two
    teams, whichever of them is at home) instead of once for the whole day. A "Y"
    game is a second leg exactly when its own matchup has an unanswered first leg,
    so two doubleheaders whose games interleave are each merged, and a nightcap with
    home and away swapped still answers its opener. Everything else — the pops and
    pushes, postponed games, unknown names and the end-of-day pass — is
    `parseScheduleData`'s. */
module ScheduleKeyed {
  import opened OrderedMaps
  import opened MlbTypes
  import opened ScheduleData

  /** One game of the day, given the matchups with an unanswered first leg. The
      lists change as `Step` would with the flag read for this game's matchup; that
      matchup's flag then moves as the day-wide flag would under `Step`, and no
      other matchup's flag changes. */
  function StepKeyed(m: TeamMap, open: set<Matchup>, g: Game): (r: (TeamMap, set<Matchup>))
    requires Valid(m)
    ensures Valid(r.0) && SameKeys(r.0, m)
    ensures r.0 == Step(m, MatchupOf(g) in open, g).0
    ensures MatchupOf(g) in r.1 <==> Step(m, MatchupOf(g) in open, g).1
    ensures r.1 - {MatchupOf(g)} == open - {MatchupOf(g)}
    ensures IsPostponed(g) ==> r == (m, open)
    ensures !IsDoubleHeader(g) ==> r.1 == open
  {
    var mu := MatchupOf(g);
    if IsPostponed(g) then (m, open)
    else
      var (m1, up) := Step(m, mu in open, g);
      (m1, if up then open + {mu} else open - {mu})
  }

  /** The games of one day in the order received, no matchup open at the start. */
  function ProcessGamesKeyed(m: TeamMap, gs: seq<Game>): (r: (TeamMap, set<Matchup>))
    requires Valid(m)
    ensures Valid(r.0) && SameKeys(r.0, m)
    decreases |gs|
  {
    if gs == [] then (m, {})
    else
      var before := ProcessGamesKeyed(m, gs[..|gs| - 1]);
      StepKeyed(before.0, before.1, gs[|gs| - 1])
  }

  /** One more game at the end of the day is one more step of the fold. */
  lemma ProcessGamesKeyedSnoc(m: TeamMap, gs: seq<Game>, g: Game)
    requires Valid(m)
    ensures ProcessGamesKeyed(m, gs + [g]) ==
      StepKeyed(ProcessGamesKeyed(m, gs).0, ProcessGamesKeyed(m, gs).1, g)
  {
    assert (gs + [g])[..|gs|] == gs;
  }

  /** The days in order, each day's games then the end-of-day pass of `Fill`. */
  function ParseScheduleKeyed(roster: Roster, days: seq<Day>): (r: TeamMap)
    requires Valid(roster)
    ensures Valid(r) && r.keys == roster.keys && r.values.Keys == roster.values.Keys
    decreases |days|
  {
    if days == [] then Init(roster)
    else
      var before := ParseScheduleKeyed(roster, days[..|days| - 1]);
      Fill(ProcessGamesKeyed(before, days[|days| - 1].games).0, |days|)
  }
}
