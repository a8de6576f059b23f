/** What `parseScheduleData` guarantees for every input: how the doubleheader flag
    evolves over a day, and that every game in the result is a non-postponed game
    of the input. Also the vocabulary of one entry per team per day, which module
    `DayShapes` proves for the days where it holds, and the lone-doubleheader
    scenario. */
module ScheduleProperties {
  import opened Wrappers
  import opened OrderedMaps
  import opened MlbTypes
  import opened ScheduleData

  /** Number of non-postponed games marked "Y" among `gs`. */
  function DoubleHeaderLegs(gs: seq<Game>): nat
    decreases |gs|
  {
    if gs == [] then 0
    else
      var g := gs[|gs| - 1];
      DoubleHeaderLegs(gs[..|gs| - 1]) + (if !IsPostponed(g) && IsDoubleHeader(g) then 1 else 0)
  }

  /** The flag is shared by every game of the day: after any prefix of the day's
      games it is up exactly when an odd number of non-postponed "Y" games has been
      seen, whichever teams they involve. */
  lemma {:induction false} FlagParity(m: TeamMap, gs: seq<Game>)
    requires Valid(m)
    ensures ProcessGames(m, gs).1 <==> DoubleHeaderLegs(gs) % 2 == 1
    decreases |gs|
  {
    if gs != [] {
      FlagParity(m, gs[..|gs| - 1]);
    }
  }

  /** The non-postponed games of the whole input. */
  ghost function PlayedGames(days: seq<Day>): set<Game>
  {
    set d, i | 0 <= d < |days| && 0 <= i < |days[d].games| && !IsPostponed(days[d].games[i]) :: days[d].games[i]
  }

  /** An entry of team `k` draws on `pool`: a single game involves `k`; a pair's
      second game is a "Y" game involving `k`; every game in it is in the pool. */
  ghost predicate SlotDrawnFrom(s: Slot, k: string, pool: set<Game>)
  {
    match s
    case Empty => true
    case Single(g) => g in pool && Involves(g, k)
    case Pair(g1, g2) => g1 in pool && g2 in pool && IsDoubleHeader(g2) && Involves(g2, k)
  }

  ghost predicate DrawnFrom(m: TeamMap, pool: set<Game>)
  {
    forall k, i :: k in m.values && 0 <= i < |m.values[k]| ==> SlotDrawnFrom(m.values[k][i], k, pool)
  }

  lemma DrawnFromGrows(m: TeamMap, p: set<Game>, q: set<Game>)
    requires DrawnFrom(m, p) && p <= q
    ensures DrawnFrom(m, q)
  {
  }

  lemma PushBothDrawn(m: TeamMap, g: Game, pool: set<Game>)
    requires Valid(m) && DrawnFrom(m, pool) && g in pool
    ensures DrawnFrom(PushBoth(m, g, Single(g)), pool)
  {
    var r := PushBoth(m, g, Single(g));
    forall k, i | k in r.values && 0 <= i < |r.values[k]|
      ensures SlotDrawnFrom(r.values[k][i], k, pool)
    {
      var before := m.values[k];
      if i >= |before| {
        assert r.values[k][i] in BothSides(g, k, Single(g));
      } else {
        assert r.values[k][i] == before[i];
      }
    }
  }

  lemma PopDrawn(m: TeamMap, team: string, pool: set<Game>)
    requires Valid(m) && DrawnFrom(m, pool)
    ensures DrawnFrom(Pop(m, team).1, pool)
    ensures Pop(m, team).0.Some? ==> SlotDrawnFrom(Pop(m, team).0.value, team, pool)
  {
    var (e, r) := Pop(m, team);
    if e.Some? {
      assert m.values[team] == r.values[team] + [e.value];
      assert e.value == m.values[team][|m.values[team]| - 1];
      forall k, i | k in r.values && 0 <= i < |r.values[k]|
        ensures SlotDrawnFrom(r.values[k][i], k, pool)
      {
        assert r.values[k][i] == m.values[k][i];
      }
    }
  }

  lemma SecondLegDrawn(m: TeamMap, g: Game, pool: set<Game>)
    requires Valid(m) && DrawnFrom(m, pool) && g in pool && IsDoubleHeader(g)
    ensures DrawnFrom(SecondLeg(m, g), pool)
  {
    var (existing, m1) := Pop(m, HomeName(g));
    PopDrawn(m, HomeName(g), pool);
    var (_, m2) := Pop(m1, AwayName(g));
    PopDrawn(m1, AwayName(g), pool);
    if existing.Some? && existing.value.Single? {
      var merged := Pair(existing.value.game, g);
      var r := PushBoth(m2, g, merged);
      forall k, i | k in r.values && 0 <= i < |r.values[k]|
        ensures SlotDrawnFrom(r.values[k][i], k, pool)
      {
        if i >= |m2.values[k]| {
          assert r.values[k][i] in BothSides(g, k, merged);
        } else {
          assert r.values[k][i] == m2.values[k][i];
        }
      }
    }
  }

  lemma StepDrawn(m: TeamMap, flag: bool, g: Game, pool: set<Game>)
    requires Valid(m) && DrawnFrom(m, pool)
    requires !IsPostponed(g) ==> g in pool
    ensures DrawnFrom(Step(m, flag, g).0, pool)
  {
    if !IsPostponed(g) {
      if IsDoubleHeader(g) && flag {
        SecondLegDrawn(m, g, pool);
      } else {
        PushBothDrawn(m, g, pool);
      }
    }
  }

  lemma {:induction false} ProcessGamesDrawn(m: TeamMap, gs: seq<Game>, pool: set<Game>)
    requires Valid(m) && DrawnFrom(m, pool)
    requires forall i :: 0 <= i < |gs| && !IsPostponed(gs[i]) ==> gs[i] in pool
    ensures DrawnFrom(ProcessGames(m, gs).0, pool)
    decreases |gs|
  {
    if gs != [] {
      var front := gs[..|gs| - 1];
      ProcessGamesDrawn(m, front, pool);
      var before := ProcessGames(m, front);
      StepDrawn(before.0, before.1, gs[|gs| - 1], pool);
    }
  }

  lemma FillDrawn(m: TeamMap, n: nat, pool: set<Game>)
    requires Valid(m) && DrawnFrom(m, pool)
    ensures DrawnFrom(Fill(m, n), pool)
  {
    var r := Fill(m, n);
    forall k, i | k in r.values && 0 <= i < |r.values[k]|
      ensures SlotDrawnFrom(r.values[k][i], k, pool)
    {
      if i < |m.values[k]| {
        assert r.values[k][i] == m.values[k][i];
      }
    }
  }

  /** Whatever the input, every game in the result is a non-postponed game of the
      input; a single game involves the team it is listed for, and so does the
      second game of a pair, which is marked "Y". */
  lemma {:induction false} ParseDrawsFromInput(roster: Roster, days: seq<Day>)
    requires Valid(roster)
    ensures DrawnFrom(ParseSchedule(roster, days), PlayedGames(days))
    decreases |days|
  {
    if days == [] {
    } else {
      var front := days[..|days| - 1];
      var last := days[|days| - 1];
      ParseDrawsFromInput(roster, front);
      var before := ParseSchedule(roster, front);
      assert PlayedGames(front) <= PlayedGames(days) by {
        forall g | g in PlayedGames(front)
          ensures g in PlayedGames(days)
        {
          var d, i :| 0 <= d < |front| && 0 <= i < |front[d].games| && !IsPostponed(front[d].games[i])
                      && front[d].games[i] == g;
          assert days[d] == front[d];
        }
      }
      DrawnFromGrows(before, PlayedGames(front), PlayedGames(days));
      forall i | 0 <= i < |last.games| && !IsPostponed(last.games[i])
        ensures last.games[i] in PlayedGames(days)
      {
        assert days[|days| - 1].games[i] == last.games[i];
      }
      ProcessGamesDrawn(before, last.games, PlayedGames(days));
      FillDrawn(ProcessGames(before, last.games).0, |days|, PlayedGames(days));
    }
  }

  /** Team `k` plays a game that is not postponed among `gs`. */
  ghost predicate PlaysOn(gs: seq<Game>, k: string)
  {
    exists i :: 0 <= i < |gs| && !IsPostponed(gs[i]) && Involves(gs[i], k)
  }

  /** An entry that belongs to team `k` on a day with games `gs`: `null`, one of
      the day's non-postponed games involving `k`, or two of the day's non-postponed
      "Y" games involving `k`, the earlier one first. */
  ghost predicate SlotOfDay(s: Slot, gs: seq<Game>, k: string)
  {
    match s
    case Empty => true
    case Single(g) => exists i :: 0 <= i < |gs| && gs[i] == g && !IsPostponed(g) && Involves(g, k)
    case Pair(g1, g2) =>
      exists i, j :: 0 <= i < j < |gs| && gs[i] == g1 && gs[j] == g2
                     && !IsPostponed(g1) && !IsPostponed(g2)
                     && IsDoubleHeader(g1) && IsDoubleHeader(g2)
                     && Involves(g1, k) && Involves(g2, k)
  }

  lemma SlotOfDayExtends(s: Slot, gs: seq<Game>, k: string)
    requires |gs| > 0 && SlotOfDay(s, gs[..|gs| - 1], k)
    ensures SlotOfDay(s, gs, k)
  {
    var front := gs[..|gs| - 1];
    match s
    case Empty =>
    case Single(g) =>
      var i :| 0 <= i < |front| && front[i] == g && !IsPostponed(g) && Involves(g, k);
      assert gs[i] == g;
    case Pair(g1, g2) =>
      var i, j :| 0 <= i < j < |front| && front[i] == g1 && front[j] == g2
                  && !IsPostponed(g1) && !IsPostponed(g2)
                  && IsDoubleHeader(g1) && IsDoubleHeader(g2)
                  && Involves(g1, k) && Involves(g2, k);
      assert gs[i] == g1 && gs[j] == g2;
  }

  /** `r` is `m0` with one entry appended to every list, belonging to a day with
      games `gs`, and `null` for a team that played none of them. */
  ghost predicate OneEntryAppended(m0: TeamMap, n: nat, gs: seq<Game>, r: TeamMap)
  {
    && SameKeys(r, m0)
    && forall k :: k in r.values ==>
         && |r.values[k]| == n + 1 && r.values[k][..n] == m0.values[k]
         && SlotOfDay(r.values[k][n], gs, k)
         && (!PlaysOn(gs, k) ==> r.values[k][n] == Empty)
  }

  /** Every list has exactly one entry per day; entry `d` belongs to day `d` (a game
      of that day involving the team, or that day's doubleheader pair in order); and
      it is `null` when the team played no non-postponed game that day. */
  ghost predicate OneEntryPerDay(r: TeamMap, days: seq<Day>)
  {
    && (forall k :: k in r.values ==> |r.values[k]| == |days|)
    && (forall k, d :: k in r.values && 0 <= d < |days| ==> SlotOfDay(r.values[k][d], days[d].games, k))
    && (forall k, d :: k in r.values && 0 <= d < |days| && !PlaysOn(days[d].games, k) ==>
          r.values[k][d] == Empty)
  }

  lemma OneEntryPerDayExtends(before: TeamMap, r: TeamMap, days: seq<Day>)
    requires |days| > 0
    requires OneEntryPerDay(before, days[..|days| - 1])
    requires OneEntryAppended(before, |days| - 1, days[|days| - 1].games, r)
    ensures OneEntryPerDay(r, days)
  {
    var n := |days| - 1;
    var front := days[..n];
    forall k, d | k in r.values && 0 <= d < |days|
      ensures SlotOfDay(r.values[k][d], days[d].games, k)
      ensures !PlaysOn(days[d].games, k) ==> r.values[k][d] == Empty
    {
      if d < n {
        assert r.values[k][d] == r.values[k][..n][d] == before.values[k][d];
        assert days[d] == front[d];
      }
    }
  }

  /** A game whose two teams are both outside the roster changes no list, whatever
      its status or doubleheader marker; only the flag may move. */
  lemma UnknownTeamsIgnored(m: TeamMap, flag: bool, g: Game)
    requires Valid(m)
    requires HomeName(g) !in m.values && AwayName(g) !in m.values
    ensures Step(m, flag, g).0 == m
  {
  }

  /** The first leg of a doubleheader, first game of the day: appended as a single
      game for both teams, flag raised. */
  lemma FirstLegPushed(m0: TeamMap, g1: Game)
    requires Valid(m0)
    requires !IsPostponed(g1) && IsDoubleHeader(g1) && HomeName(g1) != AwayName(g1)
    ensures ProcessGames(m0, [g1]).1
    ensures forall k :: k in m0.values ==>
      ProcessGames(m0, [g1]).0.values[k] == m0.values[k] + (if Involves(g1, k) then [Single(g1)] else [])
  {
    assert [g1][..0] == [];
    forall k | k in m0.values
      ensures BothSides(g1, k, Single(g1)) == (if Involves(g1, k) then [Single(g1)] else [])
    {
    }
  }

  /** The second leg answering a first leg that was pushed last: both teams'
      singles become the pair, no other list changes. */
  lemma SecondLegMergesPair(m0: TeamMap, m1: TeamMap, g1: Game, g2: Game)
    requires Valid(m0) && Valid(m1) && SameKeys(m1, m0)
    requires MatchupOf(g2) == MatchupOf(g1) && HomeName(g1) != AwayName(g1)
    requires HomeName(g2) in m0.values
    requires forall k :: k in m0.values ==>
      m1.values[k] == m0.values[k] + (if Involves(g1, k) then [Single(g1)] else [])
    ensures forall k :: k in m0.values ==>
      SecondLeg(m1, g2).values[k] == m0.values[k] + (if Involves(g1, k) then [Pair(g1, g2)] else [])
  {
    assert Involves(g1, HomeName(g2));
    assert LastEntry(m1, HomeName(g2)) == Some(Single(g1));
    forall k | k in m0.values && Involves(g1, k)
      ensures DropLast(m1.values[k]) == m0.values[k]
    {
    }
  }

  /** The two legs of a doubleheader, before the end-of-day pass: both teams' lists
      gain the pair, no other list changes. The nightcap may swap home and away; the
      list it pops is its own home team's, which must be in the roster. */
  lemma DoubleHeaderPairs(m0: TeamMap, g1: Game, g2: Game)
    requires Valid(m0)
    requires !IsPostponed(g1) && !IsPostponed(g2) && IsDoubleHeader(g1) && IsDoubleHeader(g2)
    requires MatchupOf(g2) == MatchupOf(g1) && HomeName(g1) != AwayName(g1)
    requires HomeName(g2) in m0.values
    ensures forall k :: k in m0.values ==>
      ProcessGames(m0, [g1, g2]).0.values[k] == m0.values[k] + (if Involves(g1, k) then [Pair(g1, g2)] else [])
  {
    FirstLegPushed(m0, g1);
    var m1 := ProcessGames(m0, [g1]).0;
    ProcessGamesSnoc(m0, [g1], g2);
    assert [g1] + [g2] == [g1, g2];
    assert Step(m1, true, g2).0 == SecondLeg(m1, g2);
    SecondLegMergesPair(m0, m1, g1, g2);
  }

  /** The end-of-day pass after the two legs: the pair, or `null` for every other team. */
  lemma FillAfterPairs(m0: TeamMap, n: nat, m2: TeamMap, g1: Game, g2: Game)
    requires Valid(m0) && Valid(m2) && SameKeys(m2, m0)
    requires forall k :: k in m0.values ==> |m0.values[k]| == n
    requires forall k :: k in m0.values ==>
      m2.values[k] == m0.values[k] + (if Involves(g1, k) then [Pair(g1, g2)] else [])
    ensures forall k :: k in m0.values ==>
      Fill(m2, n + 1).values[k] == m0.values[k] + [if Involves(g1, k) then Pair(g1, g2) else Empty]
  {
    forall k | k in m0.values
      ensures Fill(m2, n + 1).values[k] == m0.values[k] + [if Involves(g1, k) then Pair(g1, g2) else Empty]
    {
      if Involves(g1, k) {
        assert |m2.values[k]| == n + 1;
      } else {
        assert |m2.values[k]| == n;
      }
    }
  }

  /** The two legs of a doubleheader between two roster teams, alone on a day that
      started with every list of length `n`: after the end-of-day pass both teams
      have the pair (earlier game first) as that day's single entry, and every
      other team has `null`. */
  lemma DoubleHeaderMerges(m0: TeamMap, n: nat, g1: Game, g2: Game)
    requires Valid(m0)
    requires forall k :: k in m0.values ==> |m0.values[k]| == n
    requires !IsPostponed(g1) && !IsPostponed(g2) && IsDoubleHeader(g1) && IsDoubleHeader(g2)
    requires MatchupOf(g2) == MatchupOf(g1) && HomeName(g1) != AwayName(g1)
    requires HomeName(g2) in m0.values
    ensures forall k :: k in m0.values ==>
      Fill(ProcessGames(m0, [g1, g2]).0, n + 1).values[k] == m0.values[k] + [if Involves(g1, k) then Pair(g1, g2) else Empty]
  {
    DoubleHeaderPairs(m0, g1, g2);
    FillAfterPairs(m0, n, ProcessGames(m0, [g1, g2]).0, g1, g2);
  }
}
