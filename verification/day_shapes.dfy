/** One entry per team per day. The per-matchup merge of `ScheduleKeyed` gives it on
    every day where each team plays one matchup at most. The day-wide flag of
    `parseScheduleData` gives it only on the narrower days where at most one first
    leg is unanswered at a time, because on those days the two merges agree. Two
    doubleheaders whose games interleave separate them. */
module DayShapes {
  import opened Wrappers
  import opened OrderedMaps
  import opened MlbTypes
  import opened ScheduleData
  import opened ScheduleKeyed
  import opened ScheduleProperties

  /** Bookkeeping for a day whose games give every team at most one slot: `pending`
      maps each matchup with an unanswered first doubleheader leg to that leg's index,
      and `used` holds the teams that already have their slot. `ok` turns false, for
      good, at the first game that would give a team a second slot. */
  datatype KeyedTrack = KeyedTrack(ok: bool, pending: map<Matchup, nat>, used: set<string>)

  /** `gs[p]` is a first doubleheader leg of matchup `mu`, between two distinct teams
      that both have their slot. */
  ghost predicate PendingLeg(gs: seq<Game>, p: nat, mu: Matchup, used: set<string>)
  {
    && p < |gs| && !IsPostponed(gs[p]) && IsDoubleHeader(gs[p]) && MatchupOf(gs[p]) == mu
    && mu.one != mu.other && mu.one in used && mu.other in used
  }

  /** Every pending leg of tracker `t` is a first leg of `gs` between two teams with their slot. */
  ghost predicate PendingLegs(gs: seq<Game>, t: KeyedTrack)
  {
    forall mu :: mu in t.pending ==> PendingLeg(gs, t.pending[mu], mu, t.used)
  }

  function TrackKeyed(gs: seq<Game>): (t: KeyedTrack)
    ensures forall mu :: mu in t.pending ==> PendingLeg(gs, t.pending[mu], mu, t.used)
    decreases |gs|
  {
    if gs == [] then KeyedTrack(true, map[], {})
    else
      var front := gs[..|gs| - 1];
      var t := TrackKeyed(front);
      var g := gs[|gs| - 1];
      var mu := MatchupOf(g);
      if !t.ok || IsPostponed(g) then t
      else if IsDoubleHeader(g) && mu in t.pending then KeyedTrack(true, t.pending - {mu}, t.used)
      else if mu.one != mu.other && mu.one !in t.used && mu.other !in t.used then
        KeyedTrack(true, if IsDoubleHeader(g) then t.pending[mu := |gs| - 1] else t.pending,
                   t.used + {mu.one, mu.other})
      else KeyedTrack(false, map[], t.used)
  }

  /** Every team plays one matchup at most: each game is between two distinct teams
      that have no slot yet, or is a "Y" game answering the unanswered first leg of
      its own matchup. Doubleheaders of different matchups may interleave. */
  predicate OneMatchupPerTeam(gs: seq<Game>)
  {
    TrackKeyed(gs).ok
  }

  ghost predicate OneMatchupPerTeamEachDay(days: seq<Day>)
  {
    forall d :: 0 <= d < |days| ==> OneMatchupPerTeam(days[d].games)
  }

  /** One team's list part-way through a day that started with list `l0` of length
      `n`: the first `n` entries are kept and at most one is added, which belongs to
      the day; a team without a slot yet has nothing added; a team of an unanswered
      first leg holds that game as its added entry. */
  ghost predicate EntryOk(l0: seq<Slot>, n: nat, gs: seq<Game>, t: KeyedTrack, l: seq<Slot>, k: string)
  {
    && n <= |l| <= n + 1 && l[..n] == l0
    && (k !in t.used ==> |l| == n)
    && (|l| == n + 1 ==> SlotOfDay(l[n], gs, k))
    && (forall mu :: mu in t.pending && (k == mu.one || k == mu.other) && t.pending[mu] < |gs| ==>
          |l| == n + 1 && l[n] == Single(gs[t.pending[mu]]))
  }

  /** The per-matchup state part-way through a day that started from `m0` with
      every list of length `n`. */
  ghost predicate DayInvariant(m0: TeamMap, n: nat, gs: seq<Game>, m: TeamMap, open: set<Matchup>)
  {
    && Valid(m) && SameKeys(m, m0)
    && open == TrackKeyed(gs).pending.Keys
    && forall k :: k in m.values ==> EntryOk(m0.values[k], n, gs, TrackKeyed(gs), m.values[k], k)
  }

  /** How the tracker moves over a game that gives its two teams their slot. */
  lemma TrackPush(gs: seq<Game>)
    requires |gs| > 0 && TrackKeyed(gs).ok && !IsPostponed(gs[|gs| - 1])
    requires !(IsDoubleHeader(gs[|gs| - 1]) && MatchupOf(gs[|gs| - 1]) in TrackKeyed(gs[..|gs| - 1]).pending)
    ensures var g := gs[|gs| - 1];
      var tf := TrackKeyed(gs[..|gs| - 1]);
      && HomeName(g) != AwayName(g) && HomeName(g) !in tf.used && AwayName(g) !in tf.used
      && TrackKeyed(gs).used == tf.used + {HomeName(g), AwayName(g)}
      && TrackKeyed(gs).pending ==
           (if IsDoubleHeader(g) then tf.pending[MatchupOf(g) := |gs| - 1] else tf.pending)
  {
  }

  /** How the tracker moves over a second leg. */
  lemma TrackSecondLeg(gs: seq<Game>)
    requires |gs| > 0 && TrackKeyed(gs).ok && !IsPostponed(gs[|gs| - 1])
    requires IsDoubleHeader(gs[|gs| - 1]) && MatchupOf(gs[|gs| - 1]) in TrackKeyed(gs[..|gs| - 1]).pending
    ensures var tf := TrackKeyed(gs[..|gs| - 1]);
      && TrackKeyed(gs).used == tf.used
      && TrackKeyed(gs).pending == tf.pending - {MatchupOf(gs[|gs| - 1])}
  {
  }

  /** One team's list over a game that gives both its teams their slot. */
  lemma PushEntryOk(l0: seq<Slot>, n: nat, gs: seq<Game>, tf: KeyedTrack, t: KeyedTrack, l: seq<Slot>, k: string)
    requires |gs| > 0
    requires EntryOk(l0, n, gs[..|gs| - 1], tf, l, k)
    requires forall mu :: mu in tf.pending ==> PendingLeg(gs[..|gs| - 1], tf.pending[mu], mu, tf.used)
    requires var g := gs[|gs| - 1];
      && !IsPostponed(g) && HomeName(g) != AwayName(g)
      && HomeName(g) !in tf.used && AwayName(g) !in tf.used
      && t.used == tf.used + {HomeName(g), AwayName(g)}
      && t.pending == (if IsDoubleHeader(g) then tf.pending[MatchupOf(g) := |gs| - 1] else tf.pending)
    ensures EntryOk(l0, n, gs, t, l + BothSides(gs[|gs| - 1], k, Single(gs[|gs| - 1])), k)
  {
    var front := gs[..|gs| - 1];
    var g := gs[|gs| - 1];
    var r := l + BothSides(g, k, Single(g));
    if Involves(g, k) {
      assert BothSides(g, k, Single(g)) == [Single(g)];
      assert |l| == n;
      assert r[..n] == l0;
      assert SlotOfDay(Single(g), gs, k) by {
        assert gs[|gs| - 1] == g;
      }
    } else {
      assert BothSides(g, k, Single(g)) == [];
      assert r == l;
      if |l| == n + 1 {
        SlotOfDayExtends(l[n], gs, k);
      }
      forall mu | mu in t.pending && (k == mu.one || k == mu.other) && t.pending[mu] < |gs|
        ensures |r| == n + 1 && r[n] == Single(gs[t.pending[mu]])
      {
        assert mu in tf.pending && mu != MatchupOf(g);
        var p := tf.pending[mu];
        assert PendingLeg(front, p, mu, tf.used);
        assert gs[p] == front[p];
      }
    }
  }

  /** One team's list over the second leg answering the pending first leg of its matchup. */
  lemma SecondLegEntryOk(l0: seq<Slot>, n: nat, gs: seq<Game>, p: nat, tf: KeyedTrack, t: KeyedTrack,
                         l: seq<Slot>, added: seq<Slot>, k: string)
    requires |gs| > 0 && p < |gs| - 1
    requires EntryOk(l0, n, gs[..|gs| - 1], tf, l, k)
    requires forall mu :: mu in tf.pending ==> PendingLeg(gs[..|gs| - 1], tf.pending[mu], mu, tf.used)
    requires var g := gs[|gs| - 1];
      && !IsPostponed(g) && IsDoubleHeader(g) && MatchupOf(g) in tf.pending && tf.pending[MatchupOf(g)] == p
      && t.pending == tf.pending - {MatchupOf(g)} && t.used == tf.used
    requires added == [] || added == [Pair(gs[p], gs[|gs| - 1])]
    ensures EntryOk(l0, n, gs, t, if Involves(gs[|gs| - 1], k) then DropLast(l) + added else l, k)
  {
    var front := gs[..|gs| - 1];
    var g := gs[|gs| - 1];
    var mu0 := MatchupOf(g);
    assert PendingLeg(front, p, mu0, tf.used);
    assert front[p] == gs[p];
    if Involves(g, k) {
      assert k == mu0.one || k == mu0.other;
      assert |l| == n + 1 && l[n] == Single(gs[p]);
      assert DropLast(l) == l0;
      var r := DropLast(l) + added;
      if added != [] {
        assert r[..n] == l0;
        assert SlotOfDay(Pair(gs[p], g), gs, k) by {
          assert gs[|gs| - 1] == g;
        }
      }
    } else {
      if |l| == n + 1 {
        SlotOfDayExtends(l[n], gs, k);
      }
      forall mu | mu in t.pending && (k == mu.one || k == mu.other) && t.pending[mu] < |gs|
        ensures |l| == n + 1 && l[n] == Single(gs[t.pending[mu]])
      {
        var q := tf.pending[mu];
        assert PendingLeg(front, q, mu, tf.used);
        assert gs[q] == front[q];
      }
    }
  }

  /** Part-way through a day, either team of an unanswered first leg ends its list
      with that game. */
  lemma PendingIsLast(m0: TeamMap, n: nat, gs: seq<Game>, m: TeamMap, open: set<Matchup>, mu: Matchup, k: string)
    requires DayInvariant(m0, n, gs, m, open)
    requires mu in TrackKeyed(gs).pending && (k == mu.one || k == mu.other) && k in m.values
    ensures LastEntry(m, k) == Some(Single(gs[TrackKeyed(gs).pending[mu]]))
  {
    assert EntryOk(m0.values[k], n, gs, TrackKeyed(gs), m.values[k], k);
  }

  /** The second leg answering its matchup's pending first leg, given the lists it
      produces: the two teams' lists lose their last entry and gain `added`. */
  lemma SecondLegKeepsInvariant(m0: TeamMap, n: nat, gs: seq<Game>, p: nat, m: TeamMap, open: set<Matchup>,
                                r: TeamMap, added: seq<Slot>)
    requires Valid(m0) && |gs| > 0 && TrackKeyed(gs).ok
    requires DayInvariant(m0, n, gs[..|gs| - 1], m, open)
    requires !IsPostponed(gs[|gs| - 1]) && IsDoubleHeader(gs[|gs| - 1])
    requires MatchupOf(gs[|gs| - 1]) in TrackKeyed(gs[..|gs| - 1]).pending
    requires TrackKeyed(gs[..|gs| - 1]).pending[MatchupOf(gs[|gs| - 1])] == p
    requires added == [] || (p < |gs| && added == [Pair(gs[p], gs[|gs| - 1])])
    requires Valid(r) && SameKeys(r, m)
    requires forall k :: k in m.values ==>
      r.values[k] == if Involves(gs[|gs| - 1], k) then DropLast(m.values[k]) + added else m.values[k]
    ensures DayInvariant(m0, n, gs, r, open - {MatchupOf(gs[|gs| - 1])})
  {
    var front := gs[..|gs| - 1];
    var tf := TrackKeyed(front);
    var t := TrackKeyed(gs);
    TrackSecondLeg(gs);
    assert PendingLeg(front, p, MatchupOf(gs[|gs| - 1]), tf.used);
    forall k | k in r.values
      ensures EntryOk(m0.values[k], n, gs, t, r.values[k], k)
    {
      assert EntryOk(m0.values[k], n, front, tf, m.values[k], k);
      SecondLegEntryOk(m0.values[k], n, gs, p, tf, t, m.values[k], added, k);
    }
  }

  /** A game that gives both its teams their slot for the day. */
  lemma PushKeepsInvariant(m0: TeamMap, n: nat, gs: seq<Game>, m: TeamMap, open: set<Matchup>)
    requires Valid(m0) && |gs| > 0 && TrackKeyed(gs).ok
    requires DayInvariant(m0, n, gs[..|gs| - 1], m, open)
    requires !IsPostponed(gs[|gs| - 1])
    requires !(IsDoubleHeader(gs[|gs| - 1]) && MatchupOf(gs[|gs| - 1]) in open)
    ensures DayInvariant(m0, n, gs, PushBoth(m, gs[|gs| - 1], Single(gs[|gs| - 1])),
                         if IsDoubleHeader(gs[|gs| - 1]) then open + {MatchupOf(gs[|gs| - 1])} else open)
  {
    var front := gs[..|gs| - 1];
    var g := gs[|gs| - 1];
    var tf := TrackKeyed(front);
    var t := TrackKeyed(gs);
    TrackPush(gs);
    assert PendingLegs(front, tf);
    PushAllEntriesOk(m0, n, gs, tf, t, m);
    PushedKeys(open, tf.pending, t.pending, g, |gs| - 1);
  }

  /** The open matchups follow the tracker's pending legs over a pushed game. */
  lemma PushedKeys(open: set<Matchup>, pending: map<Matchup, nat>, pending': map<Matchup, nat>, g: Game, i: nat)
    requires open == pending.Keys
    requires pending' == if IsDoubleHeader(g) then pending[MatchupOf(g) := i] else pending
    ensures (if IsDoubleHeader(g) then open + {MatchupOf(g)} else open) == pending'.Keys
  {
  }

  /** Every list over a game that gives both its teams their slot. */
  lemma PushAllEntriesOk(m0: TeamMap, n: nat, gs: seq<Game>, tf: KeyedTrack, t: KeyedTrack, m: TeamMap)
    requires Valid(m0) && Valid(m) && SameKeys(m, m0) && |gs| > 0
    requires forall k :: k in m.values ==> EntryOk(m0.values[k], n, gs[..|gs| - 1], tf, m.values[k], k)
    requires PendingLegs(gs[..|gs| - 1], tf)
    requires var g := gs[|gs| - 1];
      && !IsPostponed(g) && HomeName(g) != AwayName(g)
      && HomeName(g) !in tf.used && AwayName(g) !in tf.used
      && t.used == tf.used + {HomeName(g), AwayName(g)}
      && t.pending == (if IsDoubleHeader(g) then tf.pending[MatchupOf(g) := |gs| - 1] else tf.pending)
    ensures var r := PushBoth(m, gs[|gs| - 1], Single(gs[|gs| - 1]));
      forall k :: k in r.values ==> EntryOk(m0.values[k], n, gs, t, r.values[k], k)
  {
    var g := gs[|gs| - 1];
    var r := PushBoth(m, g, Single(g));
    forall k | k in r.values
      ensures EntryOk(m0.values[k], n, gs, t, r.values[k], k)
    {
      PushEntryOk(m0.values[k], n, gs, tf, t, m.values[k], k);
    }
  }

  lemma PostponedKeepsInvariant(m0: TeamMap, n: nat, gs: seq<Game>, m: TeamMap, open: set<Matchup>)
    requires Valid(m0) && |gs| > 0 && TrackKeyed(gs).ok
    requires DayInvariant(m0, n, gs[..|gs| - 1], m, open)
    requires IsPostponed(gs[|gs| - 1])
    ensures DayInvariant(m0, n, gs, m, open)
  {
    var front := gs[..|gs| - 1];
    var t := TrackKeyed(gs);
    assert t == TrackKeyed(front);
    forall k | k in m.values
      ensures EntryOk(m0.values[k], n, gs, t, m.values[k], k)
    {
      assert EntryOk(m0.values[k], n, front, t, m.values[k], k);
      if |m.values[k]| == n + 1 {
        SlotOfDayExtends(m.values[k][n], gs, k);
      }
      forall mu | mu in t.pending && t.pending[mu] < |gs|
        ensures gs[t.pending[mu]] == front[t.pending[mu]]
      {
        assert PendingLeg(front, t.pending[mu], mu, t.used);
      }
    }
  }

  /** The second leg of its matchup's pending first leg, as the merge performs it. */
  lemma SecondLegStep(m0: TeamMap, n: nat, gs: seq<Game>, m: TeamMap, open: set<Matchup>)
    requires Valid(m0) && |gs| > 0 && TrackKeyed(gs).ok
    requires DayInvariant(m0, n, gs[..|gs| - 1], m, open)
    requires !IsPostponed(gs[|gs| - 1]) && IsDoubleHeader(gs[|gs| - 1]) && MatchupOf(gs[|gs| - 1]) in open
    ensures DayInvariant(m0, n, gs, SecondLeg(m, gs[|gs| - 1]), open - {MatchupOf(gs[|gs| - 1])})
  {
    var front := gs[..|gs| - 1];
    var g := gs[|gs| - 1];
    var mu := MatchupOf(g);
    var p := TrackKeyed(front).pending[mu];
    assert PendingLeg(front, p, mu, TrackKeyed(front).used);
    var existing := LastEntry(m, HomeName(g));
    var added := if existing.Some? && existing.value.Single? then [Pair(existing.value.game, g)] else [];
    assert added == [] || added == [Pair(gs[p], g)] by {
      assert front[p] == gs[p];
      if HomeName(g) in m.values {
        PendingIsLast(m0, n, front, m, open, mu, HomeName(g));
      }
    }
    SecondLegKeepsInvariant(m0, n, gs, p, m, open, SecondLeg(m, g), added);
  }

  lemma DayInvariantStep(m0: TeamMap, n: nat, gs: seq<Game>, m: TeamMap, open: set<Matchup>)
    requires Valid(m0) && |gs| > 0 && TrackKeyed(gs).ok
    requires DayInvariant(m0, n, gs[..|gs| - 1], m, open)
    ensures DayInvariant(m0, n, gs, StepKeyed(m, open, gs[|gs| - 1]).0, StepKeyed(m, open, gs[|gs| - 1]).1)
  {
    var g := gs[|gs| - 1];
    var mu := MatchupOf(g);
    if IsPostponed(g) {
      assert StepKeyed(m, open, g) == (m, open);
      PostponedKeepsInvariant(m0, n, gs, m, open);
    } else if IsDoubleHeader(g) && mu in open {
      assert StepKeyed(m, open, g) == (SecondLeg(m, g), open - {mu});
      SecondLegStep(m0, n, gs, m, open);
    } else {
      assert StepKeyed(m, open, g).0 == PushBoth(m, g, Single(g));
      assert IsDoubleHeader(g) ==> StepKeyed(m, open, g).1 == open + {mu};
      PushKeepsInvariant(m0, n, gs, m, open);
    }
  }

  lemma {:induction false} DayShape(m0: TeamMap, n: nat, gs: seq<Game>)
    requires Valid(m0)
    requires forall k :: k in m0.values ==> |m0.values[k]| == n
    requires OneMatchupPerTeam(gs)
    ensures DayInvariant(m0, n, gs, ProcessGamesKeyed(m0, gs).0, ProcessGamesKeyed(m0, gs).1)
    decreases |gs|
  {
    if gs == [] {
      forall k | k in m0.values
        ensures m0.values[k][..n] == m0.values[k]
      {
      }
    } else {
      var front := gs[..|gs| - 1];
      assert TrackKeyed(front).ok;
      DayShape(m0, n, front);
      var before := ProcessGamesKeyed(m0, front);
      DayInvariantStep(m0, n, gs, before.0, before.1);
    }
  }

  /** On a day where every team plays one matchup at most, every team that plays a
      non-postponed game has its slot marked as used. */
  lemma {:induction false} TrackCoversPlayers(gs: seq<Game>)
    requires OneMatchupPerTeam(gs)
    ensures forall k :: PlaysOn(gs, k) ==> k in TrackKeyed(gs).used
    decreases |gs|
  {
    if gs != [] {
      var front := gs[..|gs| - 1];
      var g := gs[|gs| - 1];
      assert TrackKeyed(front).ok;
      TrackCoversPlayers(front);
      assert TrackKeyed(front).used <= TrackKeyed(gs).used;
      forall k | PlaysOn(gs, k)
        ensures k in TrackKeyed(gs).used
      {
        PlayerTracked(gs, front, k);
      }
    }
  }

  /** The step of `TrackCoversPlayers` for one team: a team of the front is still
      used, and the last game's teams are used once it is tracked. */
  lemma PlayerTracked(gs: seq<Game>, front: seq<Game>, k: string)
    requires gs != [] && front == gs[..|gs| - 1] && OneMatchupPerTeam(gs) && PlaysOn(gs, k)
    requires forall k' :: PlaysOn(front, k') ==> k' in TrackKeyed(front).used
    ensures k in TrackKeyed(gs).used
  {
    var g := gs[|gs| - 1];
    var t := TrackKeyed(front);
    var mu := MatchupOf(g);
    assert t.ok && t.used <= TrackKeyed(gs).used;
    var i :| 0 <= i < |gs| && !IsPostponed(gs[i]) && Involves(gs[i], k);
    if i < |gs| - 1 {
      assert front[i] == gs[i];
      assert PlaysOn(front, k);
    } else {
      assert k == mu.one || k == mu.other;
      if IsDoubleHeader(g) && mu in t.pending {
        assert PendingLeg(front, t.pending[mu], mu, t.used);
      } else {
        assert TrackKeyed(gs).used == t.used + {mu.one, mu.other};
      }
    }
  }

  /** After a day where every team plays one matchup at most, and its end-of-day
      pass, every list is one entry longer, the earlier entries kept. */
  lemma DayThenFill(m0: TeamMap, n: nat, gs: seq<Game>)
    requires Valid(m0)
    requires forall k :: k in m0.values ==> |m0.values[k]| == n
    requires OneMatchupPerTeam(gs)
    ensures OneEntryAppended(m0, n, gs, Fill(ProcessGamesKeyed(m0, gs).0, n + 1))
  {
    DayShape(m0, n, gs);
    TrackCoversPlayers(gs);
    var m := ProcessGamesKeyed(m0, gs).0;
    var r := Fill(m, n + 1);
    forall k | k in r.values
      ensures |r.values[k]| == n + 1 && r.values[k][..n] == m0.values[k]
      ensures SlotOfDay(r.values[k][n], gs, k)
      ensures !PlaysOn(gs, k) ==> r.values[k][n] == Empty
    {
      assert EntryOk(m0.values[k], n, gs, TrackKeyed(gs), m.values[k], k);
      if |m.values[k]| == n {
        assert r.values[k] == m.values[k] + [Empty];
        assert m.values[k] == m.values[k][..n];
      } else {
        assert r.values[k] == m.values[k];
      }
    }
  }

  /** When every team plays one matchup a day at most, the per-matchup merge gives
      one entry per team per day, in day order. */
  lemma {:induction false} ParseShapeKeyed(roster: Roster, days: seq<Day>)
    requires Valid(roster)
    requires OneMatchupPerTeamEachDay(days)
    ensures OneEntryPerDay(ParseScheduleKeyed(roster, days), days)
    decreases |days|
  {
    if days != [] {
      var front := days[..|days| - 1];
      var n := |front|;
      assert OneMatchupPerTeamEachDay(front) by {
        forall d | 0 <= d < |front|
          ensures OneMatchupPerTeam(front[d].games)
        {
          assert front[d] == days[d];
        }
      }
      ParseShapeKeyed(roster, front);
      var before := ParseScheduleKeyed(roster, front);
      assert forall k :: k in before.values ==> |before.values[k]| == n;
      assert OneMatchupPerTeam(days[n].games);
      DayThenFill(before, n, days[n].games);
      OneEntryPerDayExtends(before, ParseScheduleKeyed(roster, days), days);
    }
  }

  /** Bookkeeping for a day under `parseScheduleData`'s single day-wide flag: `pending` is the
      index of the one unanswered first doubleheader leg, `used` the teams that already
      have their slot. `ok` turns false, for good, at the first game that would give a
      team a second slot or that answers the pending leg with a game of another matchup. */
  datatype DayTrack = DayTrack(ok: bool, pending: Option<nat>, used: set<string>)

  function Track(gs: seq<Game>): (t: DayTrack)
    ensures t.pending.Some? ==>
      && t.pending.value < |gs|
      && !IsPostponed(gs[t.pending.value]) && IsDoubleHeader(gs[t.pending.value])
      && HomeName(gs[t.pending.value]) != AwayName(gs[t.pending.value])
      && HomeName(gs[t.pending.value]) in t.used && AwayName(gs[t.pending.value]) in t.used
    decreases |gs|
  {
    if gs == [] then DayTrack(true, None, {})
    else
      var front := gs[..|gs| - 1];
      var t := Track(front);
      var g := gs[|gs| - 1];
      var h := HomeName(g);
      var a := AwayName(g);
      if !t.ok || IsPostponed(g) then t
      else if IsDoubleHeader(g) && t.pending.Some? then
        var first := front[t.pending.value];
        DayTrack(MatchupOf(first) == MatchupOf(g), None, t.used)
      else if h != a && h !in t.used && a !in t.used then
        DayTrack(true, if IsDoubleHeader(g) then Some(|gs| - 1) else t.pending, t.used + {h, a})
      else DayTrack(false, None, t.used)
  }

  /** Every team gets at most one slot from the day's games, with one first leg
      unanswered at a time: each game is between two distinct teams that have no slot
      yet, or is the "Y" game answering the pending first leg of the same matchup.
      Games of other teams may sit between the two legs, but not another first leg. */
  predicate OneSlotPerTeam(gs: seq<Game>)
  {
    Track(gs).ok
  }

  ghost predicate OneSlotPerTeamEachDay(days: seq<Day>)
  {
    forall d :: 0 <= d < |days| ==> OneSlotPerTeam(days[d].games)
  }

  /** The day-wide flag's pending first leg as a one-entry map from its matchup. */
  function PendingByMatchup(gs: seq<Game>): map<Matchup, nat>
  {
    var t := Track(gs);
    if t.pending.Some? then map[MatchupOf(gs[t.pending.value]) := t.pending.value] else map[]
  }

  /** On a day with one first leg unanswered at a time, the per-matchup tracker sees
      the same day: it accepts it, with the same teams used and the same pending leg. */
  lemma {:induction false} TracksAgree(gs: seq<Game>)
    requires OneSlotPerTeam(gs)
    ensures TrackKeyed(gs) == KeyedTrack(true, PendingByMatchup(gs), Track(gs).used)
    decreases |gs|
  {
    if gs != [] {
      var front := gs[..|gs| - 1];
      assert Track(front).ok;
      TracksAgree(front);
      if Track(front).pending.Some? {
        var p := Track(front).pending.value;
        assert gs[p] == front[p];
      }
    }
  }

  /** One game under both flags, from states that agree with the tracker. */
  lemma StepAgrees(m: TeamMap, flag: bool, open: set<Matchup>, gs: seq<Game>)
    requires Valid(m) && |gs| > 0 && OneSlotPerTeam(gs)
    requires flag <==> Track(gs[..|gs| - 1]).pending.Some?
    requires open == PendingByMatchup(gs[..|gs| - 1]).Keys
    ensures StepKeyed(m, open, gs[|gs| - 1]).0 == Step(m, flag, gs[|gs| - 1]).0
    ensures Step(m, flag, gs[|gs| - 1]).1 <==> Track(gs).pending.Some?
    ensures StepKeyed(m, open, gs[|gs| - 1]).1 == PendingByMatchup(gs).Keys
  {
    var front := gs[..|gs| - 1];
    var g := gs[|gs| - 1];
    var mu := MatchupOf(g);
    assert Track(front).ok;
    if Track(front).pending.Some? {
      var p := Track(front).pending.value;
      assert gs[p] == front[p];
    }
    if IsPostponed(g) {
      assert Track(gs) == Track(front);
    } else if IsDoubleHeader(g) {
      assert (mu in open) == flag;
      if flag {
        assert PendingByMatchup(gs) == map[];
      } else {
        assert PendingByMatchup(gs) == map[mu := |gs| - 1];
      }
    } else {
      assert Track(gs).pending == Track(front).pending;
    }
  }

  /** On a day with one first leg unanswered at a time, `parseScheduleData`'s day-wide flag and
      the per-matchup flags produce the same lists; the flag is up exactly when a first
      leg is pending, and the open matchups are that leg's. */
  lemma {:induction false} DayAgrees(m: TeamMap, gs: seq<Game>)
    requires Valid(m)
    requires OneSlotPerTeam(gs)
    ensures ProcessGamesKeyed(m, gs).0 == ProcessGames(m, gs).0
    ensures ProcessGames(m, gs).1 <==> Track(gs).pending.Some?
    ensures ProcessGamesKeyed(m, gs).1 == PendingByMatchup(gs).Keys
    decreases |gs|
  {
    if gs != [] {
      var front := gs[..|gs| - 1];
      assert Track(front).ok;
      DayAgrees(m, front);
      var before := ProcessGames(m, front);
      StepAgrees(before.0, before.1, ProcessGamesKeyed(m, front).1, gs);
    }
  }

  /** On input whose every day has one first leg unanswered at a time, `ParseSchedule` and
      the per-matchup merge build the same map. */
  lemma {:induction false} ParseAgrees(roster: Roster, days: seq<Day>)
    requires Valid(roster)
    requires OneSlotPerTeamEachDay(days)
    ensures ParseScheduleKeyed(roster, days) == ParseSchedule(roster, days)
    decreases |days|
  {
    if days != [] {
      var front := days[..|days| - 1];
      assert OneSlotPerTeamEachDay(front) by {
        forall d | 0 <= d < |front|
          ensures OneSlotPerTeam(front[d].games)
        {
          assert front[d] == days[d];
        }
      }
      ParseAgrees(roster, front);
      DayAgrees(ParseSchedule(roster, front), days[|days| - 1].games);
    }
  }

  /** When every day has one first leg unanswered at a time, `ParseSchedule`'s result has
      one entry per team per day, in day order. */
  lemma ParseShape(roster: Roster, days: seq<Day>)
    requires Valid(roster)
    requires OneSlotPerTeamEachDay(days)
    ensures OneEntryPerDay(ParseSchedule(roster, days), days)
  {
    ParseAgrees(roster, days);
    forall d | 0 <= d < |days|
      ensures OneMatchupPerTeam(days[d].games)
    {
      TracksAgree(days[d].games);
    }
    ParseShapeKeyed(roster, days);
  }

  /** Two doubleheaders between four distinct teams whose legs interleave: the
      first leg of one matchup, the first leg of the other, then the two second legs
      in the same order. All four games are played and marked "Y". */
  ghost predicate Interleaved(g1: Game, g2: Game, g3: Game, g4: Game)
  {
    && !IsPostponed(g1) && !IsPostponed(g2) && !IsPostponed(g3) && !IsPostponed(g4)
    && IsDoubleHeader(g1) && IsDoubleHeader(g2) && IsDoubleHeader(g3) && IsDoubleHeader(g4)
    && MatchupOf(g3) == MatchupOf(g1) && MatchupOf(g4) == MatchupOf(g2)
    && HomeName(g1) != AwayName(g1) && HomeName(g2) != AwayName(g2)
    && !Involves(g2, HomeName(g1)) && !Involves(g2, AwayName(g1))
  }

  /** A second leg whose teams have nothing to pop changes no list. */
  lemma SecondLegWithoutOpener(m: TeamMap, g: Game)
    requires Valid(m) && HomeName(g) != AwayName(g)
    requires HomeName(g) in m.values ==> m.values[HomeName(g)] == []
    requires AwayName(g) in m.values ==> m.values[AwayName(g)] == []
    ensures SecondLeg(m, g) == m
  {
    var r := SecondLeg(m, g);
    assert LastEntry(m, HomeName(g)) == None;
    forall k | k in m.values
      ensures r.values[k] == m.values[k]
    {
    }
    assert r.values == m.values;
  }

  /** Interleaved doubleheaders are a day on which every team plays one matchup. */
  lemma InterleavedTracked(g1: Game, g2: Game, g3: Game, g4: Game)
    requires Interleaved(g1, g2, g3, g4)
    ensures OneMatchupPerTeam([g1, g2, g3, g4])
  {
    var mu1 := MatchupOf(g1);
    var mu2 := MatchupOf(g2);
    var s1 := [g1];
    var s2 := s1 + [g2];
    var s3 := s2 + [g3];
    var s4 := s3 + [g4];
    assert s1 == [] + [g1];
    FreshFirstLeg([], g1);
    var t1 := TrackKeyed(s1);
    assert t1.pending == map[mu1 := 0] && t1.used == {HomeName(g1), AwayName(g1)};
    assert mu2 != mu1;
    FreshFirstLeg(s1, g2);
    var t2 := TrackKeyed(s2);
    assert t2.pending == map[mu1 := 0, mu2 := 1];
    AnsweringLeg(s2, g3);
    var t3 := TrackKeyed(s3);
    assert t3.pending == t2.pending - {mu1};
    assert mu2 in t3.pending;
    AnsweringLeg(s3, g4);
    assert s4 == [g1, g2, g3, g4];
  }

  /** A first leg between two teams without a slot opens its matchup. */
  lemma FreshFirstLeg(front: seq<Game>, g: Game)
    requires TrackKeyed(front).ok && !IsPostponed(g) && IsDoubleHeader(g)
    requires MatchupOf(g) !in TrackKeyed(front).pending && HomeName(g) != AwayName(g)
    requires HomeName(g) !in TrackKeyed(front).used && AwayName(g) !in TrackKeyed(front).used
    ensures TrackKeyed(front + [g]) ==
      KeyedTrack(true, TrackKeyed(front).pending[MatchupOf(g) := |front|], TrackKeyed(front).used + {HomeName(g), AwayName(g)})
  {
    assert (front + [g])[..|front|] == front;
    var mu := MatchupOf(g);
    assert {mu.one, mu.other} == {HomeName(g), AwayName(g)};
  }

  /** A "Y" game answering its matchup's open first leg closes it. */
  lemma AnsweringLeg(front: seq<Game>, g: Game)
    requires TrackKeyed(front).ok && !IsPostponed(g) && IsDoubleHeader(g)
    requires MatchupOf(g) in TrackKeyed(front).pending
    ensures TrackKeyed(front + [g]) ==
      KeyedTrack(true, TrackKeyed(front).pending - {MatchupOf(g)}, TrackKeyed(front).used)
  {
    assert (front + [g])[..|front|] == front;
  }

  /** A "Y" game whose matchup has no open first leg opens one and is pushed. */
  lemma OpenFirstLeg(m: TeamMap, open: set<Matchup>, g: Game)
    requires Valid(m) && !IsPostponed(g) && IsDoubleHeader(g) && MatchupOf(g) !in open
    ensures StepKeyed(m, open, g) == (PushBoth(m, g, Single(g)), open + {MatchupOf(g)})
  {
    var r := StepKeyed(m, open, g);
    assert r.1 == open + {MatchupOf(g)};
  }

  /** A "Y" game whose matchup has an open first leg is merged and closes it. */
  lemma CloseSecondLeg(m: TeamMap, open: set<Matchup>, g: Game)
    requires Valid(m) && !IsPostponed(g) && IsDoubleHeader(g) && MatchupOf(g) in open
    ensures StepKeyed(m, open, g) == (SecondLeg(m, g), open - {MatchupOf(g)})
  {
    var r := StepKeyed(m, open, g);
    assert r.1 == open - {MatchupOf(g)};
  }

  /** The first legs of both matchups, pushed in turn. */
  lemma BothOpenersPushed(m0: TeamMap, g1: Game, g2: Game)
    requires Valid(m0) && HomeName(g1) != AwayName(g1) && HomeName(g2) != AwayName(g2)
    requires !Involves(g2, HomeName(g1)) && !Involves(g2, AwayName(g1))
    ensures forall k :: k in m0.values ==>
      PushBoth(PushBoth(m0, g1, Single(g1)), g2, Single(g2)).values[k] ==
        m0.values[k] + (if Involves(g1, k) then [Single(g1)] else if Involves(g2, k) then [Single(g2)] else [])
  {
    var m1 := PushBoth(m0, g1, Single(g1));
    var m2 := PushBoth(m1, g2, Single(g2));
    forall k | k in m0.values
      ensures m2.values[k] == m0.values[k] + (if Involves(g1, k) then [Single(g1)] else if Involves(g2, k) then [Single(g2)] else [])
    {
      OpenerPushed(m0, g1, k);
      OpenerPushed(m1, g2, k);
      assert Involves(g1, k) ==> !Involves(g2, k);
    }
  }

  /** Pushing a game with two distinct teams adds it once to each of their lists. */
  lemma OpenerPushed(m: TeamMap, g: Game, k: string)
    requires Valid(m) && HomeName(g) != AwayName(g) && k in m.values
    ensures PushBoth(m, g, Single(g)).values[k] == m.values[k] + (if Involves(g, k) then [Single(g)] else [])
  {
  }

  /** A second leg answering its matchup's single first leg, pushed last onto both
      teams' lists: both teams get the pair in its place, and no other list changes. */
  lemma AnswerOpener(m0: TeamMap, m: TeamMap, g1: Game, g2: Game)
    requires Valid(m0) && Valid(m) && SameKeys(m, m0)
    requires MatchupOf(g2) == MatchupOf(g1) && HomeName(g1) != AwayName(g1) && HomeName(g2) in m0.values
    requires forall k :: k in m0.values && Involves(g1, k) ==> m.values[k] == m0.values[k] + [Single(g1)]
    ensures forall k :: k in m0.values ==>
      SecondLeg(m, g2).values[k] == if Involves(g1, k) then m0.values[k] + [Pair(g1, g2)] else m.values[k]
  {
    assert Involves(g1, HomeName(g2));
    assert LastEntry(m, HomeName(g2)) == Some(Single(g1));
    forall k | k in m0.values && Involves(g1, k)
      ensures DropLast(m.values[k]) == m0.values[k]
    {
      assert m.values[k] == m0.values[k] + [Single(g1)];
    }
  }

  /** The second matchup's second leg, after the first matchup's pair is merged. */
  lemma SecondPairMerged(m0: TeamMap, m3: TeamMap, g1: Game, g2: Game, g3: Game, g4: Game)
    requires Valid(m0) && Valid(m3) && SameKeys(m3, m0) && Interleaved(g1, g2, g3, g4)
    requires HomeName(g4) in m0.values
    requires forall k :: k in m0.values ==>
      m3.values[k] == m0.values[k] + (if Involves(g1, k) then [Pair(g1, g3)] else if Involves(g2, k) then [Single(g2)] else [])
    ensures forall k :: k in m0.values ==>
      SecondLeg(m3, g4).values[k] ==
        m0.values[k] + (if Involves(g1, k) then [Pair(g1, g3)] else if Involves(g2, k) then [Pair(g2, g4)] else [])
  {
    AnswerOpener(m0, m3, g2, g4);
  }

  /** Both second legs, each answering its own single first leg. */
  lemma BothPairsMerged(m0: TeamMap, m2: TeamMap, g1: Game, g2: Game, g3: Game, g4: Game)
    requires Valid(m0) && Valid(m2) && SameKeys(m2, m0) && Interleaved(g1, g2, g3, g4)
    requires HomeName(g3) in m0.values && HomeName(g4) in m0.values
    requires forall k :: k in m0.values ==>
      m2.values[k] == m0.values[k] + (if Involves(g1, k) then [Single(g1)] else if Involves(g2, k) then [Single(g2)] else [])
    ensures forall k :: k in m0.values ==>
      SecondLeg(SecondLeg(m2, g3), g4).values[k] ==
        m0.values[k] + (if Involves(g1, k) then [Pair(g1, g3)] else if Involves(g2, k) then [Pair(g2, g4)] else [])
  {
    AnswerOpener(m0, m2, g1, g3);
    SecondPairMerged(m0, SecondLeg(m2, g3), g1, g2, g3, g4);
  }

  /** Under the day-wide flag, from empty lists: the first opener is pushed and
      raises the flag, so the second opener is taken for a second leg; with nothing
      to pop it changes no list and lowers the flag. */
  lemma DayWideOpeners(m0: TeamMap, g1: Game, g2: Game, g3: Game, g4: Game)
    requires Valid(m0) && Interleaved(g1, g2, g3, g4)
    requires forall k :: k in m0.values ==> m0.values[k] == []
    ensures !ProcessGames(m0, [g1, g2]).1
    ensures forall k :: k in m0.values ==>
      ProcessGames(m0, [g1, g2]).0.values[k] == (if Involves(g1, k) then [Single(g1)] else [])
  {
    FirstLegPushed(m0, g1);
    ProcessGamesSnoc(m0, [g1], g2);
    assert [g1] + [g2] == [g1, g2];
    SecondLegWithoutOpener(ProcessGames(m0, [g1]).0, g2);
  }

  /** One team's list when a rematch of `g1` is pushed onto it. */
  lemma RematchAppended(l: seq<Slot>, g1: Game, g3: Game, k: string)
    requires MatchupOf(g3) == MatchupOf(g1) && HomeName(g1) != AwayName(g1)
    requires l == if Involves(g1, k) then [Single(g1)] else []
    ensures l + BothSides(g3, k, Single(g3)) == if Involves(g1, k) then [Single(g1), Single(g3)] else []
  {
    if Involves(g1, k) {
      assert BothSides(g3, k, Single(g3)) == [Single(g3)];
    }
  }

  /** With the flag down, the first nightcap is pushed as a single game. */
  lemma FirstNightcapPushed(m0: TeamMap, m2: TeamMap, g1: Game, g3: Game)
    requires Valid(m0) && Valid(m2) && SameKeys(m2, m0)
    requires MatchupOf(g3) == MatchupOf(g1) && HomeName(g1) != AwayName(g1)
    requires forall k :: k in m0.values ==> m2.values[k] == (if Involves(g1, k) then [Single(g1)] else [])
    ensures forall k :: k in m0.values ==>
      PushBoth(m2, g3, Single(g3)).values[k] == (if Involves(g1, k) then [Single(g1), Single(g3)] else [])
  {
    forall k | k in m0.values
      ensures PushBoth(m2, g3, Single(g3)).values[k] == (if Involves(g1, k) then [Single(g1), Single(g3)] else [])
    {
      RematchAppended(m2.values[k], g1, g3, k);
    }
  }

  /** The second nightcap, with the flag up, finds nothing to pop. */
  lemma DayWideNightcaps(m0: TeamMap, m2: TeamMap, g1: Game, g2: Game, g3: Game, g4: Game)
    requires Valid(m0) && Valid(m2) && SameKeys(m2, m0) && Interleaved(g1, g2, g3, g4)
    requires forall k :: k in m0.values ==> m2.values[k] == (if Involves(g1, k) then [Single(g1)] else [])
    ensures forall k :: k in m0.values ==>
      Step(Step(m2, false, g3).0, true, g4).0.values[k] == (if Involves(g1, k) then [Single(g1), Single(g3)] else [])
  {
    FirstNightcapPushed(m0, m2, g1, g3);
    var m3 := Step(m2, false, g3).0;
    assert m3 == PushBoth(m2, g3, Single(g3));
    SecondLegWithoutOpener(m3, g4);
  }

  /** Under the day-wide flag: the first matchup's teams get both of their games as
      two single entries, and the second matchup's teams lose their last entry
      (nothing, on the first day of the week). */
  lemma InterleavedDayWide(m0: TeamMap, g1: Game, g2: Game, g3: Game, g4: Game)
    requires Valid(m0) && Interleaved(g1, g2, g3, g4)
    requires forall k :: k in m0.values ==> m0.values[k] == []
    ensures forall k :: k in m0.values ==>
      ProcessGames(m0, [g1, g2, g3, g4]).0.values[k] == (if Involves(g1, k) then [Single(g1), Single(g3)] else [])
  {
    DayWideOpeners(m0, g1, g2, g3, g4);
    ProcessGamesSnoc(m0, [g1, g2], g3);
    ProcessGamesSnoc(m0, [g1, g2, g3], g4);
    assert [g1, g2] + [g3] == [g1, g2, g3] && [g1, g2, g3] + [g4] == [g1, g2, g3, g4];
    var p2 := ProcessGames(m0, [g1, g2]);
    assert p2 == (p2.0, false);
    DayWideNightcaps(m0, p2.0, g1, g2, g3, g4);
  }

  /** Under per-matchup flags, whatever the lists before: each matchup's teams get
      that matchup's pair, earlier game first, and nothing else changes. */
  lemma InterleavedKeyedSteps(m0: TeamMap, g1: Game, g2: Game, g3: Game, g4: Game)
    requires Valid(m0) && Interleaved(g1, g2, g3, g4)
    requires HomeName(g3) in m0.values && HomeName(g4) in m0.values
    ensures forall k :: k in m0.values ==>
      ProcessGamesKeyed(m0, [g1, g2, g3, g4]).0.values[k] ==
        m0.values[k] + (if Involves(g1, k) then [Pair(g1, g3)] else if Involves(g2, k) then [Pair(g2, g4)] else [])
  {
    var s0: seq<Game> := [];
    var s1 := s0 + [g1];
    var s2 := s1 + [g2];
    var s3 := s2 + [g3];
    var s4 := s3 + [g4];
    assert s4 == [g1, g2, g3, g4];
    assert ProcessGamesKeyed(m0, s0) == (m0, {});
    ProcessGamesKeyedSnoc(m0, s0, g1);
    OpenFirstLeg(m0, {}, g1);
    var p1 := ProcessGamesKeyed(m0, s1);
    ProcessGamesKeyedSnoc(m0, s1, g2);
    OpenFirstLeg(p1.0, p1.1, g2);
    var p2 := ProcessGamesKeyed(m0, s2);
    ProcessGamesKeyedSnoc(m0, s2, g3);
    CloseSecondLeg(p2.0, p2.1, g3);
    var p3 := ProcessGamesKeyed(m0, s3);
    ProcessGamesKeyedSnoc(m0, s3, g4);
    CloseSecondLeg(p3.0, p3.1, g4);
    BothOpenersPushed(m0, g1, g2);
    BothPairsMerged(m0, p2.0, g1, g2, g3, g4);
  }

  /** The first day of the week is that day's games from empty lists, then the
      end-of-day pass. */
  lemma FirstDay(roster: Roster, day: Day)
    requires Valid(roster)
    ensures ParseSchedule(roster, [day]) == Fill(ProcessGames(Init(roster), day.games).0, 1)
    ensures ParseScheduleKeyed(roster, [day]) == Fill(ProcessGamesKeyed(Init(roster), day.games).0, 1)
  {
    assert [day][..0] == [];
  }

  /** The end-of-day pass of the first day pads exactly the empty lists. */
  lemma FirstFill(m: TeamMap, k: string)
    requires Valid(m) && k in m.values && |m.values[k]| <= 2
    ensures Fill(m, 1).values[k] == if m.values[k] == [] then [Empty] else m.values[k]
  {
  }

  /** A week whose first day holds two interleaved doubleheaders. Every team plays
      one matchup, yet under the day-wide flag the first matchup's teams end the day
      with their two games as single entries and the second matchup's teams, who
      played twice, with `null`. */
  lemma InterleavedFirstDay(roster: Roster, day: Day, g1: Game, g2: Game, g3: Game, g4: Game)
    requires Valid(roster) && day.games == [g1, g2, g3, g4] && Interleaved(g1, g2, g3, g4)
    ensures OneMatchupPerTeamEachDay([day])
    ensures forall k :: k in roster.values ==>
      ParseSchedule(roster, [day]).values[k] == if Involves(g1, k) then [Single(g1), Single(g3)] else [Empty]
  {
    InterleavedTracked(g1, g2, g3, g4);
    assert [day][0] == day;
    FirstDay(roster, day);
    var m0 := Init(roster);
    InterleavedDayWide(m0, g1, g2, g3, g4);
    var m := ProcessGames(m0, day.games).0;
    forall k | k in roster.values
      ensures Fill(m, 1).values[k] == if Involves(g1, k) then [Single(g1), Single(g3)] else [Empty]
    {
      FirstFill(m, k);
    }
  }

  /** On the same first day the per-matchup merge gives each team its own
      matchup's pair and every other team `null`. */
  lemma InterleavedKeyedFirstDay(roster: Roster, day: Day, g1: Game, g2: Game, g3: Game, g4: Game)
    requires Valid(roster) && day.games == [g1, g2, g3, g4] && Interleaved(g1, g2, g3, g4)
    requires HomeName(g3) in roster.values && HomeName(g4) in roster.values
    ensures forall k :: k in roster.values ==>
      ParseScheduleKeyed(roster, [day]).values[k] ==
        if Involves(g1, k) then [Pair(g1, g3)] else if Involves(g2, k) then [Pair(g2, g4)] else [Empty]
  {
    FirstDay(roster, day);
    var m0 := Init(roster);
    InterleavedKeyedSteps(m0, g1, g2, g3, g4);
    var m := ProcessGamesKeyed(m0, day.games).0;
    forall k | k in roster.values
      ensures Fill(m, 1).values[k] ==
        if Involves(g1, k) then [Pair(g1, g3)] else if Involves(g2, k) then [Pair(g2, g4)] else [Empty]
    {
      FirstFill(m, k);
    }
  }

  /** A doubleheader whose nightcap is postponed, followed by the "Y" opener of a
      doubleheader between two other teams. No legs interleave. */
  ghost predicate NightcapPostponed(g1: Game, g2: Game, g3: Game)
  {
    && !IsPostponed(g1) && IsDoubleHeader(g1) && HomeName(g1) != AwayName(g1)
    && IsPostponed(g2) && IsDoubleHeader(g2) && MatchupOf(g2) == MatchupOf(g1)
    && !IsPostponed(g3) && IsDoubleHeader(g3) && HomeName(g3) != AwayName(g3)
    && !Involves(g1, HomeName(g3)) && !Involves(g1, AwayName(g3))
  }

  /** Such a day gives every team one matchup, yet the day-wide flag is still up
      when the other opener arrives. */
  lemma NightcapPostponedTracked(g1: Game, g2: Game, g3: Game)
    requires NightcapPostponed(g1, g2, g3)
    ensures OneMatchupPerTeam([g1, g2, g3])
    ensures !OneSlotPerTeam([g1, g2, g3])
  {
    var s1 := [g1];
    var s2 := s1 + [g2];
    var s3 := s2 + [g3];
    assert s1[..0] == [] && s2[..1] == s1 && s3[..2] == s2;
    assert s3 == [g1, g2, g3];
    var mu1 := MatchupOf(g1);
    assert MatchupOf(g3) != mu1;
    assert TrackKeyed(s1) == KeyedTrack(true, map[mu1 := 0], {HomeName(g1), AwayName(g1)});
    assert TrackKeyed(s2) == TrackKeyed(s1);
    assert TrackKeyed(s3).ok;
    assert Track(s1) == DayTrack(true, Some(0), {HomeName(g1), AwayName(g1)});
    assert Track(s2) == Track(s1);
    assert !Track(s3).ok;
  }

  /** The day-wide flag is still up after the first leg and the postponed nightcap. */
  lemma FlagUpAfterPostponed(m0: TeamMap, g1: Game, g2: Game, g3: Game)
    requires Valid(m0) && NightcapPostponed(g1, g2, g3)
    ensures ProcessGames(m0, [g1, g2]) == (ProcessGames(m0, [g1]).0, true)
    ensures forall k :: k in m0.values && !Involves(g1, k) ==> ProcessGames(m0, [g1]).0.values[k] == m0.values[k]
  {
    FirstLegPushed(m0, g1);
    ProcessGamesSnoc(m0, [g1], g2);
    assert [g1] + [g2] == [g1, g2];
  }

  /** Under the day-wide flag the other matchup's opener is taken as the nightcap:
      its home team's last entry, from the day before, is popped and replaced by the
      pair of that entry and today's game. */
  lemma NightcapPostponedLists(m0: TeamMap, g1: Game, g2: Game, g3: Game, prev: Game)
    requires Valid(m0) && NightcapPostponed(g1, g2, g3)
    requires LastEntry(m0, HomeName(g3)) == Some(Single(prev))
    ensures ProcessGames(m0, [g1, g2, g3]).0.values[HomeName(g3)] ==
      DropLast(m0.values[HomeName(g3)]) + [Pair(prev, g3)]
  {
    OpenerTakenAsNightcap(m0, g1, g2, g3);
    var m1 := ProcessGames(m0, [g1]).0;
    var h := HomeName(g3);
    assert m1.values[h] == m0.values[h];
    SecondLegOfSingle(m1, g3, prev);
  }

  /** With the flag still up, the third game of the day is merged as a second leg. */
  lemma OpenerTakenAsNightcap(m0: TeamMap, g1: Game, g2: Game, g3: Game)
    requires Valid(m0) && NightcapPostponed(g1, g2, g3)
    ensures forall k :: k in m0.values && !Involves(g1, k) ==> ProcessGames(m0, [g1]).0.values[k] == m0.values[k]
    ensures ProcessGames(m0, [g1, g2, g3]).0 == SecondLeg(ProcessGames(m0, [g1]).0, g3)
  {
    FlagUpAfterPostponed(m0, g1, g2, g3);
    ProcessGamesSnoc(m0, [g1, g2], g3);
    assert [g1, g2] + [g3] == [g1, g2, g3];
  }

  /** A second leg whose home team's list ends with a single game replaces it by the pair. */
  lemma SecondLegOfSingle(m: TeamMap, g: Game, prev: Game)
    requires Valid(m) && HomeName(g) != AwayName(g)
    requires LastEntry(m, HomeName(g)) == Some(Single(prev))
    ensures SecondLeg(m, g).values[HomeName(g)] == DropLast(m.values[HomeName(g)]) + [Pair(prev, g)]
  {
  }

  /** With the end-of-day pass: the home team's entry of the day before is now that
      pair, and its entry for today is `null`. */
  lemma NightcapPostponedAsWritten(m0: TeamMap, n: nat, g1: Game, g2: Game, g3: Game, prev: Game)
    requires Valid(m0) && NightcapPostponed(g1, g2, g3)
    requires forall k :: k in m0.values ==> |m0.values[k]| == n
    requires LastEntry(m0, HomeName(g3)) == Some(Single(prev))
    ensures Fill(ProcessGames(m0, [g1, g2, g3]).0, n + 1).values[HomeName(g3)] ==
      DropLast(m0.values[HomeName(g3)]) + [Pair(prev, g3), Empty]
  {
    NightcapPostponedLists(m0, g1, g2, g3, prev);
    var h := HomeName(g3);
    var l := ProcessGames(m0, [g1, g2, g3]).0.values[h];
    assert |l| == n;
    assert l + [Empty] == DropLast(m0.values[h]) + [Pair(prev, g3), Empty];
  }

  /** Under per-matchup flags the same opener is a first leg of its own matchup and
      is pushed as today's game. */
  lemma NightcapPostponedKeyed(m0: TeamMap, n: nat, g1: Game, g2: Game, g3: Game)
    requires Valid(m0) && NightcapPostponed(g1, g2, g3)
    requires forall k :: k in m0.values ==> |m0.values[k]| == n
    requires HomeName(g3) in m0.values
    ensures Fill(ProcessGamesKeyed(m0, [g1, g2, g3]).0, n + 1).values[HomeName(g3)] ==
      m0.values[HomeName(g3)] + [Single(g3)]
  {
    var h := HomeName(g3);
    NightcapPostponedKeyedList(m0, g1, g2, g3);
    var m := ProcessGamesKeyed(m0, [g1, g2, g3]).0;
    assert m.values[h] == m0.values[h] + [Single(g3)];
    assert |m.values[h]| == n + 1;
  }

  /** The opener's team list under per-matchup flags, before the end-of-day pass. */
  lemma NightcapPostponedKeyedList(m0: TeamMap, g1: Game, g2: Game, g3: Game)
    requires Valid(m0) && NightcapPostponed(g1, g2, g3) && HomeName(g3) in m0.values
    ensures ProcessGamesKeyed(m0, [g1, g2, g3]).0.values[HomeName(g3)] == m0.values[HomeName(g3)] + [Single(g3)]
  {
    var s0: seq<Game> := [];
    var s1 := s0 + [g1];
    var s2 := s1 + [g2];
    var s3 := s2 + [g3];
    assert s3 == [g1, g2, g3];
    assert ProcessGamesKeyed(m0, s0) == (m0, {});
    ProcessGamesKeyedSnoc(m0, s0, g1);
    OpenFirstLeg(m0, {}, g1);
    var p1 := ProcessGamesKeyed(m0, s1);
    ProcessGamesKeyedSnoc(m0, s1, g2);
    assert ProcessGamesKeyed(m0, s2) == p1;
    assert MatchupOf(g3) != MatchupOf(g1);
    ProcessGamesKeyedSnoc(m0, s2, g3);
    OpenFirstLeg(p1.0, p1.1, g3);
    var h := HomeName(g3);
    assert p1.0.values[h] == m0.values[h];
  }

  /** A game of 8 July 2023 between `home` and `away`, starting at `time`, with
      doubleheader marker `marker`; no pitchers or odds. */
  function DemoGame(home: string, away: string, time: string, marker: string): Game
  {
    Game("2023-07-08", time, Status("Final"),
         Teams(Side(TeamInfo(0, away), None), Side(TeamInfo(0, home), None)),
         Venue(0, ""), marker, None)
  }

  const RedSoxOpener := DemoGame("Red Sox", "Yankees", "13:05", "Y")
  const CubsOpener := DemoGame("Cubs", "Mets", "14:20", "Y")
  const RedSoxNightcap := DemoGame("Red Sox", "Yankees", "18:10", "Y")
  const CubsNightcap := DemoGame("Cubs", "Mets", "19:05", "Y")

  /** Two doubleheaders on one day, listed by start time so that their legs interleave. */
  const InterleavedDay := Day("2023-07-08", [RedSoxOpener, CubsOpener, RedSoxNightcap, CubsNightcap])

  function DemoRoster(): (r: Roster)
    ensures Valid(r)
  {
    OrderedMap(["Red Sox", "Yankees", "Cubs", "Mets"],
               map["Red Sox" := "BOS", "Yankees" := "NYY", "Cubs" := "CHC", "Mets" := "NYM"])
  }

  lemma DemoDay()
    ensures InterleavedDay.games == [RedSoxOpener, CubsOpener, RedSoxNightcap, CubsNightcap]
    ensures Interleaved(RedSoxOpener, CubsOpener, RedSoxNightcap, CubsNightcap)
    ensures HomeName(RedSoxNightcap) in DemoRoster().values && HomeName(CubsNightcap) in DemoRoster().values
  {
  }

  /** Every team of the interleaved day plays one matchup, but the day-wide flag
      takes the Cubs opener as the Red Sox second leg: the Red Sox end the day with
      two single entries and the Cubs, who played twice, with `null`. */
  lemma InterleavedAsWritten()
    ensures OneMatchupPerTeamEachDay([InterleavedDay])
    ensures ParseSchedule(DemoRoster(), [InterleavedDay]).values["Red Sox"] ==
      [Single(RedSoxOpener), Single(RedSoxNightcap)]
    ensures ParseSchedule(DemoRoster(), [InterleavedDay]).values["Cubs"] == [Empty]
  {
    DemoDay();
    InterleavedFirstDay(DemoRoster(), InterleavedDay, RedSoxOpener, CubsOpener, RedSoxNightcap, CubsNightcap);
  }

  /** On the same day the per-matchup merge gives every team its own pair. */
  lemma InterleavedKeyed()
    ensures ParseScheduleKeyed(DemoRoster(), [InterleavedDay]).values["Red Sox"] ==
      [Pair(RedSoxOpener, RedSoxNightcap)]
    ensures ParseScheduleKeyed(DemoRoster(), [InterleavedDay]).values["Cubs"] ==
      [Pair(CubsOpener, CubsNightcap)]
  {
    DemoDay();
    InterleavedKeyedFirstDay(DemoRoster(), InterleavedDay, RedSoxOpener, CubsOpener, RedSoxNightcap, CubsNightcap);
  }
}
