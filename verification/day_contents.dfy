/** The exact entry each day gives each team. On a day where every team plays one
    matchup at most, a team's entry is read off its own games of that day: none
    gives `null`, one gives that game, and the two legs of a doubleheader give the
    pair, earlier game first. The one exception is a doubleheader whose home team is
    missing from the roster: its second leg pops the away team's first leg and
    pushes nothing, which leaves `null`. */
module DayContents {
  import opened Wrappers
  import opened OrderedMaps
  import opened MlbTypes
  import opened ScheduleData
  import opened ScheduleKeyed
  import opened DayShapes

  /** The non-postponed games of a day that involve team `k`, in the order received. */
  function GamesOf(gs: seq<Game>, k: string): seq<Game>
    decreases |gs|
  {
    if gs == [] then []
    else
      var g := gs[|gs| - 1];
      GamesOf(gs[..|gs| - 1], k) + (if !IsPostponed(g) && Involves(g, k) then [g] else [])
  }

  /** The entry of a team whose games of the day are `hs`, when `known` holds the
      roster's names. */
  function DaySlot(hs: seq<Game>, known: set<string>): Slot
  {
    if |hs| == 0 then Empty
    else if |hs| == 1 then Single(hs[0])
    else if HomeName(hs[1]) in known then Pair(hs[0], hs[1])
    else Empty
  }

  /** What the day's games leave appended to the team's list before the end-of-day pass. */
  function Added(hs: seq<Game>, known: set<string>): seq<Slot>
  {
    if DaySlot(hs, known) == Empty then [] else [DaySlot(hs, known)]
  }

  /** A team's games of one call: the earlier ones, then `g` when it counts. */
  lemma GamesOfSnoc(front: seq<Game>, g: Game, k: string)
    ensures GamesOf(front + [g], k) == GamesOf(front, k) + (if !IsPostponed(g) && Involves(g, k) then [g] else [])
  {
    assert (front + [g])[..|front|] == front;
  }

  lemma FrontLast(gs: seq<Game>)
    requires |gs| > 0
    ensures gs == gs[..|gs| - 1] + [gs[|gs| - 1]]
  {
  }

  /** At most two games, and two are the "Y" legs of one matchup. */
  ghost predicate LegsOk(hs: seq<Game>)
  {
    && |hs| <= 2
    && (|hs| == 2 ==> IsDoubleHeader(hs[0]) && IsDoubleHeader(hs[1]) && MatchupOf(hs[0]) == MatchupOf(hs[1]))
  }

  /** What tracker `t` of the games `gs` implies about each team's games: a team
      without its slot has none; the teams of an unanswered first leg have that game
      alone; every team's games are `LegsOk`. */
  ghost predicate Tracked(gs: seq<Game>, t: KeyedTrack)
  {
    NoneOutside(gs, t.used) && PendingAlone(gs, t.pending) && AllLegsOk(gs)
  }

  ghost predicate NoneOutside(gs: seq<Game>, used: set<string>)
  {
    forall k :: k !in used ==> GamesOf(gs, k) == []
  }

  ghost predicate PendingAlone(gs: seq<Game>, pending: map<Matchup, nat>)
  {
    forall mu :: mu in pending ==>
      && pending[mu] < |gs|
      && GamesOf(gs, mu.one) == [gs[pending[mu]]] && GamesOf(gs, mu.other) == [gs[pending[mu]]]
  }

  ghost predicate AllLegsOk(gs: seq<Game>)
  {
    forall k :: LegsOk(GamesOf(gs, k))
  }

  ghost predicate GamesTracked(gs: seq<Game>)
  {
    Tracked(gs, TrackKeyed(gs))
  }

  /** One team's games over a game that gives both its teams their slot. */
  lemma PushedTeam(front: seq<Game>, g: Game, k: string)
    requires !IsPostponed(g) && (Involves(g, k) ==> GamesOf(front, k) == [])
    ensures GamesOf(front + [g], k) == if Involves(g, k) then [g] else GamesOf(front, k)
  {
    GamesOfSnoc(front, g, k);
  }

  /** A game that gives both its teams their slot. */
  lemma PushTracked(front: seq<Game>, g: Game, t: KeyedTrack, t': KeyedTrack)
    requires Tracked(front, t) && PendingLegs(front, t)
    requires !IsPostponed(g) && HomeName(g) != AwayName(g) && HomeName(g) !in t.used && AwayName(g) !in t.used
    requires t'.used == t.used + {HomeName(g), AwayName(g)}
    requires t'.pending == if IsDoubleHeader(g) then t.pending[MatchupOf(g) := |front|] else t.pending
    ensures Tracked(front + [g], t')
  {
    var gs := front + [g];
    forall k
      ensures GamesOf(gs, k) == if Involves(g, k) then [g] else GamesOf(front, k)
    {
      if Involves(g, k) {
        assert k !in t.used;
      }
      PushedTeam(front, g, k);
    }
    PushOutside(front, g, t.used, t'.used);
    PushLegsOk(front, g);
    PushPending(front, g, t, t');
  }

  lemma PushOutside(front: seq<Game>, g: Game, used: set<string>, used': set<string>)
    requires NoneOutside(front, used) && used' == used + {HomeName(g), AwayName(g)}
    requires forall k :: GamesOf(front + [g], k) == if Involves(g, k) then [g] else GamesOf(front, k)
    ensures NoneOutside(front + [g], used')
  {
  }

  lemma PushLegsOk(front: seq<Game>, g: Game)
    requires AllLegsOk(front)
    requires forall k :: GamesOf(front + [g], k) == if Involves(g, k) then [g] else GamesOf(front, k)
    ensures AllLegsOk(front + [g])
  {
    forall k
      ensures LegsOk(GamesOf(front + [g], k))
    {
      if !Involves(g, k) {
        assert LegsOk(GamesOf(front, k));
      }
    }
  }

  lemma PushPending(front: seq<Game>, g: Game, t: KeyedTrack, t': KeyedTrack)
    requires PendingAlone(front, t.pending) && PendingLegs(front, t)
    requires HomeName(g) !in t.used && AwayName(g) !in t.used
    requires t'.pending == if IsDoubleHeader(g) then t.pending[MatchupOf(g) := |front|] else t.pending
    requires forall k :: GamesOf(front + [g], k) == if Involves(g, k) then [g] else GamesOf(front, k)
    ensures PendingAlone(front + [g], t'.pending)
  {
    var gs := front + [g];
    forall mu | mu in t'.pending
      ensures t'.pending[mu] < |gs|
      ensures GamesOf(gs, mu.one) == [gs[t'.pending[mu]]] && GamesOf(gs, mu.other) == [gs[t'.pending[mu]]]
    {
      PendingAfterPush(front, g, t, t', mu);
    }
  }

  /** One matchup pending after the push: the pushed first leg itself, or an older one. */
  lemma PendingAfterPush(front: seq<Game>, g: Game, t: KeyedTrack, t': KeyedTrack, mu: Matchup)
    requires PendingAlone(front, t.pending) && PendingLegs(front, t)
    requires HomeName(g) !in t.used && AwayName(g) !in t.used
    requires t'.pending == if IsDoubleHeader(g) then t.pending[MatchupOf(g) := |front|] else t.pending
    requires forall k :: GamesOf(front + [g], k) == if Involves(g, k) then [g] else GamesOf(front, k)
    requires mu in t'.pending
    ensures t'.pending[mu] < |front + [g]|
    ensures GamesOf(front + [g], mu.one) == [(front + [g])[t'.pending[mu]]]
    ensures GamesOf(front + [g], mu.other) == [(front + [g])[t'.pending[mu]]]
  {
    if IsDoubleHeader(g) && mu == MatchupOf(g) {
      assert t'.pending[mu] == |front|;
      NewPending(front, g, mu);
    } else {
      assert mu in t.pending && t'.pending[mu] == t.pending[mu];
      KeptPending(front, g, t, mu);
    }
  }

  /** A pending first leg stays the only game of its teams when a game of two
      other teams is pushed. */
  lemma KeptPending(front: seq<Game>, g: Game, t: KeyedTrack, mu: Matchup)
    requires PendingAlone(front, t.pending) && PendingLegs(front, t) && mu in t.pending
    requires HomeName(g) !in t.used && AwayName(g) !in t.used
    requires forall k :: GamesOf(front + [g], k) == if Involves(g, k) then [g] else GamesOf(front, k)
    ensures t.pending[mu] < |front + [g]|
    ensures GamesOf(front + [g], mu.one) == [(front + [g])[t.pending[mu]]]
    ensures GamesOf(front + [g], mu.other) == [(front + [g])[t.pending[mu]]]
  {
    var p := t.pending[mu];
    assert PendingLeg(front, p, mu, t.used);
    assert p < |front| && GamesOf(front, mu.one) == [front[p]] && GamesOf(front, mu.other) == [front[p]];
    OldPending(front, g, mu, p);
  }

  lemma NewPending(front: seq<Game>, g: Game, mu: Matchup)
    requires mu == MatchupOf(g)
    requires forall k :: GamesOf(front + [g], k) == if Involves(g, k) then [g] else GamesOf(front, k)
    ensures GamesOf(front + [g], mu.one) == [(front + [g])[|front|]]
    ensures GamesOf(front + [g], mu.other) == [(front + [g])[|front|]]
  {
    assert Involves(g, mu.one) && Involves(g, mu.other);
  }

  lemma OldPending(front: seq<Game>, g: Game, mu: Matchup, p: nat)
    requires p < |front| && !Involves(g, mu.one) && !Involves(g, mu.other)
    requires GamesOf(front, mu.one) == [front[p]] && GamesOf(front, mu.other) == [front[p]]
    requires forall k :: GamesOf(front + [g], k) == if Involves(g, k) then [g] else GamesOf(front, k)
    ensures GamesOf(front + [g], mu.one) == [(front + [g])[p]]
    ensures GamesOf(front + [g], mu.other) == [(front + [g])[p]]
  {
    assert (front + [g])[p] == front[p];
  }

  /** One team's games over a second leg between the teams of `mu`, who had the
      first leg alone. */
  lemma AnsweredTeamGames(front: seq<Game>, g: Game, first: Game, mu: Matchup, k: string)
    requires !IsPostponed(g)
    requires (mu.one == HomeName(g) && mu.other == AwayName(g)) || (mu.one == AwayName(g) && mu.other == HomeName(g))
    requires GamesOf(front, mu.one) == [first] && GamesOf(front, mu.other) == [first]
    ensures GamesOf(front + [g], k) == if Involves(g, k) then [first, g] else GamesOf(front, k)
  {
    GamesOfSnoc(front, g, k);
    if Involves(g, k) {
      if k == mu.one {
        assert GamesOf(front, k) == [first];
      } else {
        assert k == mu.other;
        assert GamesOf(front, k) == [first];
      }
      assert GamesOf(front + [g], k) == [first] + [g];
    }
  }

  /** Every team's games over a second leg whose two teams had the first leg alone. */
  lemma AnsweredGames(front: seq<Game>, g: Game, first: Game)
    requires !IsPostponed(g)
    requires GamesOf(front, MatchupOf(g).one) == [first] && GamesOf(front, MatchupOf(g).other) == [first]
    ensures forall k :: GamesOf(front + [g], k) == if Involves(g, k) then [first, g] else GamesOf(front, k)
  {
    var mu := MatchupOf(g);
    forall k
      ensures GamesOf(front + [g], k) == if Involves(g, k) then [first, g] else GamesOf(front, k)
    {
      AnsweredTeamGames(front, g, first, mu, k);
    }
  }

  lemma AnsweredOutside(front: seq<Game>, g: Game, first: Game, used: set<string>)
    requires NoneOutside(front, used) && MatchupOf(g).one in used && MatchupOf(g).other in used
    requires forall k :: GamesOf(front + [g], k) == if Involves(g, k) then [first, g] else GamesOf(front, k)
    ensures NoneOutside(front + [g], used)
  {
    forall k | k !in used
      ensures GamesOf(front + [g], k) == []
    {
      assert !Involves(g, k);
    }
  }

  lemma AnsweredLegsOk(front: seq<Game>, g: Game, first: Game)
    requires AllLegsOk(front) && IsDoubleHeader(first) && IsDoubleHeader(g) && MatchupOf(first) == MatchupOf(g)
    requires forall k :: GamesOf(front + [g], k) == if Involves(g, k) then [first, g] else GamesOf(front, k)
    ensures AllLegsOk(front + [g])
  {
    forall k
      ensures LegsOk(GamesOf(front + [g], k))
    {
      if !Involves(g, k) {
        assert LegsOk(GamesOf(front, k));
      }
    }
  }

  /** Another matchup's pending first leg is untouched by a second leg: its teams
      had that leg alone, so neither of them plays the second leg. */
  lemma OtherLegKept(front: seq<Game>, g: Game, first: Game, q: nat, mu': Matchup)
    requires q < |front| && MatchupOf(front[q]) == mu' && MatchupOf(first) == MatchupOf(g) && mu' != MatchupOf(g)
    requires GamesOf(front, mu'.one) == [front[q]] && GamesOf(front, mu'.other) == [front[q]]
    requires GamesOf(front, MatchupOf(g).one) == [first] && GamesOf(front, MatchupOf(g).other) == [first]
    requires forall k :: GamesOf(front + [g], k) == if Involves(g, k) then [first, g] else GamesOf(front, k)
    ensures GamesOf(front + [g], mu'.one) == [(front + [g])[q]] && GamesOf(front + [g], mu'.other) == [(front + [g])[q]]
  {
    var mu := MatchupOf(g);
    assert (front + [g])[q] == front[q];
    assert GamesOf(front, mu'.one)[0] == front[q] && GamesOf(front, mu'.other)[0] == front[q];
    assert GamesOf(front, mu.one)[0] == first && GamesOf(front, mu.other)[0] == first;
    assert !Involves(g, mu'.one) && !Involves(g, mu'.other);
  }

  /** The other matchups' pending first legs are untouched by a second leg. */
  lemma AnsweredPending(front: seq<Game>, g: Game, first: Game, t: KeyedTrack, t': KeyedTrack)
    requires PendingAlone(front, t.pending) && PendingLegs(front, t)
    requires MatchupOf(g) in t.pending && front[t.pending[MatchupOf(g)]] == first
    requires t'.pending == t.pending - {MatchupOf(g)}
    requires forall k :: GamesOf(front + [g], k) == if Involves(g, k) then [first, g] else GamesOf(front, k)
    ensures PendingAlone(front + [g], t'.pending)
  {
    var gs := front + [g];
    var mu := MatchupOf(g);
    assert PendingLeg(front, t.pending[mu], mu, t.used);
    forall mu' | mu' in t'.pending
      ensures t'.pending[mu'] < |gs|
      ensures GamesOf(gs, mu'.one) == [gs[t'.pending[mu']]] && GamesOf(gs, mu'.other) == [gs[t'.pending[mu']]]
    {
      var q := t.pending[mu'];
      assert PendingLeg(front, q, mu', t.used);
      OtherLegKept(front, g, first, q, mu');
    }
  }

  /** A second leg answering the unanswered first leg of its matchup. */
  lemma SecondLegTracked(front: seq<Game>, g: Game, t: KeyedTrack, t': KeyedTrack)
    requires Tracked(front, t) && PendingLegs(front, t)
    requires !IsPostponed(g) && IsDoubleHeader(g) && MatchupOf(g) in t.pending
    requires t'.used == t.used && t'.pending == t.pending - {MatchupOf(g)}
    ensures Tracked(front + [g], t')
  {
    var mu := MatchupOf(g);
    var p := t.pending[mu];
    assert PendingLeg(front, p, mu, t.used);
    var first := front[p];
    AnsweredGames(front, g, first);
    AnsweredOutside(front, g, first, t.used);
    AnsweredLegsOk(front, g, first);
    AnsweredPending(front, g, first, t, t');
  }

  /** A postponed game changes no team's games. */
  lemma PostponedTracked(front: seq<Game>, g: Game, t: KeyedTrack)
    requires Tracked(front, t) && IsPostponed(g)
    ensures Tracked(front + [g], t)
  {
    var gs := front + [g];
    forall k
      ensures GamesOf(gs, k) == GamesOf(front, k)
    {
      GamesOfSnoc(front, g, k);
    }
    forall mu | mu in t.pending
      ensures gs[t.pending[mu]] == front[t.pending[mu]]
    {
    }
  }

  /** Each team's list is its starting list plus what its games in `gs` leave. */
  ghost predicate ListsFollow(m0: TeamMap, gs: seq<Game>, m: TeamMap)
  {
    && Valid(m) && SameKeys(m, m0)
    && forall k :: k in m.values ==> m.values[k] == m0.values[k] + Added(GamesOf(gs, k), m0.values.Keys)
  }

  /** The per-matchup state part-way through a day that started from `m0`: the lists
      follow the games so far, and the open matchups are the tracker's pending ones. */
  ghost predicate Contents(m0: TeamMap, gs: seq<Game>, m: TeamMap, open: set<Matchup>)
  {
    ListsFollow(m0, gs, m) && open == TrackKeyed(gs).pending.Keys
  }

  /** One team's list over a game that gives both its teams their slot, its games
      before and after being `hs` and `hs'`. */
  lemma PushedList(l0: seq<Slot>, l: seq<Slot>, hs: seq<Game>, hs': seq<Game>, g: Game, k: string, known: set<string>)
    requires HomeName(g) != AwayName(g)
    requires hs' == if Involves(g, k) then [g] else hs
    requires l == l0 + Added(hs, known)
    requires Involves(g, k) ==> hs == []
    ensures l + BothSides(g, k, Single(g)) == l0 + Added(hs', known)
  {
    if Involves(g, k) {
      assert BothSides(g, k, Single(g)) == [Single(g)];
      assert Added([], known) == [];
      assert Added([g], known) == [Single(g)];
    } else {
      assert BothSides(g, k, Single(g)) == [];
    }
  }

  lemma PushKeepsLists(m0: TeamMap, front: seq<Game>, g: Game, t: KeyedTrack, m: TeamMap)
    requires ListsFollow(m0, front, m) && Tracked(front, t)
    requires !IsPostponed(g) && HomeName(g) != AwayName(g) && HomeName(g) !in t.used && AwayName(g) !in t.used
    ensures ListsFollow(m0, front + [g], PushBoth(m, g, Single(g)))
  {
    var r := PushBoth(m, g, Single(g));
    forall k | k in r.values
      ensures r.values[k] == m0.values[k] + Added(GamesOf(front + [g], k), m0.values.Keys)
    {
      if Involves(g, k) {
        assert k !in t.used;
      }
      PushedTeam(front, g, k);
      PushedList(m0.values[k], m.values[k], GamesOf(front, k), GamesOf(front + [g], k), g, k, m0.values.Keys);
    }
  }

  /** One team's list over a second leg, its games before and after being `hs` and
      `hs'`: the two teams of the leg lose the first leg and gain the pair when the
      second leg's home team is known; every other team keeps its list. */
  lemma AnsweredTeam(l0: seq<Slot>, l: seq<Slot>, lr: seq<Slot>, hs: seq<Game>, hs': seq<Game>,
                     first: Game, g: Game, k: string, known: set<string>, added: seq<Slot>)
    requires l == l0 + Added(hs, known)
    requires added == if HomeName(g) in known then [Pair(first, g)] else []
    requires Involves(g, k) ==> hs == [first] && hs' == hs + [g] && lr == DropLast(l) + added
    requires !Involves(g, k) ==> hs' == hs && lr == l
    ensures lr == l0 + Added(hs', known)
  {
    if Involves(g, k) {
      assert hs' == [first, g];
      assert Added([first], known) == [Single(first)];
      assert DropLast(l0 + [Single(first)]) == l0;
    }
  }

  /** Every list over a second leg whose two teams had the first leg alone. */
  lemma AnsweredLists(m0: TeamMap, front: seq<Game>, first: Game, g: Game, added: seq<Slot>, m: TeamMap, r: TeamMap)
    requires ListsFollow(m0, front, m) && Valid(r) && SameKeys(r, m)
    requires !IsPostponed(g)
    requires GamesOf(front, HomeName(g)) == [first] && GamesOf(front, AwayName(g)) == [first]
    requires added == if HomeName(g) in m0.values.Keys then [Pair(first, g)] else []
    requires forall k :: k in m.values && !Involves(g, k) ==> r.values[k] == m.values[k]
    requires forall k :: k in m.values && Involves(g, k) ==> r.values[k] == DropLast(m.values[k]) + added
    ensures ListsFollow(m0, front + [g], r)
  {
    forall k | k in r.values
      ensures r.values[k] == m0.values[k] + Added(GamesOf(front + [g], k), m0.values.Keys)
    {
      var hs := GamesOf(front, k);
      var hs' := GamesOf(front + [g], k);
      GamesOfSnoc(front, g, k);
      assert Involves(g, k) ==> hs == [first] && hs' == hs + [g] && r.values[k] == DropLast(m.values[k]) + added;
      assert !Involves(g, k) ==> hs' == hs && r.values[k] == m.values[k];
      AnsweredTeam(m0.values[k], m.values[k], r.values[k], hs, hs', first, g, k, m0.values.Keys, added);
    }
  }

  /** The list of a team whose one game so far is a first leg ends with that leg. */
  lemma FirstLegLast(m0: TeamMap, front: seq<Game>, first: Game, team: string, m: TeamMap)
    requires ListsFollow(m0, front, m) && GamesOf(front, team) == [first]
    ensures LastEntry(m, team) == if team in m0.values then Some(Single(first)) else None
  {
    assert Added([first], m0.values.Keys) == [Single(first)];
    if team in m.values {
      var l := m.values[team];
      assert l == m0.values[team] + [Single(first)];
      assert l[|l| - 1] == Single(first);
    }
  }

  lemma SecondLegKeepsLists(m0: TeamMap, front: seq<Game>, first: Game, g: Game, m: TeamMap)
    requires ListsFollow(m0, front, m)
    requires !IsPostponed(g) && HomeName(g) != AwayName(g)
    requires GamesOf(front, HomeName(g)) == [first] && GamesOf(front, AwayName(g)) == [first]
    ensures ListsFollow(m0, front + [g], SecondLeg(m, g))
  {
    var added := if HomeName(g) in m0.values then [Pair(first, g)] else [];
    FirstLegLast(m0, front, first, HomeName(g), m);
    var r := SecondLeg(m, g);
    assert forall k :: k in m.values && Involves(g, k) ==> r.values[k] == DropLast(m.values[k]) + added;
    AnsweredLists(m0, front, first, g, added, m, r);
  }

  lemma PostponedKeepsLists(m0: TeamMap, front: seq<Game>, g: Game, m: TeamMap)
    requires ListsFollow(m0, front, m) && IsPostponed(g)
    ensures ListsFollow(m0, front + [g], m)
  {
    forall k | k in m.values
      ensures GamesOf(front + [g], k) == GamesOf(front, k)
    {
      GamesOfSnoc(front, g, k);
    }
  }

  /** A second leg, with the trackers before and after it given. */
  lemma SecondLegStep(m0: TeamMap, gs: seq<Game>, front: seq<Game>, g: Game, m: TeamMap, t: KeyedTrack, t': KeyedTrack)
    requires gs == front + [g]
    requires ListsFollow(m0, front, m) && Tracked(front, t) && PendingLegs(front, t)
    requires !IsPostponed(g) && IsDoubleHeader(g) && MatchupOf(g) in t.pending
    requires t'.used == t.used && t'.pending == t.pending - {MatchupOf(g)}
    ensures ListsFollow(m0, gs, SecondLeg(m, g)) && Tracked(gs, t')
    ensures t'.pending.Keys == t.pending.Keys - {MatchupOf(g)}
  {
    SecondLegTracked(front, g, t, t');
    var mu := MatchupOf(g);
    var p := t.pending[mu];
    assert PendingLeg(front, p, mu, t.used);
    assert GamesOf(front, mu.one) == [front[p]] && GamesOf(front, mu.other) == [front[p]];
    SecondLegKeepsLists(m0, front, front[p], g, m);
  }

  /** A game that gives both its teams their slot, with the trackers given. */
  lemma PushStep(m0: TeamMap, gs: seq<Game>, front: seq<Game>, g: Game, m: TeamMap, t: KeyedTrack, t': KeyedTrack)
    requires gs == front + [g]
    requires ListsFollow(m0, front, m) && Tracked(front, t) && PendingLegs(front, t)
    requires !IsPostponed(g) && HomeName(g) != AwayName(g) && HomeName(g) !in t.used && AwayName(g) !in t.used
    requires t'.used == t.used + {HomeName(g), AwayName(g)}
    requires t'.pending == if IsDoubleHeader(g) then t.pending[MatchupOf(g) := |front|] else t.pending
    ensures ListsFollow(m0, gs, PushBoth(m, g, Single(g))) && Tracked(gs, t')
    ensures t'.pending.Keys == if IsDoubleHeader(g) then t.pending.Keys + {MatchupOf(g)} else t.pending.Keys
  {
    PushTracked(front, g, t, t');
    PushKeepsLists(m0, front, g, t, m);
  }

  lemma PostponedContents(m0: TeamMap, gs: seq<Game>, m: TeamMap, open: set<Matchup>)
    requires |gs| > 0 && IsPostponed(gs[|gs| - 1])
    requires Contents(m0, gs[..|gs| - 1], m, open) && GamesTracked(gs[..|gs| - 1])
    ensures Contents(m0, gs, m, open) && GamesTracked(gs)
  {
    var front := gs[..|gs| - 1];
    var g := gs[|gs| - 1];
    FrontLast(gs);
    assert TrackKeyed(gs) == TrackKeyed(front);
    PostponedTracked(front, g, TrackKeyed(front));
    PostponedKeepsLists(m0, front, g, m);
  }

  lemma SecondLegContents(m0: TeamMap, gs: seq<Game>, m: TeamMap, open: set<Matchup>)
    requires |gs| > 0 && TrackKeyed(gs).ok
    requires !IsPostponed(gs[|gs| - 1]) && IsDoubleHeader(gs[|gs| - 1]) && MatchupOf(gs[|gs| - 1]) in open
    requires Contents(m0, gs[..|gs| - 1], m, open) && GamesTracked(gs[..|gs| - 1])
    ensures Contents(m0, gs, SecondLeg(m, gs[|gs| - 1]), open - {MatchupOf(gs[|gs| - 1])}) && GamesTracked(gs)
  {
    TrackSecondLeg(gs);
    var front := gs[..|gs| - 1];
    var g := gs[|gs| - 1];
    var t := TrackKeyed(front);
    var t' := TrackKeyed(gs);
    FrontLast(gs);
    SecondLegStep(m0, gs, front, g, m, t, t');
  }

  lemma PushContents(m0: TeamMap, gs: seq<Game>, m: TeamMap, open: set<Matchup>)
    requires |gs| > 0 && TrackKeyed(gs).ok
    requires !IsPostponed(gs[|gs| - 1]) && !(IsDoubleHeader(gs[|gs| - 1]) && MatchupOf(gs[|gs| - 1]) in open)
    requires Contents(m0, gs[..|gs| - 1], m, open) && GamesTracked(gs[..|gs| - 1])
    ensures var g := gs[|gs| - 1];
      Contents(m0, gs, PushBoth(m, g, Single(g)), if IsDoubleHeader(g) then open + {MatchupOf(g)} else open)
    ensures GamesTracked(gs)
  {
    TrackPush(gs);
    FrontLast(gs);
    PushStep(m0, gs, gs[..|gs| - 1], gs[|gs| - 1], m, TrackKeyed(gs[..|gs| - 1]), TrackKeyed(gs));
  }

  lemma ContentsStep(m0: TeamMap, gs: seq<Game>, m: TeamMap, open: set<Matchup>)
    requires |gs| > 0 && TrackKeyed(gs).ok
    requires Contents(m0, gs[..|gs| - 1], m, open) && GamesTracked(gs[..|gs| - 1])
    ensures Contents(m0, gs, StepKeyed(m, open, gs[|gs| - 1]).0, StepKeyed(m, open, gs[|gs| - 1]).1)
    ensures GamesTracked(gs)
  {
    var g := gs[|gs| - 1];
    var mu := MatchupOf(g);
    if IsPostponed(g) {
      assert StepKeyed(m, open, g) == (m, open);
      PostponedContents(m0, gs, m, open);
    } else if IsDoubleHeader(g) && mu in open {
      assert StepKeyed(m, open, g) == (SecondLeg(m, g), open - {mu});
      SecondLegContents(m0, gs, m, open);
    } else {
      assert StepKeyed(m, open, g) == (PushBoth(m, g, Single(g)), if IsDoubleHeader(g) then open + {mu} else open);
      PushContents(m0, gs, m, open);
    }
  }

  /** Over a day where every team plays one matchup at most, the per-matchup merge
      leaves each team's list as its starting list plus exactly what that team's own
      games leave: its game, or its doubleheader's pair, or nothing. */
  lemma {:induction false} DayContent(m0: TeamMap, gs: seq<Game>)
    requires Valid(m0) && OneMatchupPerTeam(gs)
    ensures Contents(m0, gs, ProcessGamesKeyed(m0, gs).0, ProcessGamesKeyed(m0, gs).1)
    ensures GamesTracked(gs)
    decreases |gs|
  {
    if gs != [] {
      var front := gs[..|gs| - 1];
      assert TrackKeyed(front).ok;
      DayContent(m0, front);
      var before := ProcessGamesKeyed(m0, front);
      ContentsStep(m0, gs, before.0, before.1);
    } else {
      forall k | k in m0.values
        ensures m0.values[k] == m0.values[k] + Added(GamesOf(gs, k), m0.values.Keys)
      {
        assert GamesOf(gs, k) == [];
      }
    }
  }

  /** The day followed by its end-of-day pass: every list gains exactly the team's
      entry for the day. */
  lemma DayThenFillContent(m0: TeamMap, n: nat, gs: seq<Game>)
    requires Valid(m0) && OneMatchupPerTeam(gs)
    requires forall k :: k in m0.values ==> |m0.values[k]| == n
    ensures forall k :: k in m0.values ==>
      Fill(ProcessGamesKeyed(m0, gs).0, n + 1).values[k] == m0.values[k] + [DaySlot(GamesOf(gs, k), m0.values.Keys)]
  {
    DayLists(m0, gs);
    var m := ProcessGamesKeyed(m0, gs).0;
    forall k | k in m0.values
      ensures Fill(m, n + 1).values[k] == m0.values[k] + [DaySlot(GamesOf(gs, k), m0.values.Keys)]
    {
      FilledTeam(m0.values[k], m.values[k], Fill(m, n + 1).values[k], GamesOf(gs, k), m0.values.Keys);
    }
  }

  /** The lists of `DayContent` alone. */
  lemma DayLists(m0: TeamMap, gs: seq<Game>)
    requires Valid(m0) && OneMatchupPerTeam(gs)
    ensures ListsFollow(m0, gs, ProcessGamesKeyed(m0, gs).0)
  {
    DayContent(m0, gs);
  }

  /** The end-of-day pass turns what a team's games left into its entry for the day. */
  lemma FilledTeam(l0: seq<Slot>, l: seq<Slot>, lf: seq<Slot>, hs: seq<Game>, known: set<string>)
    requires l == l0 + Added(hs, known)
    requires lf == if |l| < |l0| + 1 then l + [Empty] else l
    ensures lf == l0 + [DaySlot(hs, known)]
  {
  }

  /** A list holding team `k`'s entry for each day, in order. */
  ghost predicate EntriesOf(l: seq<Slot>, days: seq<Day>, k: string, known: set<string>)
  {
    && |l| == |days|
    && forall d :: 0 <= d < |days| ==> l[d] == DaySlot(GamesOf(days[d].games, k), known)
  }

  /** Every list holds one entry per day, entry `d` being the team's entry for day `d`. */
  ghost predicate EntriesAre(r: TeamMap, days: seq<Day>, known: set<string>)
  {
    forall k :: k in r.values ==> EntriesOf(r.values[k], days, k, known)
  }

  /** One more day's entry at the end of one list. */
  lemma EntriesOfSnoc(l: seq<Slot>, days: seq<Day>, k: string, known: set<string>)
    requires |days| > 0 && EntriesOf(l, days[..|days| - 1], k, known)
    ensures EntriesOf(l + [DaySlot(GamesOf(days[|days| - 1].games, k), known)], days, k, known)
  {
    var n := |days| - 1;
    var l' := l + [DaySlot(GamesOf(days[n].games, k), known)];
    forall d | 0 <= d < n
      ensures l'[d] == DaySlot(GamesOf(days[d].games, k), known)
    {
      assert l'[d] == l[d];
      assert days[..n][d] == days[d];
    }
  }

  /** One more day's entry at the end of every list. */
  lemma EntriesSnoc(before: TeamMap, r: TeamMap, days: seq<Day>, known: set<string>)
    requires |days| > 0 && EntriesAre(before, days[..|days| - 1], known)
    requires r.values.Keys == before.values.Keys
    requires forall k :: k in r.values ==>
      r.values[k] == before.values[k] + [DaySlot(GamesOf(days[|days| - 1].games, k), known)]
    ensures EntriesAre(r, days, known)
  {
    forall k | k in r.values
      ensures EntriesOf(r.values[k], days, k, known)
    {
      EntriesOfSnoc(before.values[k], days, k, known);
    }
  }

  /** When every team plays one matchup a day at most, the per-matchup merge gives
      every team, for every day, exactly the entry its own games of that day call for. */
  lemma {:induction false} ParseContentsKeyed(roster: Roster, days: seq<Day>)
    requires Valid(roster) && OneMatchupPerTeamEachDay(days)
    ensures EntriesAre(ParseScheduleKeyed(roster, days), days, roster.values.Keys)
    decreases |days|
  {
    if days != [] {
      var n := |days| - 1;
      var front := days[..n];
      assert OneMatchupPerTeamEachDay(front) by {
        forall d | 0 <= d < |front|
          ensures OneMatchupPerTeam(front[d].games)
        {
          assert front[d] == days[d];
        }
      }
      ParseContentsKeyed(roster, front);
      var before := ParseScheduleKeyed(roster, front);
      assert OneMatchupPerTeam(days[n].games);
      DayThenFillContent(before, n, days[n].games);
      assert ParseScheduleKeyed(roster, days) == Fill(ProcessGamesKeyed(before, days[n].games).0, n + 1);
      EntriesSnoc(before, ParseScheduleKeyed(roster, days), days, roster.values.Keys);
    }
  }

  /** When every day has one first leg unanswered at a time, `ParseSchedule` gives
      every team, for every day, exactly the entry its own games of that day call for. */
  lemma ParseContents(roster: Roster, days: seq<Day>)
    requires Valid(roster) && OneSlotPerTeamEachDay(days)
    ensures EntriesAre(ParseSchedule(roster, days), days, roster.values.Keys)
  {
    ParseAgrees(roster, days);
    forall d | 0 <= d < |days|
      ensures OneMatchupPerTeam(days[d].games)
    {
      TracksAgree(days[d].games);
    }
    ParseContentsKeyed(roster, days);
  }

  /** The games of `a + b` for a team are its games of `a`, then those of `b`. */
  lemma {:induction false} GamesOfAppend(a: seq<Game>, b: seq<Game>, k: string)
    ensures GamesOf(a + b, k) == GamesOf(a, k) + GamesOf(b, k)
    decreases |b|
  {
    if b == [] {
      assert a + b == a;
    } else {
      var b' := b[..|b| - 1];
      assert (a + b)[..|a + b| - 1] == a + b';
      GamesOfAppend(a, b', k);
    }
  }

  /** A team's games around one of them at index `i`. */
  lemma GamesOfAround(s: seq<Game>, i: nat, k: string)
    requires i < |s| && !IsPostponed(s[i]) && Involves(s[i], k)
    ensures GamesOf(s, k) == GamesOf(s[..i], k) + [s[i]] + GamesOf(s[i + 1..], k)
  {
    assert s == s[..i] + ([s[i]] + s[i + 1..]);
    assert [s[i]][..0] == [];
    GamesOfAppend(s[..i], [s[i]] + s[i + 1..], k);
    GamesOfAppend([s[i]], s[i + 1..], k);
  }

  /** Two of a team's games at `i < j`, when it has at most two, are all of them. */
  lemma TwoGamesOf(gs: seq<Game>, k: string, i: nat, j: nat)
    requires i < j < |gs| && |GamesOf(gs, k)| <= 2
    requires !IsPostponed(gs[i]) && Involves(gs[i], k) && !IsPostponed(gs[j]) && Involves(gs[j], k)
    ensures GamesOf(gs, k) == [gs[i], gs[j]]
  {
    GamesOfAround(gs, j, k);
    var pre := gs[..j];
    assert pre[i] == gs[i];
    GamesOfAround(pre, i, k);
    assert GamesOf(pre[..i], k) == [] && GamesOf(pre[i + 1..], k) == [] && GamesOf(gs[j + 1..], k) == [];
  }

  /** A team's two games of a day with one first leg unanswered at a time, wherever
      they sit, are all its games and the two "Y" legs of one matchup. */
  lemma TwoLegs(gs: seq<Game>, k: string, i: nat, j: nat)
    requires OneSlotPerTeam(gs) && i < j < |gs|
    requires !IsPostponed(gs[i]) && Involves(gs[i], k) && !IsPostponed(gs[j]) && Involves(gs[j], k)
    ensures GamesOf(gs, k) == [gs[i], gs[j]]
    ensures IsDoubleHeader(gs[i]) && IsDoubleHeader(gs[j]) && MatchupOf(gs[i]) == MatchupOf(gs[j])
  {
    TracksAgree(gs);
    DayContent(EmptyMap(), gs);
    assert LegsOk(GamesOf(gs, k));
    TwoGamesOf(gs, k, i, j);
  }

  /** Wherever a team's two games of the day sit, with other games before or between
      them: on a day with one first leg unanswered at a time, they are the two "Y"
      legs of one matchup, and the team's entry for the day is that pair, earlier
      game first, as long as the home team is in the roster. */
  lemma DoubleHeaderEntry(roster: Roster, days: seq<Day>, d: nat, i: nat, j: nat, k: string)
    requires Valid(roster) && OneSlotPerTeamEachDay(days)
    requires d < |days| && i < j < |days[d].games|
    requires !IsPostponed(days[d].games[i]) && Involves(days[d].games[i], k)
    requires !IsPostponed(days[d].games[j]) && Involves(days[d].games[j], k)
    requires k in roster.values && HomeName(days[d].games[j]) in roster.values
    ensures |ParseSchedule(roster, days).values[k]| == |days|
    ensures IsDoubleHeader(days[d].games[i]) && IsDoubleHeader(days[d].games[j])
    ensures MatchupOf(days[d].games[i]) == MatchupOf(days[d].games[j])
    ensures ParseSchedule(roster, days).values[k][d] == Pair(days[d].games[i], days[d].games[j])
  {
    var gs := days[d].games;
    assert OneSlotPerTeam(gs);
    TwoLegs(gs, k, i, j);
    ParseContents(roster, days);
    assert ParseSchedule(roster, days).values[k][d] == DaySlot(GamesOf(gs, k), roster.values.Keys);
  }

  /** The nightcap of the Red Sox–Yankees doubleheader, with the Yankees at home. */
  const SwappedNightcap := DemoGame("Yankees", "Red Sox", "18:10", "Y")

  /** A doubleheader whose two legs swap home and away. */
  const SwappedDay := Day("2023-07-08", [RedSoxOpener, SwappedNightcap])

  /** The swapped day gives each team one slot, the nightcap answering the opener. */
  lemma SwappedDayOneSlot()
    ensures OneSlotPerTeamEachDay([SwappedDay])
  {
    SameMatchup(RedSoxOpener, SwappedNightcap);
    var gs := SwappedDay.games;
    assert gs[..1] == [RedSoxOpener] && [RedSoxOpener][..0] == [];
    assert Track(gs[..1]).pending == Some(0);
    assert OneSlotPerTeam(gs);
    assert [SwappedDay][0] == SwappedDay;
  }

  /** Either team of the swapped doubleheader gets the pair as its one entry. */
  lemma SwappedEntry(k: string)
    requires k == "Red Sox" || k == "Yankees"
    ensures ParseSchedule(DemoRoster(), [SwappedDay]).values[k] == [Pair(RedSoxOpener, SwappedNightcap)]
  {
    SwappedDayOneSlot();
    assert [SwappedDay][0].games == [RedSoxOpener, SwappedNightcap];
    DoubleHeaderEntry(DemoRoster(), [SwappedDay], 0, 0, 1, k);
  }

  /** The swapped nightcap pops its own home team's list, whose last entry is the
      opener, so `parseScheduleData` merges the two legs for both teams, and the
      per-matchup version builds the same map. */
  lemma SwappedLegsMerged()
    ensures OneSlotPerTeamEachDay([SwappedDay])
    ensures ParseSchedule(DemoRoster(), [SwappedDay]).values["Red Sox"] == [Pair(RedSoxOpener, SwappedNightcap)]
    ensures ParseSchedule(DemoRoster(), [SwappedDay]).values["Yankees"] == [Pair(RedSoxOpener, SwappedNightcap)]
    ensures ParseScheduleKeyed(DemoRoster(), [SwappedDay]) == ParseSchedule(DemoRoster(), [SwappedDay])
  {
    SwappedDayOneSlot();
    SwappedEntry("Red Sox");
    SwappedEntry("Yankees");
    ParseAgrees(DemoRoster(), [SwappedDay]);
  }
}
