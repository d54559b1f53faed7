/** What the leaderboards show, read off the history of results: who is listed, in which order,
    with which figures, for the lifetime and for every season. */
module Rankings {
  import opened Types
  import opened Leaderboard

  // ----- the history that counts -----

  /** The events that were accepted; a refused one leaves no trace. */
  function Accepted(es: seq<Event>): seq<Event> {
    if es == [] then []
    else
      var n := |es| - 1;
      Accepted(es[..n]) + if StepEvent(RunEvents(NEW_STANDINGS, es[..n]), es[n]).Ok? then [es[n]] else []
  }

  /** The number of the season after these events: one more than the resets. */
  function SeasonAfter(es: seq<Event>): nat {
    if es == [] then 1
    else SeasonAfter(es[..|es| - 1]) + if es[|es| - 1].Reset? then 1 else 0
  }

  /** The games of one season. */
  function GamesIn(es: seq<Event>, season: nat): seq<Event> {
    if es == [] then []
    else
      var n := |es| - 1;
      GamesIn(es[..n], season) + if es[n].Game? && SeasonAfter(es[..n]) == season then [es[n]] else []
  }

  predicate Plays(es: seq<Event>, u: Address) {
    exists i :: 0 <= i < |es| && es[i].Game? && es[i].user == u
  }

  function Record(es: seq<Event>, u: Address): Stats {
    Tally(es, u, false)
  }

  // ----- what a record says -----

  /** The results of one player, oldest first. */
  function ResultsOf(es: seq<Event>, u: Address): seq<bool> {
    if es == [] then []
    else
      var n := |es| - 1;
      ResultsOf(es[..n], u) + if es[n].Game? && es[n].user == u then [es[n].won] else []
  }

  /** `length` wins in a row, ending before result `end`. */
  predicate Streak(results: seq<bool>, end: nat, length: nat) {
    length <= end <= |results| && forall i | end - length <= i < end :: results[i]
  }

  /** The current streak is the longest one at the end, the best streak the longest one anywhere. */
  ghost predicate IsRecord(st: Stats, results: seq<bool>) {
    && st.wins == multiset(results)[true] && st.losses == multiset(results)[false]
    && Streak(results, |results|, st.streak)
    && (forall length: nat :: Streak(results, |results|, length) ==> length <= st.streak)
    && (exists end: nat :: Streak(results, end, st.best))
    && (forall end: nat, length: nat :: Streak(results, end, length) ==> length <= st.best)
  }

  lemma StreakNext(results: seq<bool>, won: bool, end: nat, length: nat)
    requires end <= |results|
    ensures Streak(results + [won], end, length) <==> Streak(results, end, length)
    ensures Streak(results + [won], |results| + 1, length) <==>
              length == 0 || (won && Streak(results, |results|, length - 1))
  {
    var more := results + [won];
    assert forall i :: 0 <= i < |results| ==> more[i] == results[i];
    if Streak(more, end, length) {
      forall i | end - length <= i < end ensures results[i] { assert more[i]; }
    }
    if length > 0 && Streak(more, |results| + 1, length) {
      assert more[|results|] == won;
      forall i | |results| - (length - 1) <= i < |results| ensures results[i] { assert more[i]; }
    }
  }

  lemma RecordGrows(st: Stats, results: seq<bool>, won: bool)
    requires IsRecord(st, results)
    ensures var best := if st.streak + 1 > st.best then st.streak + 1 else st.best;
            IsRecord(if won then Stats(st.wins + 1, st.losses, st.streak + 1, best) else Stats(st.wins, st.losses + 1, 0, st.best),
                     results + [won])
  {
    var more := results + [won];
    var best := if st.streak + 1 > st.best then st.streak + 1 else st.best;
    var r := if won then Stats(st.wins + 1, st.losses, st.streak + 1, best) else Stats(st.wins, st.losses + 1, 0, st.best);
    assert multiset(more) == multiset(results) + multiset{won};
    forall length: nat | Streak(more, |more|, length) ensures length <= r.streak && length <= r.best {
      StreakNext(results, won, |results|, length);
      if length > 0 { assert Streak(results, |results|, length - 1); }
    }
    forall end: nat, length: nat | Streak(more, end, length) ensures length <= r.best {
      if end <= |results| { StreakNext(results, won, end, length); }
    }
    StreakNext(results, won, |results|, r.streak);
    var end: nat :| Streak(results, end, st.best);
    StreakNext(results, won, end, st.best);
    StreakNext(results, won, |results|, r.best);
    assert Streak(more, if r.best == st.best then end else |more|, r.best);
  }

  /** A record is the numbers of wins and losses, the wins since the last loss, and the longest
      run of wins. */
  lemma {:induction false} RecordIs(es: seq<Event>, u: Address)
    ensures IsRecord(Record(es, u), ResultsOf(es, u))
  {
    if es == [] {
      assert Streak([], 0, 0);
    } else {
      var n := |es| - 1;
      RecordIs(es[..n], u);
      if es[n].Game? && es[n].user == u {
        RecordGrows(Record(es[..n], u), ResultsOf(es[..n], u), es[n].won);
      } else {
        assert ResultsOf(es[..n], u) + [] == ResultsOf(es[..n], u);
      }
    }
  }

  // ----- the tables -----

  /** A table holds the record of every player of the games, and of nobody else. */
  ghost predicate IsTable(table: Table, es: seq<Event>) {
    forall u: Address :: (u in table <==> Plays(es, u)) && StatsOf(table, u) == Record(es, u)
  }

  ghost predicate TablesAre(s: Standings, es: seq<Event>) {
    && s.season == SeasonAfter(es)
    && IsTable(s.lifetime.table, es)
    && forall n :: IsTable(TableAt(s.stats, n), GamesIn(es, n))
  }

  lemma PlaysNext(es: seq<Event>, e: Event, u: Address)
    ensures Plays(es + [e], u) <==> Plays(es, u) || (e.Game? && e.user == u)
  {
    var all := es + [e];
    if i :| 0 <= i < |es| && es[i].Game? && es[i].user == u { assert all[i] == es[i]; }
    assert all[|es|] == e;
  }

  lemma RecordNext(es: seq<Event>, e: Event, u: Address)
    ensures Record(es + [e], u) == match e
            case Reset(_) => Record(es, u)
            case Game(v, won) =>
              if v != u then Record(es, u)
              else
                var st := Record(es, u);
                if won then Stats(st.wins + 1, st.losses, st.streak + 1, if st.streak + 1 > st.best then st.streak + 1 else st.best)
                else Stats(st.wins, st.losses + 1, 0, st.best)
  {
    assert (es + [e])[..|es|] == es;
  }

  lemma TableNext(table: Table, es: seq<Event>, v: Address, won: bool)
    requires IsTable(table, es) && AfterGame(StatsOf(table, v), won).Ok?
    ensures IsTable(table[v := AfterGame(StatsOf(table, v), won).value], es + [Game(v, won)])
  {
    var t := table[v := AfterGame(StatsOf(table, v), won).value];
    forall u: Address ensures (u in t <==> Plays(es + [Game(v, won)], u)) && StatsOf(t, u) == Record(es + [Game(v, won)], u) {
      PlaysNext(es, Game(v, won), u);
      RecordNext(es, Game(v, won), u);
    }
  }

  lemma ResetTable(table: Table, es: seq<Event>, now: nat)
    requires IsTable(table, es)
    ensures IsTable(table, es + [Reset(now)])
  {
    forall u: Address ensures (u in table <==> Plays(es + [Reset(now)], u)) && StatsOf(table, u) == Record(es + [Reset(now)], u) {
      PlaysNext(es, Reset(now), u);
      RecordNext(es, Reset(now), u);
    }
  }

  lemma GamesNext(es: seq<Event>, e: Event, season: nat)
    ensures GamesIn(es + [e], season) == GamesIn(es, season) + if e.Game? && SeasonAfter(es) == season then [e] else []
    ensures SeasonAfter(es + [e]) == SeasonAfter(es) + if e.Reset? then 1 else 0
  {
    assert (es + [e])[..|es|] == es;
  }

  lemma GameTables(s: Standings, es: seq<Event>, v: Address, won: bool)
    requires TablesAre(s, es) && Play(s, v, won).Ok?
    ensures TablesAre(Play(s, v, won).value, es + [Game(v, won)])
  {
    PlayReads(s, v, won);
    PlayWrites(s, v, won);
    PlayedWrites(s.lifetime, v, won);
    PlayedWrites(Current(s), v, won);
    TableNext(s.lifetime.table, es, v, won);
    GamesNext(es, Game(v, won), 0);
    SeasonTables(s.stats, s.season, es, v, won);
  }

  lemma SeasonTables(stats: map<nat, Table>, season: nat, es: seq<Event>, v: Address, won: bool)
    requires season == SeasonAfter(es) && forall n :: IsTable(TableAt(stats, n), GamesIn(es, n))
    requires AfterGame(StatsOf(TableAt(stats, season), v), won).Ok?
    ensures var table := TableAt(stats, season)[v := AfterGame(StatsOf(TableAt(stats, season), v), won).value];
            forall n :: IsTable(TableAt(stats[season := table], n), GamesIn(es + [Game(v, won)], n))
  {
    TableNext(TableAt(stats, season), GamesIn(es, season), v, won);
    forall n ensures n != season ==> GamesIn(es + [Game(v, won)], n) == GamesIn(es, n)
      ensures GamesIn(es + [Game(v, won)], season) == GamesIn(es, season) + [Game(v, won)]
    {
      GamesNext(es, Game(v, won), n);
      GamesNext(es, Game(v, won), season);
      assert GamesIn(es, n) + [] == GamesIn(es, n);
    }
  }

  lemma ResetTables(s: Standings, es: seq<Event>, now: nat)
    requires TablesAre(s, es) && EndSeason(s, now).Ok?
    ensures TablesAre(EndSeason(s, now).value, es + [Reset(now)])
  {
    ResetTable(s.lifetime.table, es, now);
    forall n ensures GamesIn(es + [Reset(now)], n) == GamesIn(es, n) && SeasonAfter(es + [Reset(now)]) == SeasonAfter(es) + 1 {
      GamesNext(es, Reset(now), n);
      assert GamesIn(es, n) + [] == GamesIn(es, n);
    }
  }

  /** After any run every table is the record of the accepted games. */
  lemma {:induction false} RunTables(es: seq<Event>)
    ensures TablesAre(RunEvents(NEW_STANDINGS, es), Accepted(es))
  {
    if es != [] {
      var n := |es| - 1;
      RunTables(es[..n]);
      var mid := RunEvents(NEW_STANDINGS, es[..n]);
      if StepEvent(mid, es[n]).Ok? {
        match es[n]
        case Game(v, won) => GameTables(mid, Accepted(es[..n]), v, won);
        case Reset(now) => ResetTables(mid, Accepted(es[..n]), now);
      } else {
        assert Accepted(es[..n]) + [] == Accepted(es[..n]);
      }
    }
  }

  // ----- the rankings -----

  /** A list of at most 100 players by wins, the lower address first among equals; anybody left
      out of a list has no more wins than everybody on it, and then the list is full. */
  ghost predicate RanksWins(list: seq<Address>, es: seq<Event>) {
    && |list| <= 100
    && (forall i :: 0 <= i < |list| ==> Plays(es, list[i]))
    && (forall i, j :: 0 <= i < j < |list| ==>
          Record(es, list[i]).wins > Record(es, list[j]).wins || (Record(es, list[i]).wins == Record(es, list[j]).wins && list[i] < list[j]))
    && (forall u: Address :: Plays(es, u) && u !in list ==>
          |list| == 100 && forall i :: 0 <= i < |list| ==>
            Record(es, u).wins < Record(es, list[i]).wins || (Record(es, u).wins == Record(es, list[i]).wins && u > list[i]))
  }

  /** The same by best streak. */
  ghost predicate RanksStreaks(list: seq<Address>, es: seq<Event>) {
    && |list| <= 100
    && (forall i :: 0 <= i < |list| ==> Plays(es, list[i]))
    && (forall i, j :: 0 <= i < j < |list| ==>
          Record(es, list[i]).best > Record(es, list[j]).best || (Record(es, list[i]).best == Record(es, list[j]).best && list[i] < list[j]))
    && (forall u: Address :: Plays(es, u) && u !in list ==>
          |list| == 100 && forall i :: 0 <= i < |list| ==>
            Record(es, u).best < Record(es, list[i]).best || (Record(es, u).best == Record(es, list[i]).best && u > list[i]))
  }

  lemma TopRanksWins(table: Table, list: seq<Address>, es: seq<Event>)
    requires IsTop(ByWins, table, list) && IsTable(table, es)
    ensures RanksWins(list, es)
  {
    forall i, j | 0 <= i < j < |list| ensures Ahead(ByWins, table, list[i], list[j]) { }
    forall u: Address | Plays(es, u) && u !in list ensures u in table { }
  }

  lemma TopRanksStreaks(table: Table, list: seq<Address>, es: seq<Event>)
    requires IsTop(ByStreak, table, list) && IsTable(table, es)
    ensures RanksStreaks(list, es)
  {
    forall i, j | 0 <= i < j < |list| ensures Ahead(ByStreak, table, list[i], list[j]) { }
    forall u: Address | Plays(es, u) && u !in list ensures u in table { }
  }

  /** After any run the lifetime indexes rank everybody who ever played by wins and by best
      streak over the whole history. */
  lemma LifetimeRankings(es: seq<Event>)
    ensures RanksWins(RunEvents(NEW_STANDINGS, es).lifetime.wins, Accepted(es))
    ensures RanksStreaks(RunEvents(NEW_STANDINGS, es).lifetime.streaks, Accepted(es))
  {
    var s := RunEvents(NEW_STANDINGS, es);
    RunIsExact(es);
    RunTables(es);
    TopRanksWins(s.lifetime.table, s.lifetime.wins, Accepted(es));
    TopRanksStreaks(s.lifetime.table, s.lifetime.streaks, Accepted(es));
  }

  /** Every entry carries its player's wins and best streak. */
  ghost predicate Figures(entries: seq<Entry>, es: seq<Event>) {
    forall i :: 0 <= i < |entries| ==>
      entries[i].wins == Record(es, entries[i].user).wins && entries[i].best == Record(es, entries[i].user).best
  }

  /** What is served for a season, live or archived, ranks its players by wins and by best streak
      over the games of that season alone, with those figures; for a season that has not begun,
      and for season 0, nothing is served. */
  lemma SeasonRankings(es: seq<Event>, id: nat)
    ensures var s := RunEvents(NEW_STANDINGS, es);
            var games := GamesIn(Accepted(es), id);
            var wins, streaks := SeasonRanking(s, ByWins, id), SeasonRanking(s, ByStreak, id);
            if 1 <= id <= SeasonAfter(Accepted(es)) then
              && RanksWins(UsersOf(wins), games) && Figures(wins, games)
              && RanksStreaks(UsersOf(streaks), games) && Figures(streaks, games)
            else wins == streaks == []
  {
    var s := RunEvents(NEW_STANDINGS, es);
    RunIsExact(es);
    RunTables(es);
    if 1 <= id <= s.season {
      ShownIsRanked(s, es, id);
    }
  }

  lemma ShownIsRanked(s: Standings, es: seq<Event>, id: nat)
    requires StandingsOk(s) && TablesAre(s, Accepted(es)) && 1 <= id <= s.season
    ensures var games := GamesIn(Accepted(es), id);
            var wins, streaks := SeasonRanking(s, ByWins, id), SeasonRanking(s, ByStreak, id);
            && RanksWins(UsersOf(wins), games) && Figures(wins, games)
            && RanksStreaks(UsersOf(streaks), games) && Figures(streaks, games)
  {
    var games, table := GamesIn(Accepted(es), id), TableAt(s.stats, id);
    SeasonRankingIsTop(s, ByWins, id);
    SeasonRankingIsTop(s, ByStreak, id);
    TopRanksWins(table, UsersOf(SeasonRanking(s, ByWins, id)), games);
    TopRanksStreaks(table, UsersOf(SeasonRanking(s, ByStreak, id)), games);
    ShownFigures(table, SeasonRanking(s, ByWins, id), games);
    ShownFigures(table, SeasonRanking(s, ByStreak, id), games);
  }

  lemma ShownFigures(table: Table, entries: seq<Entry>, es: seq<Event>)
    requires entries == EntriesOf(table, UsersOf(entries)) && IsTable(table, es)
    ensures Figures(entries, es)
  {
    forall i | 0 <= i < |entries|
      ensures entries[i].wins == Record(es, entries[i].user).wins && entries[i].best == Record(es, entries[i].user).best
    {
      assert entries[i] == EntriesOf(table, UsersOf(entries))[i];
    }
  }

  // ----- pages -----

  /** The pages at `offset`, `offset + size`, ... laid end to end. */
  function Pages(entries: seq<Entry>, offset: nat, size: nat): seq<Entry>
    requires size > 0
    decreases |entries| - offset
  {
    if offset >= |entries| then [] else Slice(entries, offset, size) + Pages(entries, offset + size, size)
  }

  /** Read page by page, a ranking is complete, in order and without repetition, and no page is
      longer than asked for. */
  lemma {:induction false} PagesTile(entries: seq<Entry>, offset: nat, size: nat)
    requires size > 0 && offset <= |entries|
    ensures Pages(entries, offset, size) == entries[offset..] && |Slice(entries, offset, size)| <= size
    decreases |entries| - offset
  {
    if offset + size < |entries| {
      PagesTile(entries, offset + size, size);
    } else if offset < |entries| {
      assert Pages(entries, offset + size, size) == [];
    }
  }
}
