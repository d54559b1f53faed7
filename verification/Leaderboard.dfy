/** Bounded leaderboards with seasons (contracts/src/leaderboard.rs): an index kept by drop,
    re-insert, sort and truncate is the true top of everybody who ever played. */
module Leaderboard {
  import opened Types
  import opened Arith
  import opened Sums
  import opened Ledger
  import opened Steps

  const LEADERBOARD_LIMIT: nat := 100

  datatype Stats = Stats(wins: nat, losses: nat, streak: nat, best: nat)

  const NO_STATS := Stats(0, 0, 0, 0)

  /** The two rankings. */
  datatype Metric = ByWins | ByStreak

  /** Everybody ever updated in one scope, with the current counters. */
  type Table = map<Address, Stats>

  function StatsOf(table: Table, u: Address): Stats {
    if u in table then table[u] else NO_STATS
  }

  function Score(metric: Metric, st: Stats): nat {
    if metric.ByWins? then st.wins else st.best
  }

  /** Higher score first, lower address first among equals. */
  predicate Ahead(metric: Metric, table: Table, a: Address, b: Address) {
    var x, y := Score(metric, StatsOf(table, a)), Score(metric, StatsOf(table, b));
    x > y || (x == y && a < b)
  }

  ghost predicate Ranked(metric: Metric, table: Table, list: seq<Address>) {
    forall i, j :: 0 <= i < j < |list| ==> Ahead(metric, table, list[i], list[j])
  }

  ghost predicate AllIn(table: Table, list: seq<Address>) {
    forall i :: 0 <= i < |list| ==> list[i] in table
  }

  /** Anybody left out is behind a full list. */
  ghost predicate OthersBehind(metric: Metric, table: Table, list: seq<Address>) {
    forall u :: u in table && u !in list ==>
      |list| == LEADERBOARD_LIMIT && forall i :: 0 <= i < |list| ==> Ahead(metric, table, list[i], u)
  }

  /** `list` is the top of everybody in the table: ranked, within the limit, and complete
      down to its last place. */
  ghost predicate IsTop(metric: Metric, table: Table, list: seq<Address>) {
    Ranked(metric, table, list) && |list| <= LEADERBOARD_LIMIT && AllIn(table, list) && OthersBehind(metric, table, list)
  }

  // ----- the top is unique -----

  lemma RankedIsDistinct(metric: Metric, table: Table, list: seq<Address>)
    requires Ranked(metric, table, list)
    ensures Distinct(list)
  {
  }

  /** There is only one top, so an index that is a top is the ranking everybody else would
      compute from the table. */
  lemma {:induction false} TopIsUnique(metric: Metric, table: Table, a: seq<Address>, b: seq<Address>)
    requires IsTop(metric, table, a) && IsTop(metric, table, b)
    ensures a == b
  {
    SamePrefix(metric, table, a, b, if |a| < |b| then |a| else |b|);
    if |a| < |b| {
      NobodyAfter(metric, table, a, b);
    } else {
      NobodyAfter(metric, table, b, a);
    }
  }

  lemma NobodyAfter(metric: Metric, table: Table, a: seq<Address>, b: seq<Address>)
    requires IsTop(metric, table, a) && IsTop(metric, table, b) && |a| <= |b| && a == b[..|a|]
    ensures |a| == |b|
  {
    if |a| < LEADERBOARD_LIMIT {
      RankedIsDistinct(metric, table, b);
      SetSize(a);
      SetSize(b);
      assert SetOf(b) <= SetOf(a);
      assert SetOf(a) == SetOf(b) + (SetOf(a) - SetOf(b));
    }
  }

  lemma {:induction false} SetSize(list: seq<Address>)
    ensures |SetOf(list)| <= |list|
    ensures Distinct(list) ==> |SetOf(list)| == |list|
  {
    if list != [] {
      var n := |list| - 1;
      SetSize(list[..n]);
      assert list == list[..n] + [list[n]];
      assert SetOf(list) == SetOf(list[..n]) + {list[n]};
      if Distinct(list) { assert list[n] !in SetOf(list[..n]); }
    }
  }

  lemma {:induction false} SamePrefix(metric: Metric, table: Table, a: seq<Address>, b: seq<Address>, n: nat)
    requires IsTop(metric, table, a) && IsTop(metric, table, b) && n <= |a| && n <= |b|
    ensures a[..n] == b[..n]
  {
    if n > 0 {
      SamePrefix(metric, table, a, b, n - 1);
      var x, y := a[n - 1], b[n - 1];
      if x != y {
        NotBehind(metric, table, a, b, n - 1);
        NotBehind(metric, table, b, a, n - 1);
      }
    }
  }

  /** After a common prefix, the next of one top is not behind the next of the other. */
  lemma NotBehind(metric: Metric, table: Table, a: seq<Address>, b: seq<Address>, n: nat)
    requires IsTop(metric, table, a) && IsTop(metric, table, b) && n < |a| && n < |b| && a[..n] == b[..n]
    ensures a[n] == b[n] || Ahead(metric, table, a[n], b[n])
  {
    RankedIsDistinct(metric, table, b);
    forall j | 0 <= j < n ensures a[j] == b[j] { assert a[..n][j] == b[..n][j]; }
    if b[n] in a {
      var i :| 0 <= i < |a| && a[i] == b[n];
      assert i >= n;
    } else {
      assert b[n] in table;
    }
  }

  // ----- keeping it sorted -----

  /** Insertion in front of the first entry the newcomer is ahead of. */
  function InsertRanked(metric: Metric, table: Table, list: seq<Address>, a: Address): seq<Address> {
    if list == [] then [a]
    else if Ahead(metric, table, a, list[0]) then [a] + list
    else [list[0]] + InsertRanked(metric, table, list[1..], a)
  }

  function RankAll(metric: Metric, table: Table, list: seq<Address>): seq<Address> {
    if list == [] then []
    else InsertRanked(metric, table, RankAll(metric, table, list[..|list| - 1]), list[|list| - 1])
  }

  lemma {:induction false} InsertRankedKeeps(metric: Metric, table: Table, list: seq<Address>, a: Address)
    requires Ranked(metric, table, list) && a !in list
    ensures var r := InsertRanked(metric, table, list, a);
            && Ranked(metric, table, r) && |r| == |list| + 1
            && forall u :: u in r <==> u in list || u == a
  {
    if list != [] && !Ahead(metric, table, a, list[0]) {
      var rest := list[1..];
      InsertRankedKeeps(metric, table, rest, a);
      var r := InsertRanked(metric, table, rest, a);
      forall i | 0 <= i < |r| ensures Ahead(metric, table, list[0], r[i]) {
        assert r[i] in r;
        if r[i] != a { var j :| 0 <= j < |rest| && rest[j] == r[i]; }
      }
    }
  }

  lemma {:induction false} RankAllRanks(metric: Metric, table: Table, list: seq<Address>)
    requires Distinct(list)
    ensures var r := RankAll(metric, table, list);
            && Ranked(metric, table, r) && |r| == |list|
            && forall u :: u in r <==> u in list
  {
    if list != [] {
      RankAllRanks(metric, table, list[..|list| - 1]);
      InsertRankedKeeps(metric, table, RankAll(metric, table, list[..|list| - 1]), list[|list| - 1]);
    }
  }

  function Truncate(list: seq<Address>): seq<Address> {
    if |list| <= LEADERBOARD_LIMIT then list else list[..LEADERBOARD_LIMIT]
  }

  /** The index after `u` was updated: drop, append, sort, truncate. */
  function Reranked(metric: Metric, table: Table, index: seq<Address>, u: Address): seq<Address> {
    Truncate(RankAll(metric, table, Without(index, u) + [u]))
  }

  lemma {:induction false} WithoutIs(list: seq<Address>, u: Address)
    requires Distinct(list)
    ensures var r := Without(list, u);
            && Distinct(r) && (forall v :: v in r <==> v in list && v != u)
            && |r| == if u in list then |list| - 1 else |list|
  {
    WithoutDrops(list, u);
    if list != [] {
      var n := |list| - 1;
      WithoutIs(list[..n], u);
      assert list == list[..n] + [list[n]] && list[n] !in list[..n];
    }
  }

  /** The scores a user can reach within one scope only grow. */
  ghost predicate NeverWorse(metric: Metric, table: Table, u: Address, st: Stats) {
    Score(metric, StatsOf(table, u)) <= Score(metric, st)
  }

  /** Incremental maintenance is exact: if the index was the top before a user's score grew
      or stayed, re-ranking that user alone makes it the top again. */
  lemma RerankedIsTop(metric: Metric, table: Table, index: seq<Address>, u: Address, st: Stats)
    requires IsTop(metric, table, index) && NeverWorse(metric, table, u, st)
    ensures IsTop(metric, table[u := st], Reranked(metric, table[u := st], index, u))
  {
    var t := table[u := st];
    var sorted := RankAll(metric, t, Without(index, u) + [u]);
    Candidates(metric, table, t, index, u);
    TruncatedRanks(metric, t, sorted);
    OthersFallBehind(metric, table, index, u, st, sorted);
  }

  lemma OthersFallBehind(metric: Metric, table: Table, index: seq<Address>, u: Address, st: Stats, sorted: seq<Address>)
    requires IsTop(metric, table, index) && NeverWorse(metric, table, u, st)
    requires Ranked(metric, table[u := st], sorted)
    requires forall w :: w in sorted <==> w == u || w in index
    requires |sorted| == if u in index then |index| else |index| + 1
    ensures OthersBehind(metric, table[u := st], Truncate(sorted))
  {
    forall v | v in table[u := st] && v !in Truncate(sorted)
      ensures |Truncate(sorted)| == LEADERBOARD_LIMIT
      ensures forall i :: 0 <= i < |Truncate(sorted)| ==> Ahead(metric, table[u := st], Truncate(sorted)[i], v)
    {
      LeftOut(metric, table, index, u, st, sorted, v);
    }
  }

  /** The candidates are the old index and the updated user, in rank order. */
  lemma Candidates(metric: Metric, table: Table, t: Table, index: seq<Address>, u: Address)
    requires Ranked(metric, table, index) && AllIn(t, index) && u in t
    ensures var sorted := RankAll(metric, t, Without(index, u) + [u]);
            && Ranked(metric, t, sorted)
            && (forall w :: w in sorted <==> w == u || w in index)
            && (forall w :: w in sorted ==> w in t)
            && |sorted| == if u in index then |index| else |index| + 1
  {
    RankedIsDistinct(metric, table, index);
    WithoutIs(index, u);
    RankAllRanks(metric, t, Without(index, u) + [u]);
  }

  lemma TruncatedRanks(metric: Metric, t: Table, sorted: seq<Address>)
    requires Ranked(metric, t, sorted) && forall w :: w in sorted ==> w in t
    ensures var r := Truncate(sorted);
            Ranked(metric, t, r) && |r| <= LEADERBOARD_LIMIT && AllIn(t, r)
  {
    var r := Truncate(sorted);
    forall i | 0 <= i < |r| ensures r[i] in t { assert r[i] == sorted[i] && sorted[i] in sorted; }
  }

  lemma LeftOut(metric: Metric, table: Table, index: seq<Address>, u: Address, st: Stats, sorted: seq<Address>, v: Address)
    requires IsTop(metric, table, index) && NeverWorse(metric, table, u, st)
    requires Ranked(metric, table[u := st], sorted)
    requires forall w :: w in sorted <==> w == u || w in index
    requires |sorted| == if u in index then |index| else |index| + 1
    requires v in table[u := st] && v !in Truncate(sorted)
    ensures |Truncate(sorted)| == LEADERBOARD_LIMIT
    ensures forall i :: 0 <= i < |Truncate(sorted)| ==> Ahead(metric, table[u := st], Truncate(sorted)[i], v)
  {
    var t, r := table[u := st], Truncate(sorted);
    if v in sorted {
      var k :| 0 <= k < |sorted| && sorted[k] == v;
      assert k >= |r|;
    } else {
      assert v != u && v in table && v !in index;
      forall w | w in index ensures Ahead(metric, t, w, v) {
        var i :| 0 <= i < |index| && index[i] == w;
        assert Ahead(metric, table, index[i], v);
      }
      forall i | 0 <= i < |r| ensures Ahead(metric, t, r[i], v) {
        assert r[i] in sorted;
        if r[i] == u && u !in index {
          var w := sorted[LEADERBOARD_LIMIT];
          assert Ahead(metric, t, u, w);
          assert w in sorted && w in index;
        }
      }
    }
  }

  // ----- one scope: the lifetime or one season -----

  datatype Board = Board(table: Table, wins: seq<Address>, streaks: seq<Address>)

  const EMPTY_BOARD := Board(map[], [], [])

  /** Both indexes are the true top of the scope. */
  ghost predicate Exact(b: Board) {
    IsTop(ByWins, b.table, b.wins) && IsTop(ByStreak, b.table, b.streaks)
  }

  function AfterWin(st: Stats): Result<Stats> {
    if st.wins + 1 > U32_MAX then Err(Overflow)
    else
      :- Need(st.streak + 1 <= U32_MAX, Overflow);
      Ok(Stats(st.wins + 1, st.losses, st.streak + 1, if st.streak + 1 > st.best then st.streak + 1 else st.best))
  }

  function AfterLoss(st: Stats): Result<Stats> {
    if st.losses + 1 > U32_MAX then Err(Overflow)
    else Ok(Stats(st.wins, st.losses + 1, 0, st.best))
  }

  function AfterGame(st: Stats, won: bool): Result<Stats> {
    if won then AfterWin(st) else AfterLoss(st)
  }

  /** The counters of `u` are written, and then `u` is ranked again in both indexes. */
  function Played(b: Board, u: Address, won: bool): Result<Board> {
    var st :- AfterGame(StatsOf(b.table, u), won);
    var t := b.table[u := st];
    Ok(Board(t, Reranked(ByWins, t, b.wins, u), Reranked(ByStreak, t, b.streaks, u)))
  }

  /** Wins and best streaks never go down, so one game keeps both indexes exact. */
  lemma PlayedIsExact(b: Board, u: Address, won: bool)
    requires Exact(b) && Played(b, u, won).Ok?
    ensures Exact(Played(b, u, won).value)
  {
    var st := AfterGame(StatsOf(b.table, u), won).value;
    RerankedIsTop(ByWins, b.table, b.wins, u, st);
    RerankedIsTop(ByStreak, b.table, b.streaks, u, st);
  }

  // ----- seasons -----

  datatype Entry = Entry(user: Address, wins: nat, best: nat)

  datatype SeasonArchive = SeasonArchive(endedAt: nat, wins: seq<Entry>, streak: seq<Entry>, participants: nat)

  datatype Standings = Standings(
    lifetime: Board, season: nat, stats: map<nat, Table>, wins: seq<Address>, streaks: seq<Address>,
    archives: map<nat, SeasonArchive>)

  const NEW_STANDINGS := Standings(EMPTY_BOARD, 1, map[], [], [], map[])

  function TableAt(stats: map<nat, Table>, season: nat): Table {
    if season in stats then stats[season] else map[]
  }

  function Current(s: Standings): Board {
    Board(TableAt(s.stats, s.season), s.wins, s.streaks)
  }

  /** `_update_stats_win` and `_update_stats_loss`: first the lifetime, then the season. */
  function Play(s: Standings, u: Address, won: bool): Result<Standings> {
    var lifetime :- Played(s.lifetime, u, won);
    var season :- Played(Current(s), u, won);
    Ok(s.(lifetime := lifetime, stats := s.stats[s.season := season.table], wins := season.wins, streaks := season.streaks))
  }

  function EntriesOf(table: Table, list: seq<Address>): seq<Entry> {
    seq(|list|, i requires 0 <= i < |list| => Entry(list[i], StatsOf(table, list[i]).wins, StatsOf(table, list[i]).best))
  }

  function Freeze(b: Board, now: nat): SeasonArchive {
    SeasonArchive(now, EntriesOf(b.table, b.wins), EntriesOf(b.table, b.streaks), |SetOf(b.wins) + SetOf(b.streaks)|)
  }

  /** `reset_leaderboard_season` */
  function EndSeason(s: Standings, now: nat): Result<Standings> {
    if s.season + 1 > U32_MAX then Err(Overflow)
    else Ok(s.(season := s.season + 1, archives := s.archives[s.season := Freeze(Current(s), now)], wins := [], streaks := []))
  }

  // ----- runs -----

  datatype Event = Game(user: Address, won: bool) | Reset(now: nat)

  function StepEvent(s: Standings, e: Event): Result<Standings> {
    match e
    case Game(user, won) => Play(s, user, won)
    case Reset(now) => EndSeason(s, now)
  }

  function ApplyEvent(s: Standings, e: Event): Standings {
    var r := StepEvent(s, e);
    if r.Ok? then r.value else s
  }

  function RunEvents(s: Standings, es: seq<Event>): Standings {
    if es == [] then s else ApplyEvent(RunEvents(s, es[..|es| - 1]), es[|es| - 1])
  }

  function UsersOf(entries: seq<Entry>): seq<Address> {
    seq(|entries|, i requires 0 <= i < |entries| => entries[i].user)
  }

  /** The entries are the true top of the table, with the table's own counters. */
  ghost predicate ShowsTop(metric: Metric, table: Table, entries: seq<Entry>) {
    IsTop(metric, table, UsersOf(entries)) && entries == EntriesOf(table, UsersOf(entries))
  }

  /** The archive shows both tops of the season's final table. */
  ghost predicate ArchivesTop(a: SeasonArchive, table: Table) {
    && ShowsTop(ByWins, table, a.wins) && ShowsTop(ByStreak, table, a.streak)
    && a.participants == |SetOf(UsersOf(a.wins)) + SetOf(UsersOf(a.streak))|
  }

  /** Every past season, and no other, has an archive of its final table. */
  ghost predicate ArchivesOk(archives: map<nat, SeasonArchive>, stats: map<nat, Table>, season: nat) {
    && season >= 1
    && (forall n :: n in stats ==> n <= season)
    && (forall n :: n in archives <==> 1 <= n < season)
    && (forall n :: n in archives ==> ArchivesTop(archives[n], TableAt(stats, n)))
  }

  /** Both live scopes are exact and the past is archived. */
  ghost predicate StandingsOk(s: Standings) {
    Exact(s.lifetime) && Exact(Current(s)) && ArchivesOk(s.archives, s.stats, s.season)
  }

  lemma TableElsewhere(stats: map<nat, Table>, season: nat, table: Table, n: nat)
    requires n != season
    ensures TableAt(stats[season := table], n) == TableAt(stats, n)
  {
  }

  lemma ArchivesAfterGame(archives: map<nat, SeasonArchive>, stats: map<nat, Table>, season: nat, table: Table)
    requires ArchivesOk(archives, stats, season)
    ensures ArchivesOk(archives, stats[season := table], season)
  {
    forall n | n in archives ensures ArchivesTop(archives[n], TableAt(stats[season := table], n)) {
      TableElsewhere(stats, season, table, n);
    }
  }

  lemma ArchivesAfterReset(archives: map<nat, SeasonArchive>, stats: map<nat, Table>, season: nat, b: Board, now: nat)
    requires ArchivesOk(archives, stats, season) && Exact(b) && b.table == TableAt(stats, season)
    ensures ArchivesOk(archives[season := Freeze(b, now)], stats, season + 1)
  {
    assert UsersOf(EntriesOf(b.table, b.wins)) == b.wins && UsersOf(EntriesOf(b.table, b.streaks)) == b.streaks;
    assert ArchivesTop(Freeze(b, now), b.table);
    forall n | n in archives && n != season ensures ArchivesTop(archives[n], TableAt(stats, n)) { }
  }

  lemma EventKeeps(s: Standings, e: Event)
    requires StandingsOk(s) && StepEvent(s, e).Ok?
    ensures StandingsOk(StepEvent(s, e).value)
  {
    match e
    case Game(user, won) =>
      PlayedIsExact(s.lifetime, user, won);
      PlayedIsExact(Current(s), user, won);
      ArchivesAfterGame(s.archives, s.stats, s.season, Played(Current(s), user, won).value.table);
    case Reset(now) =>
      ArchivesAfterReset(s.archives, s.stats, s.season, Current(s), now);
      assert Current(EndSeason(s, now).value) == EMPTY_BOARD;
  }

  /** After any run of wins, losses and season resets, every live index is the true top of its
      scope, and every past season is archived with the true top of its final table. */
  lemma {:induction false} RunIsExact(es: seq<Event>)
    ensures StandingsOk(RunEvents(NEW_STANDINGS, es))
  {
    if es != [] {
      RunIsExact(es[..|es| - 1]);
      var mid := RunEvents(NEW_STANDINGS, es[..|es| - 1]);
      if StepEvent(mid, es[|es| - 1]).Ok? { EventKeeps(mid, es[|es| - 1]); }
    }
  }

  /** Season `n` is over, and its archive and counters are those of `s`. */
  ghost predicate FrozenAs(s: Standings, t: Standings, n: nat) {
    && n < t.season && n in s.archives && n in t.archives
    && t.archives[n] == s.archives[n] && TableAt(t.stats, n) == TableAt(s.stats, n)
  }

  /** What a past season's archive and counters say never changes again. */
  lemma {:induction false} PastIsFrozen(s: Standings, es: seq<Event>, n: nat)
    requires n < s.season && n in s.archives
    ensures FrozenAs(s, RunEvents(s, es), n)
  {
    if es != [] { PastIsFrozen(s, es[..|es| - 1], n); }
  }

  // ----- what the counters count -----

  /** A user's record over a history of events; a season's starts over at each reset. */
  function Tally(es: seq<Event>, u: Address, seasonal: bool): Stats {
    if es == [] then NO_STATS
    else
      var st := Tally(es[..|es| - 1], u, seasonal);
      match es[|es| - 1]
      case Reset(_) => if seasonal then NO_STATS else st
      case Game(v, won) =>
        if v != u then st
        else if won then Stats(st.wins + 1, st.losses, st.streak + 1, if st.streak + 1 > st.best then st.streak + 1 else st.best)
        else Stats(st.wins, st.losses + 1, 0, st.best)
  }

  lemma {:induction false} TallyBound(es: seq<Event>, u: Address, seasonal: bool)
    ensures var st := Tally(es, u, seasonal);
            st.wins <= |es| && st.losses <= |es| && st.streak <= |es| && st.best <= |es|
  {
    if es != [] { TallyBound(es[..|es| - 1], u, seasonal); }
  }

  /** Both scopes hold every user's record of the history. */
  ghost predicate Counts(s: Standings, es: seq<Event>) {
    && 1 <= s.season <= |es| + 1
    && (forall n :: n in s.stats ==> n <= s.season)
    && (forall u :: StatsOf(s.lifetime.table, u) == Tally(es, u, false))
    && (forall u :: StatsOf(TableAt(s.stats, s.season), u) == Tally(es, u, true))
  }

  /** In a history of fewer than 2^32 - 1 events nothing is refused, and the ranked counters
      are exactly the wins, losses and streaks of that history: since the beginning for the
      lifetime, since the last reset for the season. */
  lemma {:induction false} RunCounts(es: seq<Event>)
    requires |es| < U32_MAX
    ensures Counts(RunEvents(NEW_STANDINGS, es), es)
    ensures es != [] ==> StepEvent(RunEvents(NEW_STANDINGS, es[..|es| - 1]), es[|es| - 1]).Ok?
  {
    if es != [] {
      var front := es[..|es| - 1];
      RunCounts(front);
      match es[|es| - 1]
      case Game(u, won) => GameCounts(RunEvents(NEW_STANDINGS, front), es, u, won);
      case Reset(now) => ResetCounts(RunEvents(NEW_STANDINGS, front), es, now);
    }
  }

  lemma GameCounts(s: Standings, es: seq<Event>, u: Address, won: bool)
    requires es != [] && es[|es| - 1] == Game(u, won) && |es| < U32_MAX && Counts(s, es[..|es| - 1])
    ensures Play(s, u, won).Ok? && Counts(Play(s, u, won).value, es)
  {
    TallyBound(es[..|es| - 1], u, false);
    TallyBound(es[..|es| - 1], u, true);
    PlayWrites(s, u, won);
    PlayedWrites(s.lifetime, u, won);
    PlayedWrites(Current(s), u, won);
    TableCounts(s.lifetime.table, es, u, won, false);
    TableCounts(TableAt(s.stats, s.season), es, u, won, true);
  }

  lemma PlayedWrites(b: Board, u: Address, won: bool)
    requires AfterGame(StatsOf(b.table, u), won).Ok?
    ensures Played(b, u, won).Ok?
    ensures Played(b, u, won).value.table == b.table[u := AfterGame(StatsOf(b.table, u), won).value]
  {
  }

  /** Below the counter limit a game is accepted and writes the player's two records. */
  lemma PlayWrites(s: Standings, u: Address, won: bool)
    requires AfterGame(StatsOf(s.lifetime.table, u), won).Ok? && AfterGame(StatsOf(TableAt(s.stats, s.season), u), won).Ok?
    ensures Play(s, u, won).Ok?
    ensures var t := Play(s, u, won).value;
            && t.season == s.season && t.lifetime == Played(s.lifetime, u, won).value
            && t.stats == s.stats[s.season := Played(Current(s), u, won).value.table]
  {
    PlayedWrites(s.lifetime, u, won);
    PlayedWrites(Current(s), u, won);
  }

  /** A game counts once in the player's own lifetime record and nowhere else in it. */
  lemma GameAdds(s: Standings, v: Address, won: bool, u: Address)
    requires Play(s, v, won).Ok?
    ensures var a, b := StatsOf(s.lifetime.table, u), StatsOf(Play(s, v, won).value.lifetime.table, u);
            && b.wins == a.wins + (if v == u && won then 1 else 0)
            && b.losses == a.losses + (if v == u && !won then 1 else 0)
  {
    PlayReads(s, v, won);
    PlayWrites(s, v, won);
    PlayedWrites(s.lifetime, v, won);
  }

  lemma PlayReads(s: Standings, u: Address, won: bool)
    requires Play(s, u, won).Ok?
    ensures AfterGame(StatsOf(s.lifetime.table, u), won).Ok? && AfterGame(StatsOf(TableAt(s.stats, s.season), u), won).Ok?
  {
  }

  lemma TableCounts(table: Table, es: seq<Event>, u: Address, won: bool, seasonal: bool)
    requires es != [] && es[|es| - 1] == Game(u, won) && AfterGame(StatsOf(table, u), won).Ok?
    requires forall v :: StatsOf(table, v) == Tally(es[..|es| - 1], v, seasonal)
    ensures forall v :: StatsOf(table[u := AfterGame(StatsOf(table, u), won).value], v) == Tally(es, v, seasonal)
  {
    forall v ensures StatsOf(table[u := AfterGame(StatsOf(table, u), won).value], v) == Tally(es, v, seasonal) {
      assert StatsOf(table, v) == Tally(es[..|es| - 1], v, seasonal);
    }
  }

  lemma ResetCounts(s: Standings, es: seq<Event>, now: nat)
    requires es != [] && es[|es| - 1] == Reset(now) && |es| < U32_MAX && Counts(s, es[..|es| - 1])
    ensures EndSeason(s, now).Ok? && Counts(EndSeason(s, now).value, es)
  {
    var t := EndSeason(s, now).value;
    assert TableAt(t.stats, t.season) == map[];
    forall v ensures StatsOf(t.lifetime.table, v) == Tally(es, v, false) {
      assert StatsOf(s.lifetime.table, v) == Tally(es[..|es| - 1], v, false);
    }
  }

  // ----- the storage and its loops -----

  class Leaderboards {
    var stats: Table
    var winsIndex: seq<Address>
    var streakIndex: seq<Address>
    var season: nat
    var seasonStats: map<nat, Table>
    var seasonWins: seq<Address>
    var seasonStreaks: seq<Address>
    var archives: map<nat, SeasonArchive>

    ghost function View(): Standings
      reads this
    {
      Standings(Board(stats, winsIndex, streakIndex), season, seasonStats, seasonWins, seasonStreaks, archives)
    }

    constructor ()
      ensures View() == NEW_STANDINGS && StandingsOk(View())
    {
      stats, winsIndex, streakIndex := map[], [], [];
      season, seasonStats, seasonWins, seasonStreaks, archives := 1, map[], [], [], map[];
      new;
      RunIsExact([]);
    }

    /** `_update_leaderboards` */
    method UpdateLeaderboards(user: Address)
      modifies this`winsIndex, this`streakIndex
      ensures winsIndex == Reranked(ByWins, stats, old(winsIndex), user)
      ensures streakIndex == Reranked(ByStreak, stats, old(streakIndex), user)
    {
      winsIndex := Rerank(ByWins, stats, winsIndex, user);
      streakIndex := Rerank(ByStreak, stats, streakIndex, user);
    }

    /** `_update_season_leaderboards` */
    method UpdateSeasonLeaderboards(user: Address)
      modifies this`seasonWins, this`seasonStreaks
      ensures seasonWins == Reranked(ByWins, TableAt(seasonStats, season), old(seasonWins), user)
      ensures seasonStreaks == Reranked(ByStreak, TableAt(seasonStats, season), old(seasonStreaks), user)
    {
      seasonWins := Rerank(ByWins, TableAt(seasonStats, season), seasonWins, user);
      seasonStreaks := Rerank(ByStreak, TableAt(seasonStats, season), seasonStreaks, user);
    }

    /** `_update_season_stats_win` and `_update_season_stats_loss` */
    method UpdateSeasonStats(user: Address, won: bool) returns (r: Result<()>)
      modifies this`seasonStats, this`seasonWins, this`seasonStreaks
      ensures match Played(Current(old(View())), user, won)
              case Ok(b) => r == Ok(()) && seasonStats == old(seasonStats)[season := b.table] && seasonWins == b.wins && seasonStreaks == b.streaks
              case Err(e) => r == Err(e) && seasonStats == old(seasonStats) && seasonWins == old(seasonWins) && seasonStreaks == old(seasonStreaks)
    {
      var table := TableAt(seasonStats, season);
      var after :- AfterGame(StatsOf(table, user), won);
      seasonStats := seasonStats[season := table[user := after]];
      UpdateSeasonLeaderboards(user);
      return Ok(());
    }

    /** The lifetime part of `_update_stats_win` and `_update_stats_loss`. */
    method UpdateLifetime(user: Address, won: bool) returns (r: Result<()>)
      modifies this`stats, this`winsIndex, this`streakIndex
      ensures match Played(old(View()).lifetime, user, won)
              case Ok(b) => r == Ok(()) && Board(stats, winsIndex, streakIndex) == b
              case Err(e) => r == Err(e) && Board(stats, winsIndex, streakIndex) == old(View()).lifetime
    {
      var after :- AfterGame(StatsOf(stats, user), won);
      stats := stats[user := after];
      UpdateLeaderboards(user);
      return Ok(());
    }

    /** `_update_stats_win` and `_update_stats_loss`; a failed call leaves nothing behind. */
    method UpdateStats(user: Address, won: bool) returns (r: Result<()>)
      modifies this
      ensures match Play(old(View()), user, won)
              case Ok(t) => r == Ok(()) && View() == t
              case Err(e) => r == Err(e) && View() == old(View())
    {
      var saved := Board(stats, winsIndex, streakIndex);
      r := UpdateLifetime(user, won);
      if r.Ok? {
        r := UpdateSeasonStats(user, won);
        if r.Err? {
          stats, winsIndex, streakIndex := saved.table, saved.wins, saved.streaks;
        }
      }
    }

    /** `reset_leaderboard_season` */
    method ResetSeason(now: nat) returns (r: Result<nat>)
      requires Distinct(seasonWins)
      modifies this
      ensures match EndSeason(old(View()), now)
              case Ok(t) => r == Ok(t.season) && View() == t
              case Err(e) => r == Err(e) && View() == old(View())
    {
      var table := TableAt(seasonStats, season);
      var wins := ListEntries(table, seasonWins);
      var streak := ListEntries(table, seasonStreaks);
      var participants := CountDistinct(seasonWins, seasonStreaks);
      var next := season + 1;
      :- Need(next <= U32_MAX, Overflow);
      archives := archives[season := SeasonArchive(now, wins, streak, participants)];
      season := next;
      seasonWins, seasonStreaks := [], [];
      return Ok(next);
    }

    /** `get_season_leaderboard_by_wins` and `get_season_leaderboard_by_streak`: a page of the
        live index or of the archive; nothing for a season that has not begun. */
    method SeasonPage(metric: Metric, id: nat, offset: nat, limit: nat) returns (page: seq<Entry>)
      ensures page == Slice(SeasonRanking(View(), metric, id), offset, Min(limit, MAX_PAGE_SIZE))
    {
      var size := Min(limit, MAX_PAGE_SIZE);
      if size == 0 {
        return [];
      }
      var entries: seq<Entry> := [];
      if id == season {
        entries := ListEntries(TableAt(seasonStats, id), if metric.ByWins? then seasonWins else seasonStreaks);
      } else if id in archives {
        entries := if metric.ByWins? then archives[id].wins else archives[id].streak;
      }
      page := PageEntries(entries, offset, size);
    }
  }

  const MAX_PAGE_SIZE: nat := 100

  function Slice(entries: seq<Entry>, offset: nat, size: nat): seq<Entry> {
    if offset >= |entries| || size == 0 then [] else entries[offset..Min(offset + size, |entries|)]
  }

  /** `page_entries` */
  method PageEntries(entries: seq<Entry>, offset: nat, size: nat) returns (page: seq<Entry>)
    ensures page == Slice(entries, offset, size)
  {
    if offset >= |entries| {
      return [];
    }
    page := [];
    for i := offset to Min(offset + size, |entries|)
      invariant page == entries[offset..i]
    {
      page := page + [entries[i]];
    }
  }

  function SeasonRanking(s: Standings, metric: Metric, id: nat): seq<Entry> {
    if id == s.season then EntriesOf(TableAt(s.stats, id), if metric.ByWins? then s.wins else s.streaks)
    else if id in s.archives then (if metric.ByWins? then s.archives[id].wins else s.archives[id].streak)
    else []
  }

  /** Callers need not know whether a season is live or archived: either way they get the top
      of that season's own table. */
  lemma SeasonRankingIsTop(s: Standings, metric: Metric, id: nat)
    requires StandingsOk(s) && 1 <= id <= s.season
    ensures ShowsTop(metric, TableAt(s.stats, id), SeasonRanking(s, metric, id))
  {
    if id == s.season {
      var list := if metric.ByWins? then s.wins else s.streaks;
      assert UsersOf(EntriesOf(TableAt(s.stats, id), list)) == list;
    }
  }

  /** `without_user` */
  method WithoutUser(list: seq<Address>, user: Address) returns (filtered: seq<Address>)
    ensures filtered == Without(list, user)
  {
    filtered := [];
    for i := 0 to |list|
      invariant filtered == Without(list[..i], user)
    {
      assert list[..i + 1][..i] == list[..i];
      if list[i] != user {
        filtered := filtered + [list[i]];
      }
    }
    assert list[..|list|] == list;
  }

  /** The inner loop: insert in front of the first entry the newcomer is ahead of. */
  method InsertSorted(metric: Metric, table: Table, sorted: seq<Address>, a: Address) returns (r: seq<Address>)
    ensures r == InsertRanked(metric, table, sorted, a)
  {
    for i := 0 to |sorted|
      invariant forall j :: 0 <= j < i ==> !Ahead(metric, table, a, sorted[j])
    {
      if Ahead(metric, table, a, sorted[i]) {
        InsertedAt(metric, table, sorted, a, i);
        return sorted[..i] + [a] + sorted[i..];
      }
    }
    InsertedAt(metric, table, sorted, a, |sorted|);
    assert sorted[|sorted|..] == [] && sorted[..|sorted|] == sorted;
    return sorted + [a];
  }

  lemma {:induction false} InsertedAt(metric: Metric, table: Table, sorted: seq<Address>, a: Address, i: nat)
    requires i <= |sorted| && forall j :: 0 <= j < i ==> !Ahead(metric, table, a, sorted[j])
    requires i < |sorted| ==> Ahead(metric, table, a, sorted[i])
    ensures InsertRanked(metric, table, sorted, a) == sorted[..i] + [a] + sorted[i..]
  {
    if i > 0 {
      InsertedAt(metric, table, sorted[1..], a, i - 1);
      assert sorted[1..][..i - 1] == sorted[1..i] && sorted[1..][i - 1..] == sorted[i..];
      assert [sorted[0]] + sorted[1..i] == sorted[..i];
    }
  }

  /** `reinsert_sorted_by_wins` and `reinsert_sorted_by_streak` */
  method ReinsertSorted(metric: Metric, table: Table, addresses: seq<Address>) returns (sorted: seq<Address>)
    ensures sorted == RankAll(metric, table, addresses)
  {
    sorted := [];
    for i := 0 to |addresses|
      invariant sorted == RankAll(metric, table, addresses[..i])
    {
      assert addresses[..i + 1][..i] == addresses[..i];
      sorted := InsertSorted(metric, table, sorted, addresses[i]);
    }
    assert addresses[..|addresses|] == addresses;
  }

  /** `upsert_bounded_index` */
  method UpsertBounded(sorted: seq<Address>) returns (bounded: seq<Address>)
    ensures bounded == Truncate(sorted)
  {
    var limit := if |sorted| < LEADERBOARD_LIMIT then |sorted| else LEADERBOARD_LIMIT;
    bounded := [];
    for i := 0 to limit
      invariant bounded == sorted[..i]
    {
      bounded := bounded + [sorted[i]];
    }
  }

  method Rerank(metric: Metric, table: Table, index: seq<Address>, user: Address) returns (bounded: seq<Address>)
    ensures bounded == Reranked(metric, table, index, user)
  {
    var candidates := WithoutUser(index, user);
    candidates := candidates + [user];
    var sorted := ReinsertSorted(metric, table, candidates);
    bounded := UpsertBounded(sorted);
  }

  method ListEntries(table: Table, list: seq<Address>) returns (entries: seq<Entry>)
    ensures entries == EntriesOf(table, list)
  {
    entries := [];
    for i := 0 to |list|
      invariant entries == EntriesOf(table, list)[..i]
    {
      var st := StatsOf(table, list[i]);
      entries := entries + [Entry(list[i], st.wins, st.best)];
    }
  }

  /** How many different users two lists name; the first list has no repetitions. */
  method CountDistinct(a: seq<Address>, b: seq<Address>) returns (n: nat)
    requires Distinct(a)
    ensures n == |SetOf(a) + SetOf(b)|
  {
    var seen := a;
    for i := 0 to |b|
      invariant Distinct(seen) && SetOf(seen) == SetOf(a) + SetOf(b[..i])
    {
      assert b[..i + 1] == b[..i] + [b[i]];
      if b[i] !in seen {
        assert SetOf(seen + [b[i]]) == SetOf(seen) + {b[i]};
        seen := seen + [b[i]];
      }
    }
    assert b[..|b|] == b;
    SetSize(seen);
    n := |seen|;
  }
}
