/** The ledger together with what a settlement feeds: the leaderboards get one game per won or
    lost record, and the archive one summary per round that leaves. */
module Contract {
  import opened Types
  import opened Sums
  import opened Ledger
  import opened Invariants
  import opened Runs
  import opened Steps
  import opened Records
  import opened Leaderboard
  import Archive

  /** `played` is history: the games and season ends the leaderboards have seen. */
  datatype World = World(ledger: State, standings: Standings, store: Archive.Store, played: seq<Event>)

  datatype Call = OnLedger(command: Command) | EndOfSeason

  function NewWorld(admin: Address, cfg: Config): World {
    World(Initial(admin, cfg), NEW_STANDINGS, Archive.Store(map[], [], map[]), [])
  }

  /** One game for each of the users whose record is of one of these kinds. */
  function GamesOf(m: map<Key, UserRoundOutcome>, round: nat, users: seq<Address>, kinds: set<OutcomeKind>): seq<Event> {
    if users == [] then []
    else
      var n := |users| - 1;
      var k := Key(round, users[n]);
      GamesOf(m, round, users[..n], kinds) + if k in m && m[k].kind in kinds then [Game(k.user, m[k].kind.Win?)] else []
  }

  /** Up/Down results are counted in address order, Precision winners before Precision losers. */
  function Games(m: map<Key, UserRoundOutcome>, rd: Round, users: seq<Address>): seq<Event> {
    if rd.mode.UpDown? then GamesOf(m, rd.id, users, {Win, Loss})
    else GamesOf(m, rd.id, users, {Win}) + GamesOf(m, rd.id, users, {Loss})
  }

  /** A counter that cannot grow aborts the call. */
  function PlayAll(s: Standings, games: seq<Event>): Result<Standings> {
    if games == [] then Ok(s)
    else
      var front :- PlayAll(s, games[..|games| - 1]);
      StepEvent(front, games[|games| - 1])
  }

  /** The round that the command would take off the ledger, and the price it would archive. */
  function Closing(s: State, c: Command): Option<(Round, nat)> {
    match c
    case DoCancel(reason) => if s.active.Some? then Some((s.active.value, 0)) else None
    case DoResolve(price, start, ok) => if s.active.Some? then Some((s.active.value, price)) else None
    case DoVoid(id) => if id in s.disputes then Some((s.disputes[id].round, s.disputes[id].price)) else None
    case DoFinalize(id) => if id in s.disputes then Some((s.disputes[id].round, s.disputes[id].price)) else None
    case _ => None
  }

  /** A round that leaves is filed and its results are counted. */
  function Feed(w: World, t: State, rd: Round, price: nat, limit: nat): Result<World> {
    if |t.exits| <= |w.ledger.exits| then Ok(w.(ledger := t))
    else
      var users := ParticipantsOf(w.ledger, rd.id);
      var games := Games(t.outcomes, rd, Sort(users));
      var standings :- PlayAll(w.standings, games);
      var summary := Archive.Summary(rd.id, t.exits[|t.exits| - 1].status, price, |users|, w.ledger.now);
      Ok(World(t, standings, Archive.File(w.store, summary, users, limit), w.played + games))
  }

  /** Everything a call does commits together; `limit` is the retention limit of the archive. */
  function Commit(w: World, call: Call, limit: nat): Result<World> {
    match call
    case OnLedger(c) =>
      var t :- Step(w.ledger, c);
      var closing := Closing(w.ledger, c);
      if closing.None? then Ok(w.(ledger := t)) else Feed(w, t, closing.value.0, closing.value.1, limit)
    case EndOfSeason =>
      var standings :- EndSeason(w.standings, w.ledger.now);
      Ok(w.(standings := standings, played := w.played + [Reset(w.ledger.now)]))
  }

  /** A failed call changes nothing. */
  function Submit(w: World, call: Call, limit: nat): World {
    var r := Commit(w, call, limit);
    if r.Ok? then r.value else w
  }

  function SubmitAll(w: World, calls: seq<Call>, limit: nat): World {
    if calls == [] then w
    else Submit(SubmitAll(w, calls[..|calls| - 1], limit), calls[|calls| - 1], limit)
  }

  // ----- what is recorded -----

  /** The rounds in which the user has a record of this kind. */
  function RecordsOf(m: map<Key, UserRoundOutcome>, u: Address, kind: OutcomeKind): set<Key> {
    set k | k in m && k.user == u && m[k].kind == kind
  }

  /** A call that takes no round off the ledger records no win and no loss. */
  lemma NoNewResults(s: State, c: Command, u: Address, kind: OutcomeKind)
    requires Inv(s) && Step(s, c).Ok? && kind != Refund
    requires !IsEnding(c) || Stages(s, Step(s, c).value)
    ensures RecordsOf(Step(s, c).value.outcomes, u, kind) == RecordsOf(s.outcomes, u, kind)
  {
    if c.DoCashOut? {
      CashOutRecords(s, c.user, u, kind);
    } else {
      OutcomesStay(s, c);
    }
  }

  lemma OutcomesStay(s: State, c: Command)
    requires Step(s, c).Ok? && !c.DoCashOut? && (!IsEnding(c) || Stages(s, Step(s, c).value))
    ensures Step(s, c).value.outcomes == s.outcomes
  {
    if c.DoClaimMany? {
      ClaimAllMoves(s, c.users);
    } else if !IsEnding(c) {
      CallRecordsNothing(s, c);
    }
  }

  lemma CallRecordsNothing(s: State, c: Command)
    requires Step(s, c).Ok? && !IsEnding(c) && !c.DoCashOut? && !c.DoClaimMany?
    ensures Step(s, c).value.outcomes == s.outcomes
  {
  }

  lemma CashOutRecords(s: State, user: Address, u: Address, kind: OutcomeKind)
    requires CashOutEarly(s, user).Ok? && kind != Refund
    ensures RecordsOf(CashOutEarly(s, user).value.outcomes, u, kind) == RecordsOf(s.outcomes, u, kind)
  {
  }

  /** `n` is `m` with one more record for each of the users in this round. */
  ghost predicate Adds(m: map<Key, UserRoundOutcome>, n: map<Key, UserRoundOutcome>, round: nat, users: seq<Address>) {
    && (forall k :: k in m ==> k in n && n[k] == m[k])
    && (forall k :: k in n && k !in m ==> k.round == round && k.user in users)
    && (forall u: Address :: u in users ==> Key(round, u) !in m && Key(round, u) in n)
  }

  /** A round that leaves adds exactly the records of its participants. */
  lemma ClosingAdds(s: State, t: State, c: Command, e: Exit)
    requires Closes(s, t, c, e)
    ensures Adds(s.outcomes, t.outcomes, e.round, ParticipantsOf(s, e.round))
  {
    forall u: Address | u in ParticipantsOf(s, e.round) ensures Key(e.round, u) !in s.outcomes && Key(e.round, u) in t.outcomes {
      assert Answered(s, t, Key(e.round, u), e.status);
    }
  }

  lemma NewResults(m: map<Key, UserRoundOutcome>, n: map<Key, UserRoundOutcome>, round: nat, users: seq<Address>, u: Address, kind: OutcomeKind)
    requires Adds(m, n, round, users)
    ensures |RecordsOf(n, u, kind)| == |RecordsOf(m, u, kind)|
         + if u in users && Key(round, u) in n && n[Key(round, u)].kind == kind then 1 else 0
  {
    var k := Key(round, u);
    var added := if u in users && k in n && n[k].kind == kind then {k} else {};
    forall j ensures j in RecordsOf(n, u, kind) <==> j in RecordsOf(m, u, kind) || j in added {
      if j in n && j !in m { assert j.round == round && j.user in users; }
    }
    assert RecordsOf(n, u, kind) == RecordsOf(m, u, kind) + added;
    assert RecordsOf(m, u, kind) !! added;
  }

  // ----- what is counted -----

  lemma {:induction false} GamesAre(m: map<Key, UserRoundOutcome>, round: nat, users: seq<Address>, kinds: set<OutcomeKind>, u: Address, won: bool)
    requires Distinct(users)
    ensures multiset(GamesOf(m, round, users, kinds))[Game(u, won)]
         == if u in users && Key(round, u) in m && m[Key(round, u)].kind in kinds && m[Key(round, u)].kind.Win? == won then 1 else 0
  {
    if users != [] {
      var n := |users| - 1;
      GamesAre(m, round, users[..n], kinds, u, won);
      assert users == users[..n] + [users[n]];
    }
  }

  lemma GamesCount(m: map<Key, UserRoundOutcome>, rd: Round, users: seq<Address>, u: Address, won: bool)
    requires Distinct(users)
    ensures multiset(Games(m, rd, users))[Game(u, won)]
         == if u in users && Key(rd.id, u) in m && m[Key(rd.id, u)].kind == (if won then Win else Loss) then 1 else 0
  {
    if rd.mode.UpDown? {
      GamesAre(m, rd.id, users, {Win, Loss}, u, won);
    } else {
      GamesAre(m, rd.id, users, {Win}, u, won);
      GamesAre(m, rd.id, users, {Loss}, u, won);
    }
  }

  predicate AreGames(games: seq<Event>) {
    forall i :: 0 <= i < |games| ==> games[i].Game?
  }

  lemma {:induction false} OnlyGames(m: map<Key, UserRoundOutcome>, round: nat, users: seq<Address>, kinds: set<OutcomeKind>)
    ensures AreGames(GamesOf(m, round, users, kinds))
  {
    if users != [] { OnlyGames(m, round, users[..|users| - 1], kinds); }
  }

  function LifetimeOf(s: Standings, u: Address): Stats {
    StatsOf(s.lifetime.table, u)
  }

  lemma PlaysOn(s: Standings, games: seq<Event>, mid: Standings)
    requires games != [] && PlayAll(s, games[..|games| - 1]) == Ok(mid)
    ensures PlayAll(s, games) == StepEvent(mid, games[|games| - 1])
  {
  }

  lemma LastCounted(games: seq<Event>, u: Address)
    requires games != [] && games[|games| - 1].Game?
    ensures var n := |games| - 1;
            forall won :: multiset(games)[Game(u, won)]
                       == multiset(games[..n])[Game(u, won)] + if games[n] == Game(u, won) then 1 else 0
  {
    var n := |games| - 1;
    assert games == games[..n] + [games[n]];
  }

  /** Games add up in the lifetime counters. */
  lemma {:induction false} PlayAllAdds(s: Standings, games: seq<Event>, u: Address)
    requires AreGames(games) && PlayAll(s, games).Ok?
    ensures var a, b := LifetimeOf(s, u), LifetimeOf(PlayAll(s, games).value, u);
            && b.wins == a.wins + multiset(games)[Game(u, true)]
            && b.losses == a.losses + multiset(games)[Game(u, false)]
  {
    if games != [] {
      var n := |games| - 1;
      PlayAllAdds(s, games[..n], u);
      var mid := PlayAll(s, games[..n]).value;
      PlaysOn(s, games, mid);
      GameAdds(mid, games[n].user, games[n].won, u);
      LastCounted(games, u);
    }
  }

  /** The last event of a short history is accepted. */
  lemma NoneRefused(before: seq<Event>, e: Event)
    requires |before| + 1 < U32_MAX
    ensures StepEvent(RunEvents(NEW_STANDINGS, before), e).Ok?
  {
    var es := before + [e];
    assert es[..|es| - 1] == before;
    RunCounts(es);
  }

  lemma LastApart<T>(before: seq<T>, after: seq<T>)
    requires after != []
    ensures before + after == before + after[..|after| - 1] + [after[|after| - 1]]
  {
  }

  lemma RunsOn(before: seq<Event>, e: Event)
    ensures RunEvents(NEW_STANDINGS, before + [e]) == ApplyEvent(RunEvents(NEW_STANDINGS, before), e)
  {
    assert (before + [e])[..|before|] == before;
  }

  /** As long as fewer than 2^32 - 1 games are ever counted, no counter is full, and playing on
      from a history is the longer history. */
  lemma {:induction false} PlayAllRuns(before: seq<Event>, games: seq<Event>)
    ensures var r := PlayAll(RunEvents(NEW_STANDINGS, before), games);
            && (r.Ok? ==> r.value == RunEvents(NEW_STANDINGS, before + games))
            && (|before| + |games| < U32_MAX ==> r.Ok?)
  {
    if games == [] {
      assert before + games == before;
    } else {
      var n := |games| - 1;
      PlayAllRuns(before, games[..n]);
      if PlayAll(RunEvents(NEW_STANDINGS, before), games[..n]).Ok? {
        var mid := RunEvents(NEW_STANDINGS, before + games[..n]);
        PlaysOn(RunEvents(NEW_STANDINGS, before), games, mid);
        RunsOn(before + games[..n], games[n]);
        LastApart(before, games);
        if |before| + |games| < U32_MAX { NoneRefused(before + games[..n], games[n]); }
      }
    }
  }

  // ----- what is filed -----

  lemma {:induction false} AddHistoryIs(history: map<Address, seq<nat>>, users: seq<Address>, id: nat, u: Address)
    requires Distinct(users)
    ensures Archive.HistoryOf(Archive.AddHistory(history, users, id), u)
         == Archive.HistoryOf(history, u) + if u in users then [id] else []
  {
    if users != [] {
      var n := |users| - 1;
      AddHistoryIs(history, users[..n], id, u);
      assert users == users[..n] + [users[n]];
      assert Archive.HistoryOf(history, u) + [] == Archive.HistoryOf(history, u);
    }
  }

  function ExitIds(exits: seq<Exit>): seq<nat> {
    seq(|exits|, i requires 0 <= i < |exits| => exits[i].round)
  }

  /** Only rounds that have left are archived, under the status they left with; and as long as
      the retention limit has not been passed, all of them are, oldest first. */
  ghost predicate Filed(exits: seq<Exit>, store: Archive.Store, limit: nat) {
    && Archive.Listed(store.entries, store.recent)
    && (forall id :: id in store.entries ==> Exit(id, store.entries[id].status) in exits && store.entries[id].round == id)
    && (|exits| <= limit ==> store.recent == ExitIds(exits) && store.entries.Keys == SetOf(store.recent))
  }

  lemma FilingFiles(exits: seq<Exit>, store: Archive.Store, limit: nat, summary: Archive.Summary, users: seq<Address>)
    requires Filed(exits, store, limit) && summary.round !in store.entries
    ensures Filed(exits + [Exit(summary.round, summary.status)], Archive.File(store, summary, users, limit), limit)
  {
    var longer := exits + [Exit(summary.round, summary.status)];
    var entries, recent := store.entries[summary.round := summary], store.recent + [summary.round];
    assert Archive.Listed(entries, recent);
    Archive.PruneKeepsListed(entries, recent, limit);
    assert longer[|exits|] == Exit(summary.round, summary.status);
    forall id | id in entries ensures Exit(id, entries[id].status) in longer { }
    if |longer| <= limit {
      assert ExitIds(longer) == ExitIds(exits) + [summary.round];
    }
  }

  /** A user's own list names rounds that have left, once each, in which the user has a record. */
  ghost predicate HistoriesOk(exits: seq<Exit>, m: map<Key, UserRoundOutcome>, history: map<Address, seq<nat>>) {
    forall u: Address ::
      && Distinct(Archive.HistoryOf(history, u))
      && forall id :: id in Archive.HistoryOf(history, u) ==> HasExited(exits, id) && Key(id, u) in m
  }

  lemma FilingKeepsHistories(exits: seq<Exit>, m: map<Key, UserRoundOutcome>, n: map<Key, UserRoundOutcome>, e: Exit,
                             users: seq<Address>, history: map<Address, seq<nat>>)
    requires HistoriesOk(exits, m, history) && Adds(m, n, e.round, users) && Distinct(users) && !HasExited(exits, e.round)
    ensures HistoriesOk(exits + [e], n, Archive.AddHistory(history, users, e.round))
  {
    var longer := exits + [e];
    assert longer[|exits|] == e;
    forall u: Address
      ensures Distinct(Archive.HistoryOf(Archive.AddHistory(history, users, e.round), u))
      ensures forall id :: id in Archive.HistoryOf(Archive.AddHistory(history, users, e.round), u) ==> HasExited(longer, id) && Key(id, u) in n
    {
      AddHistoryIs(history, users, e.round, u);
      assert e.round !in Archive.HistoryOf(history, u);
      forall id | id in Archive.HistoryOf(history, u) ensures HasExited(longer, id) {
        var i :| 0 <= i < |exits| && exits[i].round == id;
        assert longer[i].round == id;
      }
    }
  }

  // ----- ledger, leaderboards and archive agree -----

  /** Lifetime wins and losses are the numbers of recorded wins and losses. */
  ghost predicate CountersAgree(s: Standings, m: map<Key, UserRoundOutcome>) {
    forall u: Address ::
      && LifetimeOf(s, u).wins == |RecordsOf(m, u, Win)|
      && LifetimeOf(s, u).losses == |RecordsOf(m, u, Loss)|
  }

  ghost predicate Agree(w: World, limit: nat) {
    && Inv(w.ledger)
    && w.standings == RunEvents(NEW_STANDINGS, w.played)
    && CountersAgree(w.standings, w.ledger.outcomes)
    && Filed(w.ledger.exits, w.store, limit)
    && HistoriesOk(w.ledger.exits, w.ledger.outcomes, w.store.history)
  }

  lemma ResultsCounted(m: map<Key, UserRoundOutcome>, n: map<Key, UserRoundOutcome>, rd: Round, users: seq<Address>,
                       before: Standings, after: Standings)
    requires Adds(m, n, rd.id, users) && Distinct(users) && CountersAgree(before, m)
    requires PlayAll(before, Games(n, rd, users)) == Ok(after)
    ensures CountersAgree(after, n)
  {
    OnlyGames(n, rd.id, users, {Win, Loss});
    OnlyGames(n, rd.id, users, {Win});
    OnlyGames(n, rd.id, users, {Loss});
    forall u: Address
      ensures LifetimeOf(after, u).wins == |RecordsOf(n, u, Win)|
      ensures LifetimeOf(after, u).losses == |RecordsOf(n, u, Loss)|
    {
      PlayAllAdds(before, Games(n, rd, users), u);
      GamesCount(n, rd, users, u, true);
      GamesCount(n, rd, users, u, false);
      NewResults(m, n, rd.id, users, u, Win);
      NewResults(m, n, rd.id, users, u, Loss);
    }
  }

  /** The order of the list does not matter. */
  lemma AddsSorted(s: State, t: State, c: Command, e: Exit)
    requires Inv(s) && Closes(s, t, c, e)
    ensures Adds(s.outcomes, t.outcomes, e.round, Sort(ParticipantsOf(s, e.round)))
    ensures Distinct(Sort(ParticipantsOf(s, e.round)))
  {
    ClosingAdds(s, t, c, e);
    ParticipantsAre(s, e.round);
    SortKeepsMembers(ParticipantsOf(s, e.round));
  }

  lemma ClosingIs(s: State, t: State, c: Command, e: Exit)
    requires Inv(s) && Ends(s, t, c, e)
    ensures Closing(s, c).Some? && Closing(s, c).value.0.id == e.round
    ensures !HasExited(s.exits, e.round) && |t.exits| == |s.exits| + 1 && t.exits == s.exits + [e]
  {
  }

  lemma FeedKeeps(w: World, t: State, c: Command, e: Exit, rd: Round, price: nat, limit: nat)
    requires Agree(w, limit) && Inv(t) && Closes(w.ledger, t, c, e) && rd.id == e.round && t.exits == w.ledger.exits + [e]
    requires !HasExited(w.ledger.exits, e.round) && Feed(w, t, rd, price, limit).Ok?
    ensures Agree(Feed(w, t, rd, price, limit).value, limit)
  {
    var s := w.ledger;
    var users := ParticipantsOf(s, rd.id);
    var games := Games(t.outcomes, rd, Sort(users));
    AddsSorted(s, t, c, e);
    ClosingAdds(s, t, c, e);
    ParticipantsAre(s, rd.id);
    PlayAllRuns(w.played, games);
    ResultsCounted(s.outcomes, t.outcomes, rd, Sort(users), w.standings, PlayAll(w.standings, games).value);
    FilingKeepsHistories(s.exits, s.outcomes, t.outcomes, e, users, w.store.history);
    NotFiledYet(s.exits, w.store, limit, e.round);
    FilingFiles(s.exits, w.store, limit, Archive.Summary(rd.id, e.status, price, |users|, s.now), users);
  }

  lemma NotFiledYet(exits: seq<Exit>, store: Archive.Store, limit: nat, id: nat)
    requires Filed(exits, store, limit) && !HasExited(exits, id)
    ensures id !in store.entries
  {
  }

  /** A call that takes no round off the ledger leaves counters and archive as they are. */
  lemma QuietKeeps(w: World, t: State, c: Command, limit: nat)
    requires Agree(w, limit) && Inv(t) && Step(w.ledger, c) == Ok(t) && t.exits == w.ledger.exits
    requires !IsEnding(c) || Stages(w.ledger, t)
    ensures Agree(w.(ledger := t), limit)
  {
    forall u: Address
      ensures RecordsOf(t.outcomes, u, Win) == RecordsOf(w.ledger.outcomes, u, Win)
      ensures RecordsOf(t.outcomes, u, Loss) == RecordsOf(w.ledger.outcomes, u, Loss)
    {
      NoNewResults(w.ledger, c, u, Win);
      NoNewResults(w.ledger, c, u, Loss);
    }
    RecordsRemain(w.ledger, c);
  }

  lemma RecordsRemain(s: State, c: Command)
    requires Step(s, c).Ok? && (!IsEnding(c) || Stages(s, Step(s, c).value))
    ensures forall k :: k in s.outcomes ==> k in Step(s, c).value.outcomes
  {
    if !c.DoCashOut? { OutcomesStay(s, c); }
  }

  lemma SeasonKeeps(w: World, limit: nat)
    requires Agree(w, limit) && Commit(w, EndOfSeason, limit).Ok?
    ensures Agree(Commit(w, EndOfSeason, limit).value, limit)
  {
    RunsOn(w.played, Reset(w.ledger.now));
  }

  /** Every committed call keeps ledger, leaderboards and archive in agreement. */
  lemma CommitKeeps(w: World, call: Call, limit: nat)
    requires Agree(w, limit) && w.ledger.minted <= I128_MAX && Commit(w, call, limit).Ok?
    ensures Agree(Commit(w, call, limit).value, limit)
  {
    match call
    case EndOfSeason => SeasonKeeps(w, limit);
    case OnLedger(c) => LedgerCallKeeps(w, c, Step(w.ledger, c).value, limit);
  }

  lemma LedgerCallKeeps(w: World, c: Command, t: State, limit: nat)
    requires Agree(w, limit) && w.ledger.minted <= I128_MAX && Step(w.ledger, c) == Ok(t)
    requires Commit(w, OnLedger(c), limit).Ok?
    ensures Agree(Commit(w, OnLedger(c), limit).value, limit)
  {
    StepKeeps(w.ledger, c);
    if IsEnding(c) {
      EndingCloses(w.ledger, c);
      EndingCallKeeps(w, c, t, Closing(w.ledger, c).value.0, Closing(w.ledger, c).value.1, limit);
    } else {
      NothingLeaves(w.ledger, c);
      QuietKeeps(w, t, c, limit);
    }
  }

  lemma EndingCloses(s: State, c: Command)
    requires Step(s, c).Ok? && IsEnding(c)
    ensures Closing(s, c).Some?
  {
  }

  lemma EndingCallKeeps(w: World, c: Command, t: State, rd: Round, price: nat, limit: nat)
    requires Agree(w, limit) && w.ledger.minted <= I128_MAX && Step(w.ledger, c) == Ok(t) && Inv(t) && IsEnding(c)
    requires Closing(w.ledger, c) == Some((rd, price)) && Feed(w, t, rd, price, limit).Ok?
    ensures Agree(Feed(w, t, rd, price, limit).value, limit)
  {
    EveryStakeIsAnswered(w.ledger, c);
    if e :| Closes(w.ledger, t, c, e) {
      ClosingIs(w.ledger, t, c, e);
      FeedKeeps(w, t, c, e, rd, price, limit);
    } else {
      QuietKeeps(w, t, c, limit);
    }
  }

  lemma NothingLeaves(s: State, c: Command)
    requires Inv(s) && Step(s, c).Ok? && !IsEnding(c)
    ensures Step(s, c).value.exits == s.exits && Closing(s, c).None?
  {
    StepShape(s, c);
  }

  /** After any run of calls, a user's lifetime wins and losses are the numbers of wins and
      losses in the records of the ledger, the archive holds only rounds that have left, under
      the status they left with, and all of them as long as the retention limit was not passed. */
  lemma {:induction false} RunAgrees(admin: Address, cfg: Config, calls: seq<Call>, limit: nat)
    requires ValidConfig(cfg) && SubmitAll(NewWorld(admin, cfg), calls, limit).ledger.minted <= I128_MAX
    ensures Agree(SubmitAll(NewWorld(admin, cfg), calls, limit), limit)
  {
    if calls == [] {
      InitialInv(admin, cfg);
    } else {
      var n := |calls| - 1;
      var mid := SubmitAll(NewWorld(admin, cfg), calls[..n], limit);
      SubmitMints(mid, calls[n], limit);
      RunAgrees(admin, cfg, calls[..n], limit);
      if Commit(mid, calls[n], limit).Ok? { CommitKeeps(mid, calls[n], limit); }
    }
  }

  lemma SubmitMints(w: World, call: Call, limit: nat)
    ensures w.ledger.minted <= Submit(w, call, limit).ledger.minted
  {
    if call.OnLedger? && Step(w.ledger, call.command).Ok? { MintedGrows(w.ledger, call.command); }
  }

  /** While fewer than 2^32 - 1 results have been counted, the leaderboards never stand in the
      way of the ledger: a call commits exactly when its ledger step does. */
  lemma CountersNeverRefuse(w: World, c: Command, limit: nat)
    requires Agree(w, limit) && w.ledger.minted <= I128_MAX
    requires Closing(w.ledger, c).Some? ==> |w.played| + 2 * |ParticipantsOf(w.ledger, Closing(w.ledger, c).value.0.id)| < U32_MAX
    ensures Commit(w, OnLedger(c), limit).Ok? <==> Step(w.ledger, c).Ok?
  {
    if Step(w.ledger, c).Ok? && Closing(w.ledger, c).Some? {
      FeedFits(w, Step(w.ledger, c).value, Closing(w.ledger, c).value.0, Closing(w.ledger, c).value.1, limit);
    }
  }

  lemma FeedFits(w: World, t: State, rd: Round, price: nat, limit: nat)
    requires w.standings == RunEvents(NEW_STANDINGS, w.played)
    requires |w.played| + 2 * |ParticipantsOf(w.ledger, rd.id)| < U32_MAX
    ensures Feed(w, t, rd, price, limit).Ok?
  {
    var users := Sort(ParticipantsOf(w.ledger, rd.id));
    SortKeepsMembers(ParticipantsOf(w.ledger, rd.id));
    GamesBound(t.outcomes, rd, users);
    PlayAllRuns(w.played, Games(t.outcomes, rd, users));
  }

  lemma GamesBound(m: map<Key, UserRoundOutcome>, rd: Round, users: seq<Address>)
    ensures |Games(m, rd, users)| <= 2 * |users|
  {
    GamesShort(m, rd.id, users, {Win, Loss});
    GamesShort(m, rd.id, users, {Win});
    GamesShort(m, rd.id, users, {Loss});
  }

  lemma {:induction false} GamesShort(m: map<Key, UserRoundOutcome>, round: nat, users: seq<Address>, kinds: set<OutcomeKind>)
    ensures |GamesOf(m, round, users, kinds)| <= |users|
  {
    if users != [] { GamesShort(m, round, users[..|users| - 1], kinds); }
  }
}
