/** A concrete run in which finalizing an old round strands the stake of a newer one. */
module Orphans {
  import opened Types
  import opened Sums
  import opened Engine
  import opened Ledger
  import opened Books
  import opened Invariants
  import opened Runs

  const SHORT_DISPUTES := Config(
    0, Normal, 6, 12, 0, None, None, None, None, None, 1_000,
    None, FeeOnPot, Equal, 1, None, 0, 0, 0, [])

  /** Round 1 is staged for dispute, round 2 is created and user 7 bets 5 on it, then round 1
      is finalized. */
  const STRANDING: seq<Command> := [
    DoCreate(100, None), Advance(12), DoResolve(101, 0, true),
    DoCreate(100, None), DoMint(7, true), DoBet(7, 5, Up),
    Advance(1), DoFinalize(1)]

  const FIRST := Round(1, 100, 0, 6, 12, 0, 0, UpDown)
  const SECOND := Round(2, 100, 12, 18, 24, 0, 0, UpDown)

  const START := Initial(0, SHORT_DISPUTES)
  const OPENED := START.(active := Some(FIRST), lastRoundId := 1, startLedgers := map[0 := 1])
  const STAGED := OPENED.(now := 12, active := None, disputes := map[1 := Dispute(FIRST, 101, 13)])
  const REOPENED := STAGED.(active := Some(SECOND), lastRoundId := 2, startLedgers := map[0 := 1, 12 := 2])
  const FUNDED := REOPENED.(balances := map[7 := INITIAL_MINT], minted := INITIAL_MINT)
  const BETTED := FUNDED.(
    balances := map[7 := INITIAL_MINT - 5], participants := map[2 := [7]],
    active := Some(SECOND.(poolUp := 5)), book := Book(map[Key(2, 7) := UserPosition(5, Up)], map[], map[]))
  const STRANDED := BETTED.(now := 13, active := None, disputes := map[], exits := [Exit(1, Resolved)])

  const TRACE: seq<State> := [
    START, OPENED, OPENED.(now := 12), STAGED, REOPENED, FUNDED, BETTED, BETTED.(now := 13), STRANDED]

  lemma OpeningSteps()
    ensures Step(START, DoCreate(100, None)) == Ok(OPENED)
    ensures Step(OPENED.(now := 12), DoResolve(101, 0, true)) == Ok(STAGED)
    ensures Step(STAGED, DoCreate(100, None)) == Ok(REOPENED)
    ensures Step(REOPENED, DoMint(7, true)) == Ok(FUNDED)
  {
  }

  lemma BetStep()
    ensures Step(FUNDED, DoBet(7, 5, Up)) == Ok(BETTED)
  {
    var t := PlaceBet(FUNDED, 7, 5, Up);
    assert BalanceOf(FUNDED, 7) == INITIAL_MINT;
    assert ParticipantsOf(FUNDED, 2) + [7] == [7];
    assert t.Ok? && t.value.book == BETTED.book && t.value.participants == BETTED.participants;
    assert t.value.balances == BETTED.balances && t.value.active == BETTED.active;
  }

  /** Round 1 has no stakes: settling it pays nothing, and takes the active marker away. */
  lemma EmptySettlement(s: State)
    requires s == BETTED.(now := 13)
    ensures CompleteSettlement(s, FIRST, 101) == Ok(s.(active := None, exits := [Exit(1, Resolved)]))
  {
    assert ParticipantsOf(s, 1) == [] && Sort([]) == [];
    assert SettleRound(s.book, FIRST, [], 101, s.cfg) == Ok(Settlement(0, []));
    assert PayOut(s, 1, []) == Ok(s);
    assert Pot(s.book, FIRST, []) == 0 && Paid([]) == 0;
    assert ClearUsers(s.book, 1, []) == s.book by { assert s.book.positions - {} == s.book.positions; }
    assert s.participants - {1} == s.participants;
    assert CloseRound(s, 1, Resolved) == s.(exits := [Exit(1, Resolved)]);
  }

  lemma FinalStep()
    ensures Step(BETTED.(now := 13), DoFinalize(1)) == Ok(STRANDED)
  {
    var s := BETTED.(now := 13);
    EmptySettlement(s);
    assert s.disputes - {1} == map[];
  }

  lemma TraceStep(n: nat)
    requires n < |STRANDING|
    ensures Apply(TRACE[n], STRANDING[n]) == TRACE[n + 1]
  {
    if n == 7 { FinalStep(); } else if n == 5 { BetStep(); } else { OpeningSteps(); }
  }

  lemma {:induction false} StrandingRun(n: nat)
    requires n <= |STRANDING|
    ensures Run(START, STRANDING[..n]) == TRACE[n]
  {
    if n > 0 {
      StrandingRun(n - 1);
      TraceStep(n - 1);
      assert STRANDING[..n][..n - 1] == STRANDING[..n - 1];
    }
  }

  lemma StrandedStake()
    ensures Orphaned(STRANDED, 2)
    ensures RoundRecorded(STRANDED.book, 2) == map[Key(2, 7) := 5]
  {
    assert !HasExited(STRANDED.exits, 2);
  }

  lemma StrandedIsReachable()
    ensures Inv(STRANDED)
  {
    StrandingRun(8);
    assert STRANDING[..8] == STRANDING;
    InitialInv(0, SHORT_DISPUTES);
    RunKeeps(START, STRANDING);
  }

  /** The run breaks the promise that a newer active round survives the finalization of an
      older one: round 2 is neither active nor in dispute nor gone, and no continuation of the
      run ever pays or clears the stake that user 7 has in it. */
  lemma FinalizingStrandsANewerRound(cs: seq<Command>)
    requires Run(Run(Initial(0, SHORT_DISPUTES), STRANDING), cs).minted <= I128_MAX
    ensures ValidConfig(SHORT_DISPUTES)
    ensures var t := Run(Run(Initial(0, SHORT_DISPUTES), STRANDING), cs);
            Orphaned(t, 2) && RoundRecorded(t.book, 2) == map[Key(2, 7) := 5]
  {
    StrandingRun(8);
    assert STRANDING[..8] == STRANDING;
    StrandedIsReachable();
    StrandedStake();
    OrphanStuck(STRANDED, cs, 2);
  }
}
