/** A concrete run in which unrevealed commitments take a Precision round past its participant
    cap and hide a prediction from a reader that follows the cursor. */
module Commitments {
  import opened Types
  import opened Sums
  import opened Ledger
  import opened Caps
  import opened Cursors

  const ONE_GUESS := Config(
    0, Normal, 6, 12, 0, None, None, None, None, None, 1,
    None, FeeOnPot, Equal, 0, None, 0, 0, 0, [])

  /** A round that takes one user; user 3 predicts openly, then users 1 and 2 commit. */
  const CROWDING: seq<Command> := [
    DoCreate(100, Some(1)), DoMint(1, true), DoMint(2, true), DoMint(3, true),
    DoPredict(3, 5, 2000), DoCommit(1, OtherDigest(1), 5), DoCommit(2, OtherDigest(2), 5)]

  const GUESSING := Round(1, 100, 0, 6, 12, 0, 0, Precision)

  const START := Initial(0, ONE_GUESS)
  const OPENED := START.(active := Some(GUESSING), lastRoundId := 1, startLedgers := map[0 := 1])
  const FUNDED_1 := OPENED.(balances := map[1 := INITIAL_MINT], minted := INITIAL_MINT)
  const FUNDED_2 := FUNDED_1.(balances := FUNDED_1.balances[2 := INITIAL_MINT], minted := 2 * INITIAL_MINT)
  const FUNDED := FUNDED_2.(balances := FUNDED_2.balances[3 := INITIAL_MINT], minted := 3 * INITIAL_MINT)
  const PREDICTED := FUNDED.(
    balances := FUNDED.balances[3 := INITIAL_MINT - 5], participants := map[1 := [3]],
    book := Book(map[], map[Key(1, 3) := PrecisionPrediction(2000, 5)], map[]))
  const FIRST := PrecisionCommitment(OtherDigest(1), 5, false)
  const SECOND := PrecisionCommitment(OtherDigest(2), 5, false)
  const COMMITTED := PREDICTED.(
    balances := PREDICTED.balances[1 := INITIAL_MINT - 5], participants := map[1 := [3, 1]],
    book := PREDICTED.book.(commitments := map[Key(1, 1) := FIRST]))
  const CROWDED := COMMITTED.(
    balances := COMMITTED.balances[2 := INITIAL_MINT - 5], participants := map[1 := [3, 1, 2]],
    book := COMMITTED.book.(commitments := map[Key(1, 1) := FIRST, Key(1, 2) := SECOND]))

  const TRACE: seq<State> := [START, OPENED, FUNDED_1, FUNDED_2, FUNDED, PREDICTED, COMMITTED, CROWDED]

  lemma FundingSteps()
    ensures Step(START, DoCreate(100, Some(1))) == Ok(OPENED)
    ensures Step(OPENED, DoMint(1, true)) == Ok(FUNDED_1)
    ensures Step(FUNDED_1, DoMint(2, true)) == Ok(FUNDED_2)
    ensures Step(FUNDED_2, DoMint(3, true)) == Ok(FUNDED)
  {
  }

  lemma PredictStep()
    ensures Step(FUNDED, DoPredict(3, 5, 2000)) == Ok(PREDICTED)
  {
    var t := PlacePrediction(FUNDED, 3, 5, 2000);
    assert ParticipantsOf(FUNDED, 1) == [] && [] + [3] == [3];
    assert t.Ok? && t.value.book == PREDICTED.book && t.value.participants == PREDICTED.participants;
    assert t.value.balances == PREDICTED.balances;
  }

  lemma FirstCommitStep()
    ensures Step(PREDICTED, DoCommit(1, OtherDigest(1), 5)) == Ok(COMMITTED)
  {
    var t := CommitPrediction(PREDICTED, 1, OtherDigest(1), 5);
    assert [3] + [1] == [3, 1];
    assert t.Ok? && t.value.book == COMMITTED.book && t.value.participants == COMMITTED.participants;
    assert t.value.balances == COMMITTED.balances;
  }

  lemma SecondCommitStep()
    ensures Step(COMMITTED, DoCommit(2, OtherDigest(2), 5)) == Ok(CROWDED)
  {
    var t := CommitPrediction(COMMITTED, 2, OtherDigest(2), 5);
    assert [3, 1] + [2] == [3, 1, 2];
    assert t.Ok? && t.value.book == CROWDED.book && t.value.participants == CROWDED.participants;
    assert t.value.balances == CROWDED.balances;
  }

  lemma TraceStep(n: nat)
    requires n < |CROWDING|
    ensures Apply(TRACE[n], CROWDING[n]) == TRACE[n + 1]
  {
    if n == 4 {
      PredictStep();
    } else if n == 5 {
      FirstCommitStep();
    } else if n == 6 {
      SecondCommitStep();
    } else {
      FundingSteps();
    }
  }

  lemma {:induction false} CrowdingRun(n: nat)
    requires n <= |CROWDING|
    ensures Run(START, CROWDING[..n]) == TRACE[n]
  {
    if n > 0 {
      CrowdingRun(n - 1);
      TraceStep(n - 1);
      assert CROWDING[..n][..n - 1] == CROWDING[..n - 1];
    }
  }

  /** The run breaks the promise of a participant cap: the round takes one user, the direct
      prediction fills it, and two commitments get in all the same. */
  lemma CommitmentsExceedTheCap()
    ensures ValidConfig(ONE_GUESS)
    ensures Capped(Run(Initial(0, ONE_GUESS), CROWDING[..5]))
    ensures var t := Run(Initial(0, ONE_GUESS), CROWDING);
            && !Capped(t)
            && t.active.Some? && |ParticipantsOf(t, t.active.value.id)| == 3 && t.cfg.maxPrecision == 1
  {
    CrowdingRun(5);
    CrowdingRun(7);
    assert CROWDING[..7] == CROWDING;
  }

  lemma CrowdInOrder()
    ensures Sort([3, 1, 2]) == [1, 2, 3]
  {
    assert [3, 1, 2][..2] == [3, 1] && [3, 1][..1] == [3] && [3][..0] == [];
    assert Sort([3]) == [3];
    assert Sort([3, 1]) == Insert(1, [3]) == [1, 3];
    assert [1, 3][1..] == [3] && Insert(2, [3]) == [2, 3];
    assert Insert(2, [1, 3]) == [1] + [2, 3];
  }

  /** Two commitments and a prediction behind them, whatever the rest of the ledger. */
  lemma GapInFront(b: Book)
    requires Hidden(b, Key(1, 1)) && Hidden(b, Key(1, 2)) && !Hidden(b, Key(1, 3))
    requires Key(1, 1) !in b.predictions && Key(1, 2) !in b.predictions
    ensures StrictlyUp([1, 2, 3]) && Walk(EntriesOf(b.predictions, 1, [1, 2, 3]), [1, 2, 3], 0, 2) == []
    ensures !NothingBehindCommitments(b, 1, [1, 2, 3], 2)
  {
    var users := [1, 2, 3];
    WalkStopsAtAGap(EntriesOf(b.predictions, 1, users), users, 0, 2);
    assert AllHidden(b, 1, users, 0, 0 + 2) && !Hidden(b, Key(1, users[2]));
    assert !AllHidden(b, 1, users, 0, |users|);
  }

  /** In the same state, reading pages of two from the start lists nothing: the first page
      holds two unrevealed commitments and comes without a cursor, and the prediction of user 3
      behind them is never reached. */
  lemma CommitmentsHideAPrediction()
    ensures var t := Run(Initial(0, ONE_GUESS), CROWDING);
            var users := Sort(ParticipantsOf(t, 1));
            && t.active == Some(GUESSING)
            && StrictlyUp(users) && Key(1, 3) in t.book.predictions
            && Walk(EntriesOf(t.book.predictions, 1, users), users, 0, 2) == []
            && !NothingBehindCommitments(t.book, 1, users, 2)
  {
    CrowdingRun(7);
    assert CROWDING[..7] == CROWDING;
    CrowdInOrder();
    GapInFront(CROWDED.book);
    assert ParticipantsOf(CROWDED, 1) == [3, 1, 2];
  }
}
