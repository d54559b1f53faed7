/** Committing and revealing: the guess that is settled is the one that was committed. */
module Reveals {
  import opened Types
  import opened Ledger
  import opened Books
  import opened Invariants
  import opened Runs

  /** `hash` commits to `price` under a salt with two different bytes. */
  ghost predicate CommitsTo(hash: Digest, price: nat) {
    exists salt: seq<nat>, i: nat, j: nat ::
      i < |salt| && j < |salt| && salt[i] != salt[j] && hash == Sha256(price, salt)
  }

  /** Every prediction behind a commitment is the one that was committed. */
  ghost predicate Opened(b: Book) {
    forall k :: k in b.predictions && k in b.commitments ==> CommitsTo(b.commitments[k].hash, b.predictions[k].price)
  }

  lemma RevealOpens(s: State, user: Address, price: nat, salt: seq<nat>)
    requires Opened(s.book) && RevealPrediction(s, user, price, salt).Ok?
    ensures Opened(RevealPrediction(s, user, price, salt).value.book)
  {
    var k := Key(s.active.value.id, user);
    var i, j :| 0 <= i < j < |salt| && salt[i] != salt[j];
    assert CommitsTo(s.book.commitments[k].hash, price);
  }

  lemma PredictOpens(s: State, user: Address, amount: int, price: nat)
    requires Opened(s.book) && PlacePrediction(s, user, amount, price).Ok?
    ensures Opened(PlacePrediction(s, user, amount, price).value.book)
  {
  }

  lemma CommitOpens(s: State, user: Address, hash: Digest, amount: int)
    requires Opened(s.book) && CommitPrediction(s, user, hash, amount).Ok?
    ensures Opened(CommitPrediction(s, user, hash, amount).value.book)
  {
  }

  lemma StakingOpens(s: State, c: Command)
    requires Opened(s.book) && Step(s, c).Ok? && IsStaking(c)
    ensures Opened(Step(s, c).value.book)
  {
    match c
    case DoBet(user, amount, side) =>
    case DoPredict(user, amount, price) => PredictOpens(s, user, amount, price);
    case DoCommit(user, hash, amount) => CommitOpens(s, user, hash, amount);
    case DoReveal(user, price, salt) => RevealOpens(s, user, price, salt);
    case DoCashOut(user) =>
  }

  lemma MoneyKeepsBook(s: State, c: Command)
    requires Step(s, c).Ok? && !IsStaking(c) && !IsEnding(c)
    ensures Step(s, c).value.book == s.book
  {
    if c.DoClaimMany? { ClaimAllMoves(s, c.users); } else { CallKeepsBook(s, c); }
  }

  lemma CallKeepsBook(s: State, c: Command)
    requires Step(s, c).Ok? && !IsStaking(c) && !IsEnding(c) && !c.DoClaimMany?
    ensures Step(s, c).value.book == s.book
  {
  }

  lemma EndingClears(s: State, c: Command)
    requires Inv(s) && Step(s, c).Ok? && IsEnding(c)
    ensures var t := Step(s, c).value;
            t.book == s.book || exists e :: e in t.exits && t.book == ClearUsers(s.book, e.round, ParticipantsOf(s, e.round))
  {
    EndingShape(s, c);
    var t := Step(s, c).value;
    if e :| Ends(s, t, c, e) { assert t.exits[|s.exits|] == e; }
  }

  /** Every committed call keeps every revealed prediction equal to its commitment. */
  lemma StepOpens(s: State, c: Command)
    requires Inv(s) && Opened(s.book) && Step(s, c).Ok?
    ensures Opened(Step(s, c).value.book)
  {
    if IsStaking(c) {
      StakingOpens(s, c);
    } else if IsEnding(c) {
      EndingClears(s, c);
    } else {
      MoneyKeepsBook(s, c);
    }
  }

  /** In every state a run reaches, a prediction whose user committed is the committed one. */
  lemma {:induction false} RunOpens(s: State, cs: seq<Command>)
    requires Inv(s) && Opened(s.book) && Run(s, cs).minted <= I128_MAX
    ensures Opened(Run(s, cs).book)
  {
    if cs != [] {
      var mid, c := Run(s, cs[..|cs| - 1]), cs[|cs| - 1];
      if Step(mid, c).Ok? { MintedGrows(mid, c); }
      RunOpens(s, cs[..|cs| - 1]);
      RunKeeps(s, cs[..|cs| - 1]);
      if Step(mid, c).Ok? { StepOpens(mid, c); }
    }
  }

  // ----- a commitment is binding -----

  /** The commitment under `k` still stands, or its round has left the ledger. */
  ghost predicate Stands(t: State, k: Key, hash: Digest, amount: int) {
    || (k in t.book.commitments && t.book.commitments[k].hash == hash && t.book.commitments[k].amount == amount)
    || HasExited(t.exits, k.round)
  }

  lemma StakingStands(s: State, c: Command, k: Key, hash: Digest, amount: int)
    requires Step(s, c).Ok? && IsStaking(c) && Stands(s, k, hash, amount)
    ensures Stands(Step(s, c).value, k, hash, amount)
  {
    match c
    case DoBet(user, bet, side) =>
    case DoPredict(user, stake, price) =>
    case DoCommit(user, other, stake) =>
    case DoReveal(user, price, salt) =>
    case DoCashOut(user) => CashOutKeepsCommitments(s, user);
  }

  lemma CashOutKeepsCommitments(s: State, user: Address)
    requires CashOutEarly(s, user).Ok?
    ensures CashOutEarly(s, user).value.book.commitments == s.book.commitments && CashOutEarly(s, user).value.exits == s.exits
  {
  }

  lemma ShapeStands(s: State, t: State, c: Command, k: Key, hash: Digest, amount: int)
    requires Shaped(s, t, c) && !IsStaking(c) && Stands(s, k, hash, amount)
    requires (exists e :: Ends(s, t, c, e)) || t.book == s.book
    ensures Stands(t, k, hash, amount)
  {
    if i :| 0 <= i < |s.exits| && s.exits[i].round == k.round {
      assert t.exits[i] == s.exits[i];
    } else if e :| Ends(s, t, c, e) {
      assert t.exits[|s.exits|] == e;
      if e.round != k.round { ClearedStake(s.book, e.round, ParticipantsOf(s, e.round), k); }
    }
  }

  lemma StepStands(s: State, c: Command, k: Key, hash: Digest, amount: int)
    requires Inv(s) && Step(s, c).Ok? && Stands(s, k, hash, amount)
    ensures Stands(Step(s, c).value, k, hash, amount)
  {
    if IsStaking(c) {
      StakingStands(s, c, k, hash, amount);
    } else {
      StepShape(s, c);
      if IsEnding(c) { EndingShape(s, c); } else { MoneyKeepsBook(s, c); }
      ShapeStands(s, Step(s, c).value, c, k, hash, amount);
    }
  }

  lemma {:induction false} RunStands(s: State, cs: seq<Command>, k: Key, hash: Digest, amount: int)
    requires Inv(s) && Stands(s, k, hash, amount) && Run(s, cs).minted <= I128_MAX
    ensures Stands(Run(s, cs), k, hash, amount)
  {
    if cs != [] {
      var mid, c := Run(s, cs[..|cs| - 1]), cs[|cs| - 1];
      if Step(mid, c).Ok? { MintedGrows(mid, c); }
      RunStands(s, cs[..|cs| - 1], k, hash, amount);
      RunKeeps(s, cs[..|cs| - 1]);
      if Step(mid, c).Ok? { StepStands(mid, c, k, hash, amount); }
    }
  }

  /** Whatever happens after a commitment to `price`, a prediction recorded under the same key is
      that price, at the committed stake. */
  lemma CommitmentBinds(s: State, cs: seq<Command>, k: Key, price: nat, salt: seq<nat>)
    requires Inv(s) && Opened(s.book) && Run(s, cs).minted <= I128_MAX
    requires k in s.book.commitments && s.book.commitments[k].hash == Sha256(price, salt)
    ensures k in Run(s, cs).book.predictions ==>
              Run(s, cs).book.predictions[k] == PrecisionPrediction(price, s.book.commitments[k].amount)
  {
    var t := Run(s, cs);
    RunStands(s, cs, k, s.book.commitments[k].hash, s.book.commitments[k].amount);
    RunKeeps(s, cs);
    RunOpens(s, cs);
    if k in t.book.predictions {
      assert InBook(t.book, k);
      assert !HasExited(t.exits, k.round);
      assert CommitsTo(t.book.commitments[k].hash, t.book.predictions[k].price);
    }
  }

  /** A reveal with any other price or salt than the committed ones changes nothing. */
  lemma WrongRevealChangesNothing(s: State, user: Address, price: nat, salt: seq<nat>, committed: nat, secret: seq<nat>)
    requires s.active.Some? && Key(s.active.value.id, user) in s.book.commitments
    requires s.book.commitments[Key(s.active.value.id, user)].hash == Sha256(committed, secret)
    requires price != committed || salt != secret
    ensures Step(s, DoReveal(user, price, salt)).Err? && Apply(s, DoReveal(user, price, salt)) == s
  {
  }
}
