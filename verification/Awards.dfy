/** How a settled Precision round divides its pot, read off the records it leaves. */
module Awards {
  import opened Types
  import opened Sums
  import opened Fees
  import opened Engine
  import opened Ledger
  import opened Books
  import opened Invariants
  import opened Records
  import opened Verdicts

  /** The records of a round, by ascending address, one for every stake. */
  ghost predicate AreRecords(s: State, t: State, id: nat, records: seq<UserRoundOutcome>) {
    && (forall i, j :: 0 <= i < j < |records| ==> records[i].user < records[j].user)
    && (forall i :: 0 <= i < |records| ==>
          && InBook(s.book, Key(id, records[i].user)) && Key(id, records[i].user) in t.outcomes
          && t.outcomes[Key(id, records[i].user)] == records[i])
    && (forall u: Address :: InBook(s.book, Key(id, u)) ==> exists i :: 0 <= i < |records| && records[i].user == u)
  }

  /** The configured fee is taken off the pot, and what remains is awarded to the winners. */
  ghost predicate DividesPot(cfg: Config, pot: int, fee: int, records: seq<UserRoundOutcome>) {
    && IsFee(FeeTerms(cfg.feeBps, cfg.feeModel), pot, Sum(StakesWon(records)), fee)
    && forall i :: 0 <= i < |records| ==>
         if records[i].kind == Win then Awarded(cfg.policy, records, i, pot - fee) else records[i].payout == 0
  }

  predicate GivesBack(fee: int, records: seq<UserRoundOutcome>) {
    fee == 0 && forall i :: 0 <= i < |records| ==> records[i].kind == Refund && records[i].payout == records[i].stake
  }

  /** When somebody revealed the recorded stakes are the pot; when nobody did they go back. */
  ghost predicate Divided(b: Book, cfg: Config, id: nat, fee: int, records: seq<UserRoundOutcome>) {
    if exists u: Address :: Key(id, u) in b.predictions then DividesPot(cfg, SumMap(RoundRecorded(b, id)), fee, records)
    else GivesBack(fee, records)
  }

  lemma RecordsAscend(s: State, rd: Round, price: nat) returns (st: Settlement)
    requires Inv(s) && IsLive(s, rd) && CompleteSettlement(s, rd, price).Ok?
    ensures var t, users := CompleteSettlement(s, rd, price).value, Sort(ParticipantsOf(s, rd.id));
            && SettleRound(s.book, rd, users, price, s.cfg) == Ok(st) && Members(s.book, rd.id, users)
            && AreRecords(s, t, rd.id, st.outcomes)
            && t.treasury + t.fund == s.treasury + s.fund + st.fee
    ensures StakesOk(s.book) && RoundOk(s.book, s.startLedgers, s.lastRoundId, rd) && ValidConfig(s.cfg)
  {
    var users, t := Sort(ParticipantsOf(s, rd.id)), CompleteSettlement(s, rd, price).value;
    st := SettleRound(s.book, rd, users, price, s.cfg).value;
    SettlementFits(s, rd, price);
    SettlementIsFresh(s, rd, price);
    SortKeepsMembers(ParticipantsOf(s, rd.id));
    FeeIsPositive(s, rd, users, price);
    AllRecorded(s, rd, price, st);
  }

  lemma AllRecorded(s: State, rd: Round, price: nat, st: Settlement)
    requires ValidConfig(s.cfg) && s.treasury >= 0 && s.fund >= 0 && CompleteSettlement(s, rd, price).Ok?
    requires SettleRound(s.book, rd, Sort(ParticipantsOf(s, rd.id)), price, s.cfg) == Ok(st)
    requires Fresh(s, rd.id, st.outcomes) && st.fee >= 0
    ensures var t := CompleteSettlement(s, rd, price).value;
            && (forall i :: 0 <= i < |st.outcomes| ==>
                  Key(rd.id, st.outcomes[i].user) in t.outcomes && t.outcomes[Key(rd.id, st.outcomes[i].user)] == st.outcomes[i])
            && t.treasury + t.fund == s.treasury + s.fund + st.fee
  {
    var _, charged := CompleteChanges(s, rd, price);
    FeeCollected(s, st.fee);
    forall i | 0 <= i < |st.outcomes|
      ensures var t, k := CompleteSettlement(s, rd, price).value, Key(rd.id, st.outcomes[i].user);
              k in t.outcomes && t.outcomes[k] == st.outcomes[i]
    {
      RecordedAt(s, rd, price, i);
    }
  }

  lemma SomebodyDivides(es: seq<PrecisionStake>, price: nat, cfg: Config, j: nat)
    requires PositivePrecision(es) && ValidFeeBps(cfg.feeBps) && j < |es| && es[j].revealed
    requires SettlePrecision(es, price, FeeTerms(cfg.feeBps, cfg.feeModel), cfg.policy).Ok?
    ensures var st := SettlePrecision(es, price, FeeTerms(cfg.feeBps, cfg.feeModel), cfg.policy).value;
            DividesPot(cfg, Sum(PrecisionAmounts(es)), st.fee, st.outcomes)
  {
    var terms := FeeTerms(cfg.feeBps, cfg.feeModel);
    var st := SettlePrecision(es, price, terms, cfg.policy).value;
    PrecisionAwards(es, price, terms, cfg.policy, j);
    forall i | 0 <= i < |st.outcomes|
      ensures if st.outcomes[i].kind == Win then Awarded(cfg.policy, st.outcomes, i, Sum(PrecisionAmounts(es)) - st.fee)
              else st.outcomes[i].payout == 0
    {
      PrecisionAwards(es, price, terms, cfg.policy, i);
    }
  }

  lemma NobodyDivides(es: seq<PrecisionStake>, price: nat, cfg: Config)
    requires PositivePrecision(es) && forall j :: 0 <= j < |es| ==> !es[j].revealed
    requires SettlePrecision(es, price, FeeTerms(cfg.feeBps, cfg.feeModel), cfg.policy).Ok?
    ensures var st := SettlePrecision(es, price, FeeTerms(cfg.feeBps, cfg.feeModel), cfg.policy).value;
            GivesBack(st.fee, st.outcomes)
  {
    ClosestExists(es, price);
    NobodyClosestConserves(es, price, FeeTerms(cfg.feeBps, cfg.feeModel), cfg.policy);
  }

  /** A settled Precision round leaves one record for every stake. When somebody revealed, they
      divide the recorded stakes, less the fee of the configured rate and model, by the configured
      policy among the wins; when nobody did, everybody gets the own stake back. */
  lemma PrecisionSettlement(s: State, rd: Round, price: nat) returns (records: seq<UserRoundOutcome>, fee: int)
    requires Inv(s) && IsLive(s, rd) && CompleteSettlement(s, rd, price).Ok? && rd.mode.Precision?
    ensures var t := CompleteSettlement(s, rd, price).value;
            AreRecords(s, t, rd.id, records) && t.treasury + t.fund == s.treasury + s.fund + fee
    ensures Divided(s.book, s.cfg, rd.id, fee, records)
  {
    var st := RecordsAscend(s, rd, price);
    records, fee := st.outcomes, st.fee;
    RoundDivides(s.book, s.startLedgers, s.lastRoundId, rd, Sort(ParticipantsOf(s, rd.id)), price, s.cfg);
  }

  lemma RoundDivides(b: Book, startLedgers: map<nat, nat>, last: nat, rd: Round, users: seq<Address>, price: nat, cfg: Config)
    requires StakesOk(b) && RoundOk(b, startLedgers, last, rd) && Members(b, rd.id, users) && ValidConfig(cfg) && rd.mode.Precision?
    requires SettleRound(b, rd, users, price, cfg).Ok?
    ensures var st := SettleRound(b, rd, users, price, cfg).value; Divided(b, cfg, rd.id, st.fee, st.outcomes)
  {
    PotIsRecorded(b, startLedgers, last, rd, users);
    var es := PrecisionEntries(b, rd.id, users);
    RevealedIsOpen(b, rd.id, users);
    if j :| 0 <= j < |es| && es[j].revealed {
      SomebodyDivides(es, price, cfg, j);
    } else {
      NobodyDivides(es, price, cfg);
    }
  }

  lemma RevealedIsOpen(b: Book, round: nat, users: seq<Address>)
    requires Members(b, round, users)
    ensures (exists j :: 0 <= j < |users| && PrecisionEntries(b, round, users)[j].revealed)
       <==> exists u: Address :: Key(round, u) in b.predictions
  {
    if u: Address :| Key(round, u) in b.predictions {
      assert InBook(b, Key(round, u));
      var j :| 0 <= j < |users| && users[j] == u;
      assert PrecisionEntries(b, round, users)[j].revealed;
    }
  }
}
