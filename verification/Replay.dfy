/** The offline replay engine (replay-engine/src): a round's transcript determines the result
    that was settled live. */
module Replay {
  import opened Types
  import opened Arith
  import opened Sums
  import opened Fees
  import opened Engine
  import opened Ledger
  import opened Books
  import opened Invariants
  import opened SettlementMath
  import opened Agreement

  // ----- transcripts -----

  const SCHEMA_VERSION: nat := 1

  datatype Terminal = ByResolve | ByCancel | ByVoid | ByFallback

  datatype Participant = Participant(index: nat, amount: int, sideUp: Option<bool>, revealed: bool, price: nat)

  datatype Row = Row(index: nat, payout: int, kind: OutcomeKind)

  datatype Outcome = Outcome(status: ArchiveStatus, fee: int, rows: seq<Row>)

  datatype Transcript = Transcript(
    version: nat, roundId: nat, mode: RoundMode, terminal: Terminal,
    priceStart: nat, finalPrice: nat, poolUp: int, poolDown: int,
    feeBps: Option<nat>, minParticipants: Option<nat>, count: nat, oracleRound: nat,
    participants: seq<Participant>, expected: Outcome)

  datatype ReplayError =
    | UnsupportedSchema(version: nat) | EmptyParticipants
    | ParticipantOrder(expected: nat, found: nat) | CountMismatch(declared: nat, actual: nat)
    | OracleRoundMismatch(transcript: nat, oracle: nat) | SettlementError(error: Error)

  datatype Replayed = Done(outcome: Outcome) | Failed(error: ReplayError)

  // ----- schema -----

  /** Position of the first participant whose index is not its position. */
  function Misplaced(ps: seq<Participant>, from: nat): (at: Option<nat>)
    requires from <= |ps|
    ensures at.Some? ==> from <= at.value < |ps|
    decreases |ps| - from
  {
    if from == |ps| then None
    else if ps[from].index != from then Some(from)
    else Misplaced(ps, from + 1)
  }

  function SchemaError(t: Transcript): Option<ReplayError> {
    if t.version != SCHEMA_VERSION then Some(UnsupportedSchema(t.version))
    else if t.participants == [] then Some(EmptyParticipants)
    else
      var at := Misplaced(t.participants, 0);
      if at.Some? then Some(ParticipantOrder(at.value, t.participants[at.value].index))
      else if t.count != |t.participants| then Some(CountMismatch(t.count, |t.participants|))
      else None
  }

  /** `validate_schema` */
  method ValidateSchema(t: Transcript) returns (e: Option<ReplayError>)
    ensures e == SchemaError(t)
  {
    if t.version != SCHEMA_VERSION {
      return Some(UnsupportedSchema(t.version));
    }
    if t.participants == [] {
      return Some(EmptyParticipants);
    }
    for i := 0 to |t.participants|
      invariant Misplaced(t.participants, 0) == Misplaced(t.participants, i)
    {
      if t.participants[i].index != i {
        return Some(ParticipantOrder(i, t.participants[i].index));
      }
    }
    if t.count != |t.participants| {
      return Some(CountMismatch(t.count, |t.participants|));
    }
    return None;
  }

  /** A transcript passes exactly when it is of this version, lists somebody, counts them
      right, and every participant carries its own position. */
  lemma {:induction false} SchemaAccepts(t: Transcript)
    ensures SchemaError(t).None? <==>
              && t.version == SCHEMA_VERSION && t.participants != [] && t.count == |t.participants|
              && forall i :: 0 <= i < |t.participants| ==> t.participants[i].index == i
  {
    NobodyMisplaced(t.participants, 0);
  }

  lemma {:induction false} NobodyMisplaced(ps: seq<Participant>, from: nat)
    requires from <= |ps|
    ensures Misplaced(ps, from).None? <==> forall i :: from <= i < |ps| ==> ps[i].index == i
    decreases |ps| - from
  {
    if from < |ps| { NobodyMisplaced(ps, from + 1); }
  }

  // ----- canonical order -----

  /** Stable insertion: behind every participant with the same or a lower index. */
  function InsertByIndex(p: Participant, ps: seq<Participant>): seq<Participant> {
    if ps == [] then [p]
    else if p.index < ps[0].index then [p] + ps
    else [ps[0]] + InsertByIndex(p, ps[1..])
  }

  function SortByIndex(ps: seq<Participant>): seq<Participant> {
    if ps == [] then [] else InsertByIndex(ps[|ps| - 1], SortByIndex(ps[..|ps| - 1]))
  }

  /** `canonicalize_participants` */
  function Canonicalize(t: Transcript): Transcript {
    var ps := SortByIndex(t.participants);
    t.(participants := ps, count := |ps|)
  }

  function IndicesOf(ps: seq<Participant>): seq<nat> {
    seq(|ps|, i requires 0 <= i < |ps| => ps[i].index)
  }

  function UpTo(n: nat): seq<nat> {
    seq(n, i requires 0 <= i < n => i)
  }

  lemma {:induction false} InsertSortsIndices(p: Participant, ps: seq<Participant>)
    ensures IndicesOf(InsertByIndex(p, ps)) == Insert(p.index, IndicesOf(ps))
  {
    if ps != [] && p.index >= ps[0].index {
      InsertSortsIndices(p, ps[1..]);
      assert IndicesOf(ps)[1..] == IndicesOf(ps[1..]);
    }
  }

  lemma {:induction false} SortSortsIndices(ps: seq<Participant>)
    ensures IndicesOf(SortByIndex(ps)) == Sort(IndicesOf(ps))
    ensures |SortByIndex(ps)| == |ps|
  {
    if ps != [] {
      var n := |ps| - 1;
      SortSortsIndices(ps[..n]);
      InsertSortsIndices(ps[n], SortByIndex(ps[..n]));
      assert IndicesOf(ps)[..n] == IndicesOf(ps[..n]);
    }
    SortSorts(IndicesOf(ps));
    assert |IndicesOf(SortByIndex(ps))| == |SortByIndex(ps)|;
  }

  /** A canonicalized transcript passes exactly when the indices of its participants are 0, 1,
      ... in whatever order they were recorded. */
  lemma CanonicalPasses(t: Transcript)
    ensures SchemaError(Canonicalize(t)).None? <==>
              && t.version == SCHEMA_VERSION && t.participants != []
              && multiset(IndicesOf(t.participants)) == multiset(UpTo(|t.participants|))
  {
    var c, n := Canonicalize(t), |t.participants|;
    SchemaAccepts(c);
    SortSortsIndices(t.participants);
    SortSorts(IndicesOf(t.participants));
    if multiset(IndicesOf(t.participants)) == multiset(UpTo(n)) {
      AscendingUnique(Sort(IndicesOf(t.participants)), UpTo(n));
      assert forall i :: 0 <= i < n ==> c.participants[i].index == IndicesOf(c.participants)[i];
    }
    if forall i :: 0 <= i < n ==> c.participants[i].index == i {
      assert IndicesOf(c.participants) == UpTo(n);
    }
  }

  // ----- replay -----

  function Refunds(ps: seq<Participant>, kind: OutcomeKind): seq<Row> {
    seq(|ps|, i requires 0 <= i < |ps| => Row(ps[i].index, ps[i].amount, kind))
  }

  /** `replay_full_refund` */
  function ReplayFullRefund(t: Transcript, status: ArchiveStatus, kind: OutcomeKind): Replayed {
    Done(Outcome(status, 0, Refunds(t.participants, kind)))
  }

  function UpDownRows(entries: seq<UpDownPayoutEntry>): seq<Row> {
    seq(|entries|, i requires 0 <= i < |entries| =>
      Row(entries[i].index, entries[i].payout, KindOf(entries[i].isWinner, entries[i].isRefund)))
  }

  function PrecisionRows(entries: seq<PrecisionPayoutEntry>): seq<Row> {
    seq(|entries|, i requires 0 <= i < |entries| =>
      Row(entries[i].index, entries[i].payout, KindOf(entries[i].isWinner, entries[i].isRefund)))
  }

  function AsPositions(ps: seq<Participant>): seq<UpDownPosition> {
    seq(|ps|, i requires 0 <= i < |ps| =>
      UpDownPosition(ps[i].index, ps[i].amount, if ps[i].sideUp.Some? then ps[i].sideUp.value else true))
  }

  function AsEntries(ps: seq<Participant>): seq<PrecisionEntry> {
    seq(|ps|, i requires 0 <= i < |ps| => PrecisionEntry(ps[i].index, ps[i].price, ps[i].amount, ps[i].revealed))
  }

  function AtLeastZero(x: int): int {
    if x > 0 then x else 0
  }

  /** The fee is recomputed from the pools; if that fails it is taken to be nothing. */
  function UpDownReplayFee(poolUp: int, poolDown: int, bps: Option<nat>): int {
    var split := UpDownFee(FeeTerms(bps, FeeOnPot), AtLeastZero(poolUp), AtLeastZero(poolDown));
    if split.Ok? then split.value.fee else 0
  }

  /** `replay_resolve` */
  function ReplayResolve(t: Transcript): Replayed {
    match t.mode
    case UpDown =>
      var entries := PureUpDown(AsPositions(t.participants), t.priceStart, t.finalPrice, t.poolUp, t.poolDown, t.feeBps);
      if entries.Err? then Failed(SettlementError(entries.error))
      else
        var allRefund := forall i | 0 <= i < |entries.value| :: entries.value[i].isRefund;
        Done(Outcome(Resolved, if allRefund then 0 else UpDownReplayFee(t.poolUp, t.poolDown, t.feeBps), UpDownRows(entries.value)))
    case Precision =>
      var list := AsEntries(t.participants);
      var pot := CheckedSum(EntryAmounts(list));
      if pot.Err? then Failed(SettlementError(Panicked))
      else
        var fee := PurePrecisionFee(pot.value, t.feeBps);
        var entries := PurePrecision(list, t.finalPrice, t.feeBps, DEFAULT_SCORING, Equal);
        if entries.Err? then Failed(SettlementError(entries.error))
        else
          var allRefund := forall i | 0 <= i < |entries.value| :: entries.value[i].isRefund;
          Done(Outcome(Resolved, if allRefund || fee.Err? then 0 else fee.value.fee, PrecisionRows(entries.value)))
  }

  /** `replay_round` */
  function ReplayRound(t: Transcript): Replayed {
    var e := SchemaError(t);
    if e.Some? then Failed(e.value)
    else if t.oracleRound != t.roundId then Failed(OracleRoundMismatch(t.roundId, t.oracleRound))
    else
      match t.terminal
      case ByCancel => ReplayFullRefund(t, Cancelled, Void)
      case ByVoid => ReplayFullRefund(t, Voided, Void)
      case ByFallback => ReplayFullRefund(t, FallbackRefund, Refund)
      case ByResolve =>
        if t.minParticipants.Some? && t.count < t.minParticipants.value then ReplayFullRefund(t, FallbackRefund, Refund)
        else ReplayResolve(t)
  }

  // ----- the transcript of a live round -----

  function UpDownParticipants(es: seq<UpDownStake>): seq<Participant> {
    seq(|es|, i requires 0 <= i < |es| => Participant(i, es[i].amount, Some(es[i].side.Up?), false, 0))
  }

  function PrecisionParticipants(es: seq<PrecisionStake>): seq<Participant> {
    seq(|es|, i requires 0 <= i < |es| => Participant(i, es[i].amount, None, es[i].revealed, es[i].price))
  }

  function ParticipantRows(b: Book, rd: Round, users: seq<Address>): seq<Participant> {
    if rd.mode.UpDown? then UpDownParticipants(UpDownEntries(b, rd.id, users))
    else PrecisionParticipants(PrecisionEntries(b, rd.id, users))
  }

  function TranscriptAt(b: Book, rd: Round, users: seq<Address>, cfg: Config, terminal: Terminal, price: nat, expected: Outcome): Transcript {
    var ps := ParticipantRows(b, rd, users);
    Transcript(SCHEMA_VERSION, rd.id, rd.mode, terminal, rd.priceStart, price, rd.poolUp, rd.poolDown,
               cfg.feeBps, cfg.minParticipants, |ps|, rd.id, ps, expected)
  }

  /** The transcript of a live round, with participants by ascending address. */
  function TranscriptOf(s: State, rd: Round, terminal: Terminal, price: nat, expected: Outcome): Transcript {
    TranscriptAt(s.book, rd, Sort(ParticipantsOf(s, rd.id)), s.cfg, terminal, price, expected)
  }

  /** What the ledger records, listed by ascending address. */
  function OutcomeRows(outcomes: seq<UserRoundOutcome>): seq<Row> {
    seq(|outcomes|, i requires 0 <= i < |outcomes| => Row(i, outcomes[i].payout, outcomes[i].kind))
  }

  function LiveOutcome(st: Settlement): Outcome {
    Outcome(Resolved, st.fee, OutcomeRows(st.outcomes))
  }

  /** Row `i` of the transcript is participant `i` with the recorded stake, and the rows are
      what the pure module settles. */
  ghost predicate RowsAre(b: Book, rd: Round, users: seq<Address>, ps: seq<Participant>) {
    && |ps| == |users|
    && (forall i :: 0 <= i < |ps| ==> ps[i].index == i && ps[i].amount == StakeAt(b, Key(rd.id, users[i])))
    && (rd.mode.UpDown? ==> AsPositions(ps) == Positions(UpDownEntries(b, rd.id, users)))
    && (rd.mode.Precision? ==> AsEntries(ps) == Entries(PrecisionEntries(b, rd.id, users)))
  }

  lemma UpDownRowsAre(b: Book, rd: Round, users: seq<Address>)
    requires rd.mode.UpDown? && forall u :: u in users ==> Key(rd.id, u) in b.positions
    ensures RowsAre(b, rd, users, ParticipantRows(b, rd, users))
  {
    EntriesAligned(b, rd.id, users);
  }

  lemma PrecisionRowsAre(b: Book, rd: Round, users: seq<Address>)
    requires rd.mode.Precision? && forall u :: u in users ==> Key(rd.id, u) !in b.positions
    ensures RowsAre(b, rd, users, ParticipantRows(b, rd, users))
  {
    forall i | 0 <= i < |users|
      ensures Ledger.PrecisionEntry(b, rd.id, users[i]).amount == StakeAt(b, Key(rd.id, users[i]))
    {
      assert users[i] in users;
    }
  }

  lemma LiveRows(s: State, rd: Round)
    requires Inv(s) && IsLive(s, rd)
    ensures var users := Sort(ParticipantsOf(s, rd.id));
            && |users| == |ParticipantsOf(s, rd.id)|
            && RowsAre(s.book, rd, users, ParticipantRows(s.book, rd, users))
            && (rd.mode.UpDown? ==>
                  && |UpDownEntries(s.book, rd.id, users)| == |users|
                  && UpDownBooked(UpDownEntries(s.book, rd.id, users), rd.poolUp, rd.poolDown))
            && (rd.mode.Precision? ==> PositivePrecision(PrecisionEntries(s.book, rd.id, users)))
  {
    ParticipantsAre(s, rd.id);
    MembersSorted(s.book, rd.id, ParticipantsOf(s, rd.id));
    RoundRows(s.book, s.startLedgers, s.lastRoundId, rd, Sort(ParticipantsOf(s, rd.id)));
  }

  lemma RoundRows(b: Book, startLedgers: map<nat, nat>, last: nat, rd: Round, users: seq<Address>)
    requires StakesOk(b) && RoundOk(b, startLedgers, last, rd) && Members(b, rd.id, users)
    ensures RowsAre(b, rd, users, ParticipantRows(b, rd, users))
    ensures rd.mode.UpDown? ==>
              && |UpDownEntries(b, rd.id, users)| == |users|
              && UpDownBooked(UpDownEntries(b, rd.id, users), rd.poolUp, rd.poolDown)
    ensures rd.mode.Precision? ==> PositivePrecision(PrecisionEntries(b, rd.id, users))
  {
    PotIsRecorded(b, startLedgers, last, rd, users);
    if rd.mode.UpDown? { UpDownRowsAre(b, rd, users); } else { PrecisionRowsAre(b, rd, users); }
  }

  // ----- replay refines live settlement -----

  /** The fee does not depend on which side won. */
  lemma FeeOnPotIsSymmetric(w: int, l: int, bps: Option<nat>)
    requires ValidFeeBps(bps) && w >= 0 && l >= 0 && UpDownFee(FeeTerms(bps, FeeOnPot), w, l).Ok?
    ensures UpDownFee(FeeTerms(bps, FeeOnPot), l, w).Ok?
    ensures UpDownFee(FeeTerms(bps, FeeOnPot), l, w).value.fee == UpDownFee(FeeTerms(bps, FeeOnPot), w, l).value.fee
  {
    if bps.Some? { TenthBound(w + l, bps.value); }
  }

  lemma UpDownReplays(es: seq<UpDownStake>, start: nat, price: nat, poolUp: int, poolDown: int, bps: Option<nat>)
    requires es != [] && UpDownBooked(es, poolUp, poolDown) && ValidFeeBps(bps)
    ensures var live := SettleUpDown(es, start, price, poolUp, poolDown, FeeTerms(bps, FeeOnPot));
            var pure := PureUpDown(Positions(es), start, price, poolUp, poolDown, bps);
            && (live.Ok? <==> pure.Ok?)
            && (live.Ok? ==>
                  && UpDownRows(pure.value) == OutcomeRows(live.value.outcomes)
                  && live.value.fee == if forall i :: 0 <= i < |pure.value| ==> pure.value[i].isRefund
                                       then 0 else UpDownReplayFee(poolUp, poolDown, bps))
  {
    UpDownAgrees(es, start, price, poolUp, poolDown, bps);
    BookedPools(es, poolUp, poolDown);
    var live := SettleUpDown(es, start, price, poolUp, poolDown, FeeTerms(bps, FeeOnPot));
    var pure := PureUpDown(Positions(es), start, price, poolUp, poolDown, bps);
    if live.Ok? {
      if OneSided(poolUp, poolDown) || price == start {
        assert forall i :: 0 <= i < |pure.value| ==> pure.value[i].isRefund;
      } else {
        assert !pure.value[0].isRefund;
        if price < start { FeeOnPotIsSymmetric(poolDown, poolUp, bps); }
      }
    }
  }

  lemma PrecisionReplays(es: seq<PrecisionStake>, price: nat, bps: Option<nat>)
    requires es != [] && PositivePrecision(es) && ValidFeeBps(bps) && Sum(PrecisionAmounts(es)) <= I128_MAX
    ensures var live := SettlePrecision(es, price, FeeTerms(bps, FeeOnPot), Equal);
            var pure := PurePrecision(Entries(es), price, bps, DEFAULT_SCORING, Equal);
            var fee := PurePrecisionFee(Sum(PrecisionAmounts(es)), bps);
            && CheckedSum(EntryAmounts(Entries(es))) == Ok(Sum(PrecisionAmounts(es)))
            && (live.Ok? <==> pure.Ok?)
            && (live.Ok? ==>
                  && PrecisionRows(pure.value) == OutcomeRows(live.value.outcomes)
                  && live.value.fee == if fee.Err? || forall i :: 0 <= i < |pure.value| ==> pure.value[i].isRefund
                                       then 0 else fee.value.fee)
  {
    PrecisionAgrees(es, price, bps, Equal);
    var amounts := PrecisionAmounts(es);
    assert EntryAmounts(Entries(es)) == amounts;
    CheckedSumIs(amounts);
    SumNonNegative(amounts);
    assert amounts[0] > 0;
    WinnersInRange(es, price);
    var w := Winners(es, price);
    PrecisionFeeAgrees(Sum(amounts), bps, Sum(AmountsAt(es, w)));
    CheckedSumIs(AmountsAt(es, w));
    var live := SettlePrecision(es, price, FeeTerms(bps, FeeOnPot), Equal);
    var pure := PurePrecision(Entries(es), price, bps, DEFAULT_SCORING, Equal);
    if live.Ok? && w != [] {
      RankAtFirst(es, price, pure.value);
    }
  }

  /** A round with a winner is not all refunds. */
  lemma RankAtFirst(es: seq<PrecisionStake>, price: nat, rows: seq<PrecisionPayoutEntry>)
    requires Winners(es, price) != []
    requires exists pays :: SamePrecision(rows, Prizes(es, price, pays))
    ensures exists i :: 0 <= i < |rows| && !rows[i].isRefund
  {
    var pays :| SamePrecision(rows, Prizes(es, price, pays));
    WinnersInRange(es, price);
    var i := Winners(es, price)[0];
    assert rows[i].payout == Prizes(es, price, pays)[i].payout;
  }

  /** Replay of a round settled on a price under FeeOnPot and equal payouts: it succeeds
      exactly when the live payouts can be computed, and then returns the live fee, the live
      payouts and the live classification of every participant, in address order. */
  lemma ReplayIsLive(s: State, rd: Round, price: nat, expected: Outcome)
    requires Inv(s) && IsLive(s, rd) && ParticipantsOf(s, rd.id) != []
    requires s.cfg.feeModel.FeeOnPot? && s.cfg.policy.Equal? && Pot(s.book, rd, Sort(ParticipantsOf(s, rd.id))) <= I128_MAX
    requires s.cfg.minParticipants.Some? ==> |ParticipantsOf(s, rd.id)| >= s.cfg.minParticipants.value
    ensures var live := SettleRound(s.book, rd, Sort(ParticipantsOf(s, rd.id)), price, s.cfg);
            var replayed := ReplayRound(TranscriptOf(s, rd, ByResolve, price, expected));
            && (live.Ok? ==> replayed == Done(LiveOutcome(live.value)))
            && (live.Err? ==> replayed.Failed? && replayed.error.SettlementError?)
  {
    LiveRows(s, rd);
    ReplaySettles(s.book, rd, Sort(ParticipantsOf(s, rd.id)), s.cfg, price, expected);
  }

  lemma ReplaySettles(b: Book, rd: Round, users: seq<Address>, cfg: Config, price: nat, expected: Outcome)
    requires RowsAre(b, rd, users, ParticipantRows(b, rd, users)) && users != []
    requires rd.mode.UpDown? ==> |UpDownEntries(b, rd.id, users)| == |users| && UpDownBooked(UpDownEntries(b, rd.id, users), rd.poolUp, rd.poolDown)
    requires rd.mode.Precision? ==> PositivePrecision(PrecisionEntries(b, rd.id, users))
    requires ValidConfig(cfg) && cfg.feeModel.FeeOnPot? && cfg.policy.Equal? && Pot(b, rd, users) <= I128_MAX
    requires cfg.minParticipants.Some? ==> |users| >= cfg.minParticipants.value
    ensures var live := SettleRound(b, rd, users, price, cfg);
            var replayed := ReplayRound(TranscriptAt(b, rd, users, cfg, ByResolve, price, expected));
            && (live.Ok? ==> replayed == Done(LiveOutcome(live.value)))
            && (live.Err? ==> replayed.Failed? && replayed.error.SettlementError?)
  {
    SchemaAccepts(TranscriptAt(b, rd, users, cfg, ByResolve, price, expected));
    if rd.mode.UpDown? {
      UpDownReplays(UpDownEntries(b, rd.id, users), rd.priceStart, price, rd.poolUp, rd.poolDown, cfg.feeBps);
    } else {
      PrecisionReplays(PrecisionEntries(b, rd.id, users), price, cfg.feeBps);
    }
  }

  /** Replay of a round that was cancelled, voided, or fell short of participants: no fee,
      and everybody gets the recorded stake back, as the ledger records it. */
  lemma ReplayedRefundIsLive(s: State, rd: Round, terminal: Terminal, price: nat, expected: Outcome)
    requires Inv(s) && IsLive(s, rd) && ParticipantsOf(s, rd.id) != []
    requires terminal.ByResolve? ==> s.cfg.minParticipants.Some? && |ParticipantsOf(s, rd.id)| < s.cfg.minParticipants.value
    ensures ReplayRound(TranscriptOf(s, rd, terminal, price, expected))
         == Done(StakesBack(s.book, rd, Sort(ParticipantsOf(s, rd.id)), StatusOf(terminal), KindAfter(terminal)))
    ensures forall showPrice :: AlignedReturns(s.book, rd.id, ParticipantsOf(s, rd.id), KindAfter(terminal),
                                               Returns(s.book, rd, ParticipantsOf(s, rd.id), KindAfter(terminal), showPrice))
  {
    LiveRows(s, rd);
    ReplayRefunds(s.book, rd, Sort(ParticipantsOf(s, rd.id)), s.cfg, terminal, price, expected);
    LiveReturns(s, rd, KindAfter(terminal));
  }

  /** A round that ends without a settlement on a price. */
  function StatusOf(terminal: Terminal): ArchiveStatus {
    match terminal
    case ByCancel => Cancelled
    case ByVoid => Voided
    case _ => FallbackRefund
  }

  function KindAfter(terminal: Terminal): OutcomeKind {
    if terminal.ByCancel? || terminal.ByVoid? then Void else Refund
  }

  function StakesBack(b: Book, rd: Round, users: seq<Address>, status: ArchiveStatus, kind: OutcomeKind): Outcome {
    Outcome(status, 0, seq(|users|, i requires 0 <= i < |users| => Row(i, StakeAt(b, Key(rd.id, users[i])), kind)))
  }

  lemma ReplayRefunds(b: Book, rd: Round, users: seq<Address>, cfg: Config, terminal: Terminal, price: nat, expected: Outcome)
    requires RowsAre(b, rd, users, ParticipantRows(b, rd, users)) && users != []
    requires terminal.ByResolve? ==> cfg.minParticipants.Some? && |users| < cfg.minParticipants.value
    ensures ReplayRound(TranscriptAt(b, rd, users, cfg, terminal, price, expected))
         == Done(StakesBack(b, rd, users, StatusOf(terminal), KindAfter(terminal)))
  {
    SchemaAccepts(TranscriptAt(b, rd, users, cfg, terminal, price, expected));
  }

  lemma LiveReturns(s: State, rd: Round, kind: OutcomeKind)
    requires Inv(s) && IsLive(s, rd)
    ensures forall showPrice :: AlignedReturns(s.book, rd.id, ParticipantsOf(s, rd.id), kind,
                                               Returns(s.book, rd, ParticipantsOf(s, rd.id), kind, showPrice))
  {
    ParticipantsAre(s, rd.id);
    forall showPrice {
      ReturnsAligned(s.book, s.startLedgers, s.lastRoundId, rd, ParticipantsOf(s, rd.id), kind, showPrice);
    }
  }

  // ----- the other fee model -----

  /** The rate takes the same from the pot as from the part of it that was lost. */
  predicate FeesAgree(bps: Option<nat>, pot: int, lost: int) {
    bps.None? || Bps(pot, bps.value) == Bps(lost, bps.value)
  }

  /** Whether charging the whole pot and charging only the losing stakes come to the same for
      a round: nobody wins it, or the two fees are equal. */
  predicate FeeModelsAgree(b: Book, rd: Round, users: seq<Address>, price: nat, bps: Option<nat>) {
    if rd.mode.UpDown? then
      Competitive(rd, price) ==> FeesAgree(bps, rd.poolUp + rd.poolDown, if price > rd.priceStart then rd.poolDown else rd.poolUp)
    else
      var es := PrecisionEntries(b, rd.id, users);
      WinnersInRange(es, price);
      Winners(es, price) != [] ==>
        FeesAgree(bps, Sum(PrecisionAmounts(es)), Sum(PrecisionAmounts(es)) - Sum(AmountsAt(es, Winners(es, price))))
  }

  /** Replay always charges the whole pot. For a round settled under FeeOnWinnings and equal
      payouts, Up/Down or Precision, it returns what the ledger records exactly when nobody
      wins or the two fees are equal. */
  lemma ReplayUnderFeeOnWinnings(s: State, rd: Round, price: nat, expected: Outcome)
    requires Inv(s) && IsLive(s, rd) && ParticipantsOf(s, rd.id) != []
    requires s.cfg.feeModel.FeeOnWinnings? && s.cfg.policy.Equal? && Pot(s.book, rd, Sort(ParticipantsOf(s, rd.id))) < MAX_POT
    requires s.cfg.minParticipants.Some? ==> |ParticipantsOf(s, rd.id)| >= s.cfg.minParticipants.value
    ensures var users := Sort(ParticipantsOf(s, rd.id));
            var live := SettleRound(s.book, rd, users, price, s.cfg);
            && live.Ok?
            && (ReplayRound(TranscriptOf(s, rd, ByResolve, price, expected)) == Done(LiveOutcome(live.value))
                <==> FeeModelsAgree(s.book, rd, users, price, s.cfg.feeBps))
  {
    LiveRows(s, rd);
    ReplayChargesThePot(s.book, rd, Sort(ParticipantsOf(s, rd.id)), s.cfg, price, expected);
  }

  lemma ReplayChargesThePot(b: Book, rd: Round, users: seq<Address>, cfg: Config, price: nat, expected: Outcome)
    requires RowsAre(b, rd, users, ParticipantRows(b, rd, users)) && users != []
    requires rd.mode.UpDown? ==> |UpDownEntries(b, rd.id, users)| == |users| && UpDownBooked(UpDownEntries(b, rd.id, users), rd.poolUp, rd.poolDown)
    requires rd.mode.Precision? ==> PositivePrecision(PrecisionEntries(b, rd.id, users))
    requires ValidConfig(cfg) && cfg.feeModel.FeeOnWinnings? && cfg.policy.Equal? && Pot(b, rd, users) < MAX_POT
    requires cfg.minParticipants.Some? ==> |users| >= cfg.minParticipants.value
    ensures var live := SettleRound(b, rd, users, price, cfg);
            && live.Ok?
            && (ReplayRound(TranscriptAt(b, rd, users, cfg, ByResolve, price, expected)) == Done(LiveOutcome(live.value))
                <==> FeeModelsAgree(b, rd, users, price, cfg.feeBps))
  {
    var onPot := cfg.(feeModel := FeeOnPot);
    ReplaySettles(b, rd, users, onPot, price, expected);
    assert TranscriptAt(b, rd, users, onPot, ByResolve, price, expected) == TranscriptAt(b, rd, users, cfg, ByResolve, price, expected);
    RoundUnderBothModels(b, rd, users, cfg, price);
  }

  lemma RoundUnderBothModels(b: Book, rd: Round, users: seq<Address>, cfg: Config, price: nat)
    requires ValidFeeBps(cfg.feeBps) && cfg.feeModel.FeeOnWinnings? && cfg.policy.Equal? && Pot(b, rd, users) < MAX_POT && users != []
    requires rd.mode.UpDown? ==> |UpDownEntries(b, rd.id, users)| == |users| && UpDownBooked(UpDownEntries(b, rd.id, users), rd.poolUp, rd.poolDown)
    requires rd.mode.Precision? ==> PositivePrecision(PrecisionEntries(b, rd.id, users))
    ensures SameIff(SettleRound(b, rd, users, price, cfg.(feeModel := FeeOnPot)), SettleRound(b, rd, users, price, cfg),
                    FeeModelsAgree(b, rd, users, price, cfg.feeBps))
  {
    if rd.mode.UpDown? {
      UpDownUnderBothModels(UpDownEntries(b, rd.id, users), rd, price, cfg.feeBps);
    } else {
      PrecisionUnderBothModels(PrecisionEntries(b, rd.id, users), price, cfg.feeBps);
    }
  }

  /** Two settlements are the same when their fees are, and their fees are the same exactly when
      `agree` holds. */
  ghost predicate SameIff(a: Result<Settlement>, b: Result<Settlement>, agree: bool) {
    && a.Ok? && b.Ok?
    && (agree ==> a == b)
    && (!agree ==> a.value.fee != b.value.fee)
  }

  lemma UpDownUnderBothModels(es: seq<UpDownStake>, rd: Round, price: nat, bps: Option<nat>)
    requires es != [] && rd.mode.UpDown? && UpDownBooked(es, rd.poolUp, rd.poolDown) && ValidFeeBps(bps)
    requires rd.poolUp + rd.poolDown < MAX_POT
    ensures SameIff(SettleUpDown(es, rd.priceStart, price, rd.poolUp, rd.poolDown, FeeTerms(bps, FeeOnPot)),
                    SettleUpDown(es, rd.priceStart, price, rd.poolUp, rd.poolDown, FeeTerms(bps, FeeOnWinnings)),
                    Competitive(rd, price) ==>
                      FeesAgree(bps, rd.poolUp + rd.poolDown, if price > rd.priceStart then rd.poolDown else rd.poolUp))
  {
    BookedPools(es, rd.poolUp, rd.poolDown);
    Engine.UpDownFits(es, rd.priceStart, price, rd.poolUp, rd.poolDown, FeeTerms(bps, FeeOnPot));
    Engine.UpDownFits(es, rd.priceStart, price, rd.poolUp, rd.poolDown, FeeTerms(bps, FeeOnWinnings));
    if Competitive(rd, price) {
      if price > rd.priceStart {
        CompetitionUnderBothModels(es, Up, rd.poolUp, rd.poolDown, bps);
      } else {
        CompetitionUnderBothModels(es, Down, rd.poolDown, rd.poolUp, bps);
      }
    }
  }

  /** The payouts depend on the fee only, not on how it was worked out. */
  lemma CompetitionUnderBothModels(es: seq<UpDownStake>, side: BetSide, w: int, l: int, bps: Option<nat>)
    requires ValidFeeBps(bps) && w > 0 && l > 0 && w + l < MAX_POT
    requires SettleCompetition(es, side, w, l, FeeTerms(bps, FeeOnPot)).Ok?
    requires SettleCompetition(es, side, w, l, FeeTerms(bps, FeeOnWinnings)).Ok?
    ensures SameIff(SettleCompetition(es, side, w, l, FeeTerms(bps, FeeOnPot)),
                    SettleCompetition(es, side, w, l, FeeTerms(bps, FeeOnWinnings)), FeesAgree(bps, w + l, l))
  {
    FeeAmounts(w, l, bps);
  }

  lemma PrecisionUnderBothModels(es: seq<PrecisionStake>, price: nat, bps: Option<nat>)
    requires PositivePrecision(es) && ValidFeeBps(bps) && Sum(PrecisionAmounts(es)) < MAX_POT
    ensures (forall j :: 0 <= j < |Winners(es, price)| ==> Winners(es, price)[j] < |es|)
    ensures SameIff(SettlePrecision(es, price, FeeTerms(bps, FeeOnPot), Equal),
                    SettlePrecision(es, price, FeeTerms(bps, FeeOnWinnings), Equal),
                    Winners(es, price) != [] ==>
                      FeesAgree(bps, Sum(PrecisionAmounts(es)), Sum(PrecisionAmounts(es)) - Sum(AmountsAt(es, Winners(es, price)))))
  {
    WinnerStakesBelowPot(es, price);
    Engine.PrecisionFits(es, price, FeeTerms(bps, FeeOnPot), Equal);
    Engine.PrecisionFits(es, price, FeeTerms(bps, FeeOnWinnings), Equal);
    if Winners(es, price) == [] {
      NobodyClosestConserves(es, price, FeeTerms(bps, FeeOnPot), Equal);
      NobodyClosestConserves(es, price, FeeTerms(bps, FeeOnWinnings), Equal);
    } else {
      var amounts, stakes := PrecisionAmounts(es), AmountsAt(es, Winners(es, price));
      SumNonNegative(amounts);
      assert amounts[Winners(es, price)[0]] > 0;
      CheckedSumIs(amounts);
      CheckedSumIs(stakes);
      PotFeeAmounts(Sum(amounts), Sum(stakes), bps);
    }
  }

  lemma PotFeeAmounts(pot: int, won: int, bps: Option<nat>)
    requires ValidFeeBps(bps) && 0 <= won <= pot && 0 < pot < MAX_POT
    ensures var a, b := PrecisionFee(FeeTerms(bps, FeeOnPot), pot, won), PrecisionFee(FeeTerms(bps, FeeOnWinnings), pot, won);
            && a.Ok? && a.value.distributable == pot - a.value.fee
            && a.value.fee == (if bps.None? then 0 else Bps(pot, bps.value))
            && b.Ok? && b.value.distributable == pot - b.value.fee
            && b.value.fee == (if bps.None? then 0 else Bps(pot - won, bps.value))
  {
    FeesFit(FeeTerms(bps, FeeOnPot), won, pot - won);
    FeesFit(FeeTerms(bps, FeeOnWinnings), won, pot - won);
    PrecisionFeeConserves(FeeTerms(bps, FeeOnPot), pot, won);
    PrecisionFeeConserves(FeeTerms(bps, FeeOnWinnings), pot, won);
  }

  lemma FeeAmounts(w: int, l: int, bps: Option<nat>)
    requires ValidFeeBps(bps) && w > 0 && l > 0 && w + l < MAX_POT
    ensures var a, b := UpDownFee(FeeTerms(bps, FeeOnPot), w, l), UpDownFee(FeeTerms(bps, FeeOnWinnings), w, l);
            && a.Ok? && a.value.winning + a.value.losing + a.value.fee == w + l
            && a.value.fee == (if bps.None? then 0 else Bps(w + l, bps.value))
            && b.Ok? && b.value.winning + b.value.losing + b.value.fee == w + l
            && b.value.fee == (if bps.None? then 0 else Bps(l, bps.value))
  {
    FeesFit(FeeTerms(bps, FeeOnPot), w, l);
    FeesFit(FeeTerms(bps, FeeOnWinnings), w, l);
    UpDownFeeConserves(FeeTerms(bps, FeeOnPot), w, l);
    UpDownFeeConserves(FeeTerms(bps, FeeOnWinnings), w, l);
  }

  /** One stake of 100 on each side and a rate of ten percent: the ledger keeps 10 of the
      losing stake, replay 20 of the pot. */
  lemma ReplayMayDiffer()
    ensures var es := [UpDownStake(1, 100, Up), UpDownStake(2, 100, Down)];
            && SettleUpDown(es, 1, 2, 100, 100, FeeTerms(Some(1_000), FeeOnWinnings)).value.fee == 10
            && UpDownReplayFee(100, 100, Some(1_000)) == 20
  {
    var es := [UpDownStake(1, 100, Up), UpDownStake(2, 100, Down)];
    assert UpDownPayable(es, Up, 100, 190);
  }

  // ----- diagnostics -----

  /** The field that differs, with the recorded and the replayed value. */
  datatype Mismatch =
    | StatusDiffers(status: ArchiveStatus, statusReplayed: ArchiveStatus)
    | FeeDiffers(fee: int, feeReplayed: int)
    | LengthDiffers(length: nat, lengthReplayed: nat)
    | IndexDiffers(row: nat, indexReplayed: nat)
    | PayoutDiffers(row: nat, payout: int, payoutReplayed: int)
    | KindDiffers(row: nat, kind: OutcomeKind, kindReplayed: OutcomeKind)

  function RowMismatches(e: Row, r: Row): seq<Mismatch> {
    (if e.index != r.index then [IndexDiffers(e.index, r.index)] else [])
    + (if e.payout != r.payout then [PayoutDiffers(e.index, e.payout, r.payout)] else [])
    + (if e.kind != r.kind then [KindDiffers(e.index, e.kind, r.kind)] else [])
  }

  function RowsMismatches(e: seq<Row>, r: seq<Row>): seq<Mismatch>
    requires |e| == |r|
  {
    if e == [] then []
    else
      var n := |e| - 1;
      RowsMismatches(e[..n], r[..n]) + RowMismatches(e[n], r[n])
  }

  function HeadMismatches(e: Outcome, r: Outcome): seq<Mismatch> {
    (if e.status != r.status then [StatusDiffers(e.status, r.status)] else []) + (if e.fee != r.fee then [FeeDiffers(e.fee, r.fee)] else [])
  }

  function Mismatches(e: Outcome, r: Outcome): seq<Mismatch> {
    HeadMismatches(e, r) + if |e.rows| != |r.rows| then [LengthDiffers(|e.rows|, |r.rows|)] else RowsMismatches(e.rows, r.rows)
  }

  method CompareRow(e: Row, r: Row) returns (out: seq<Mismatch>)
    ensures out == RowMismatches(e, r)
  {
    out := [];
    if e.index != r.index {
      out := out + [IndexDiffers(e.index, r.index)];
    }
    if e.payout != r.payout {
      out := out + [PayoutDiffers(e.index, e.payout, r.payout)];
    }
    if e.kind != r.kind {
      out := out + [KindDiffers(e.index, e.kind, r.kind)];
    }
  }

  /** `compare_replay` */
  method CompareReplay(t: Transcript, replay: Outcome) returns (out: seq<Mismatch>)
    ensures out == Mismatches(t.expected, replay)
  {
    out := CompareHead(t.expected, replay);
    if |t.expected.rows| != |replay.rows| {
      return out + [LengthDiffers(|t.expected.rows|, |replay.rows|)];
    }
    var rows := CompareRows(t.expected.rows, replay.rows);
    return out + rows;
  }

  method CompareHead(e: Outcome, r: Outcome) returns (out: seq<Mismatch>)
    ensures out == HeadMismatches(e, r)
  {
    out := [];
    if e.status != r.status {
      out := out + [StatusDiffers(e.status, r.status)];
    }
    if e.fee != r.fee {
      out := out + [FeeDiffers(e.fee, r.fee)];
    }
  }

  method CompareRows(e: seq<Row>, r: seq<Row>) returns (out: seq<Mismatch>)
    requires |e| == |r|
    ensures out == RowsMismatches(e, r)
  {
    out := [];
    for i := 0 to |e|
      invariant out == RowsMismatches(e[..i], r[..i])
    {
      assert e[..i + 1][..i] == e[..i] && r[..i + 1][..i] == r[..i];
      var row := CompareRow(e[i], r[i]);
      out := out + row;
    }
    assert e[..|e|] == e && r[..|r|] == r;
  }

  lemma {:induction false} RowsMatch(e: seq<Row>, r: seq<Row>)
    requires |e| == |r|
    ensures RowsMismatches(e, r) == [] <==> e == r
  {
    if e != [] {
      var n := |e| - 1;
      RowsMatch(e[..n], r[..n]);
      assert e == e[..n] + [e[n]] && r == r[..n] + [r[n]];
    }
  }

  /** `assert_live_matches_replay` succeeds exactly when the recorded block is the replay. */
  lemma NoMismatchIff(expected: Outcome, replay: Outcome)
    ensures Mismatches(expected, replay) == [] <==> expected == replay
  {
    if |expected.rows| == |replay.rows| { RowsMatch(expected.rows, replay.rows); }
  }

  /** `assert_live_matches_replay` */
  method AssertLiveMatchesReplay(t: Transcript, replay: Outcome) returns (ok: bool, mismatches: seq<Mismatch>)
    ensures ok <==> t.expected == replay
    ensures !ok ==> mismatches != []
  {
    mismatches := CompareReplay(t, replay);
    NoMismatchIff(t.expected, replay);
    ok := mismatches == [];
  }
}
