/** A resume after the flat fee has changed: exactly when the escrow taken at the old fee covers it. */
module LateFees {
  import opened Wrappers
  import opened JsonTree
  import opened Events
  import opened Deltas
  import opened Reducer
  import opened Ports
  import opened Ledgers
  import opened LedgerStep
  import opened Conservation
  import opened Runs
  import opened Acceptance
  import opened Staging
  import V = Validator
  import Gas

  // --- the refund of a phase B, whatever its outcome ---

  /** The price of the gas that the CAL used, for all the effects it recorded. */
  function RawUsed(c: V.Context): Result<nat, Gas.GasError> {
    var bytes :- Gas.EffectsBytes(Committed(c));
    V.RawGas(c, bytes)
  }

  /** Nothing on expiry, otherwise the gas used up to the budget. */
  function Consumed(c: V.Context): nat {
    hide *;
    if c.tick > c.expiration || RawUsed(c).Err? then 0 else Gas.Min(RawUsed(c).value, c.maxGas)
  }

  predicate BillsConsumed(c: V.Context, bill: Gas.GasBill) {
    bill.dynamicGasConsumed == Consumed(c) && bill.gasRefunded == c.maxGas - Consumed(c)
  }

  lemma ExecFailBill(c: V.Context, before: seq<Event>, reason: V.Reason)
    requires hide *; c.maxGas == Gas.MaxGas(c.cal, Gas.FlatFee(c.snapshot)) && c.tick <= c.expiration
    ensures var r := V.ExecFail(c, before, reason, Committed(c));
      r.Ok? ==> RawUsed(c).Ok? && BillsConsumed(c, r.value.bill)
  {
    hide Gas.EffectsBytes; hide Gas.GasUnits; hide V.FailedNotes; hide Committed; hide Gas.MaxGas; hide Gas.FlatFee;
    hide Gas.ToNano; hide Gas.GasPrice; hide Gas.Min;
  }

  lemma FinishBill(c: V.Context, before: seq<Event>, bytes: nat, consumed: nat)
    requires hide *; c.maxGas == Gas.MaxGas(c.cal, Gas.FlatFee(c.snapshot)) && c.tick <= c.expiration
    requires Gas.EffectsBytes(Committed(c)) == Ok(bytes)
    ensures var r := V.Finish(c, before, bytes, consumed); r.Ok? ==> RawUsed(c).Ok? && BillsConsumed(c, r.value.bill)
  {
    hide Gas.EffectsBytes; hide Gas.GasUnits; hide V.FinalizedNotes; hide Committed; hide Gas.MaxGas; hide Gas.FlatFee;
    hide Gas.ToNano; hide Gas.GasPrice; hide Gas.Min; hide V.Steps; hide V.EffectiveInvariants;
  }

  lemma AfterStepsBill(c: V.Context, before: seq<Event>)
    requires hide *; c.maxGas == Gas.MaxGas(c.cal, Gas.FlatFee(c.snapshot)) && c.tick <= c.expiration
    ensures var r := V.AfterSteps(c, before, Committed(c)); r.Ok? ==> RawUsed(c).Ok? && BillsConsumed(c, r.value.bill)
  {
    hide Gas.EffectsBytes; hide V.RawGas; hide V.ExecFail; hide V.Finish; hide V.PostExpire; hide V.InvariantsHold;
    hide Committed; hide V.IdNotes; hide Gas.FlatFee; hide Gas.MaxGas; hide BillsConsumed; hide RawUsed;
    var bytes := Gas.EffectsBytes(Committed(c));
    if bytes.Ok? && V.RawGas(c, bytes.value).Ok? {
      var raw := V.RawGas(c, bytes.value).value;
      var executed := before + [CalExecuted(c.ch, Some(Committed(c)), Some(raw), V.IdNotes(c))];
      ExecFailBill(c, before, V.OUT_OF_GAS);
      ExecFailBill(c, executed, V.INVARIANT_FALSE);
      FinishBill(c, executed, bytes.value, raw);
    }
  }

  /** The refund is the budget without what was consumed: nothing is on expiry, otherwise the price
      of the gas for all recorded effects, up to the budget. */
  lemma RefundExactly(c: V.Context, before: seq<Event>)
    requires hide *; c.maxGas == Gas.MaxGas(c.cal, Gas.FlatFee(c.snapshot))
    requires V.PhaseB(c, before).Ok?
    ensures c.tick <= c.expiration ==> RawUsed(c).Ok?
    ensures BillsConsumed(c, V.PhaseB(c, before).value.bill)
  {
    hide V.RunSteps; hide V.ExecFail; hide V.AfterSteps; hide Gas.FlatFee; hide Gas.MaxGas; hide RawUsed;
    hide Committed;
    hide V.ExpiredNotes;
    CommittedUnfolds(c);
    var (stop, committed) := V.RunSteps(c, 0, []);
    if c.tick <= c.expiration {
      if stop.Some? { ExecFailBill(c, before, stop.value); }
      AfterStepsBill(c, before);
    }
  }

  /** Whatever it was escrowed with, a resume is accepted exactly when the budget without the gas it
      consumed is within the escrow, and the effects of a CAL that finalizes commit. */
  lemma ResumeExactly(t: Json, m: Ledger, cal: Json, ch: string, trace: V.Trace)
    requires hide *; Represents(t, m) && Sound(m.flights) && Supply(m) <= UINT256_MAX
    requires ch in m.flights && m.flights[ch].stage == VALIDATED
    requires SafeTrace(trace) && Gas.MaxGas(cal, Gas.FlatFee(t)) <= UINT256_MAX
    requires V.ResumeFromValidated(cal, ch, t, trace).Ok?
    ensures var v, c := V.ResumeFromValidated(cal, ch, t, trace).value, V.BuildContext(cal, ch, t, trace);
      Materialize(Rust, t, v.events).Ok? <==>
        Gas.MaxGas(cal, Gas.FlatFee(t)) - Consumed(c) <= m.flights[ch].escrow && Commits(t, c, v.terminal)
  {
    hide *;
    ContextFields(cal, ch, t, trace);
    ResumeUnfolds(cal, ch, t, trace);
    var c := V.BuildContext(cal, ch, t, trace);
    RefundExactly(c, []);
    BillsUnfold(c, V.PhaseB(c, []).value.bill);
    ResumeSettles(t, m, c);
  }

  lemma BillsUnfold(c: V.Context, bill: Gas.GasBill)
    ensures BillsConsumed(c, bill) ==> bill.gasRefunded == c.maxGas - Consumed(c)
  {
    hide Consumed;
  }

  lemma ResumeUnfolds(cal: Json, ch: string, t: Json, trace: V.Trace)
    ensures V.ResumeFromValidated(cal, ch, t, trace) == V.PhaseB(V.BuildContext(cal, ch, t, trace), [])
  {
    hide V.BuildContext; hide V.PhaseB;
  }

  // --- what a caller can check beforehand ---

  /** A resume with safe effects that commit is accepted. */
  predicate Taken(t: Json, cal: Json, ch: string, trace: V.Trace) {
    hide *;
    var r := V.ResumeFromValidated(cal, ch, t, trace);
    SafeTrace(trace) && r.Ok? && Commits(t, V.BuildContext(cal, ch, t, trace), r.value.terminal) ==>
      Materialize(Rust, t, r.value.events).Ok?
  }

  ghost predicate EveryResumeTaken(t: Json, cal: Json, ch: string) {
    forall trace: V.Trace :: Taken(t, cal, ch, trace)
  }

  /** The CAL names its own gas limit, a uint256. */
  predicate OwnLimit(cal: Json) {
    match cal.Get("gas_limit_ptra") case Some(j) => AsUint(j).Some? case None => false
  }

  lemma Budgets(cal: Json, fee: nat, other: nat)
    ensures OwnLimit(cal) ==> Gas.MaxGas(cal, fee) == Gas.MaxGas(cal, other)
    ensures !OwnLimit(cal) ==> Gas.MaxGas(cal, fee) == 100 * fee && Gas.MaxGas(cal, other) == 100 * other
  {
  }

  lemma TakenUnfolds(t: Json, cal: Json, ch: string, trace: V.Trace)
    ensures hide *; var r := V.ResumeFromValidated(cal, ch, t, trace);
      Taken(t, cal, ch, trace) <==>
        (SafeTrace(trace) && r.Ok? && Commits(t, V.BuildContext(cal, ch, t, trace), r.value.terminal) ==>
          Materialize(Rust, t, r.value.events).Ok?)
  {
    hide Materialize; hide V.ResumeFromValidated; hide V.BuildContext; hide SafeTrace; hide Commits;
  }

  /** A trace on which the CAL has expired. */
  function LateTrace(cal: Json): V.Trace {
    V.Trace(Gas.AsBig(cal.Get("expiration_tick"), 0) + 1, [], Null, Null, true, true, None, "")
  }

  lemma LateIsLate(cal: Json)
    ensures LateTrace(cal).currentTick > Gas.AsBig(cal.Get("expiration_tick"), 0) && SafeTrace(LateTrace(cal))
  {
  }

  lemma ExpiredCommits(t: Json, cal: Json, ch: string, trace: V.Trace)
    requires hide *; trace.currentTick > Gas.AsBig(cal.Get("expiration_tick"), 0)
    ensures V.ResumeFromValidated(cal, ch, t, trace).Ok?
    ensures Commits(t, V.BuildContext(cal, ch, t, trace), V.ResumeFromValidated(cal, ch, t, trace).value.terminal)
  {
    hide V.PhaseA; hide V.PhaseB;
    ContextExpired(cal, ch, t, trace);
    PostExpireShape(V.BuildContext(cal, ch, t, trace), []);
    hide V.BuildContext; hide V.PostExpire; hide BillSplits; hide Drops;
  }

  /** Every resume of a waiting CAL is accepted exactly when its gas budget at the present fee is
      within the escrow taken at the old one. A CAL with its own limit can always be resumed, one
      without exactly when the fee rose by one percent at most. */
  lemma EveryResumeCovered(t: Json, m: Ledger, cal: Json, ch: string, s0: Json)
    requires hide *; Represents(t, m) && Sound(m.flights) && Supply(m) <= UINT256_MAX
    requires ch in m.flights && m.flights[ch].stage == VALIDATED
    requires m.flights[ch].escrow == Gas.EscrowRequirement(cal, s0)
    ensures EveryResumeTaken(t, cal, ch) <==>
      Gas.MaxGas(cal, Gas.FlatFee(t)) <= Gas.FlatFee(s0) + Gas.MaxGas(cal, Gas.FlatFee(s0))
    ensures OwnLimit(cal) ==> EveryResumeTaken(t, cal, ch)
    ensures !OwnLimit(cal) ==> (EveryResumeTaken(t, cal, ch) <==> 100 * Gas.FlatFee(t) <= 101 * Gas.FlatFee(s0))
  {
    hide *;
    Budgets(cal, Gas.FlatFee(t), Gas.FlatFee(s0));
    EscrowSplit(cal, s0);
    SoundEscrow(m, ch);
    EveryUnfolds(t, cal, ch);
    if Gas.MaxGas(cal, Gas.FlatFee(t)) <= m.flights[ch].escrow {
      forall trace: V.Trace ensures Taken(t, cal, ch, trace) {
        TakenUnfolds(t, cal, ch, trace);
        if SafeTrace(trace) && V.ResumeFromValidated(cal, ch, t, trace).Ok? { ResumeExactly(t, m, cal, ch, trace); }
      }
    } else {
      var late := LateTrace(cal);
      LateIsLate(cal);
      ExpiredCommits(t, cal, ch, late);
      ExpiryCovered(t, m, cal, ch, s0, late);
      TakenUnfolds(t, cal, ch, late);
    }
  }

  lemma EveryUnfolds(t: Json, cal: Json, ch: string)
    ensures EveryResumeTaken(t, cal, ch) <==> forall trace: V.Trace :: Taken(t, cal, ch, trace)
  {
    hide Taken;
  }

  // --- when the flat fee has changed ---

  /** Without the equal fee, expiring after VALIDATED is accepted exactly when the gas budget at the
      new fee is within the escrow of the old one. */
  lemma ExpiryCovered(t: Json, m: Ledger, cal: Json, ch: string, s0: Json, trace: V.Trace)
    requires hide *; Represents(t, m) && Sound(m.flights) && Supply(m) <= UINT256_MAX
    requires ch in m.flights && m.flights[ch].stage == VALIDATED
    requires m.flights[ch].escrow == Gas.EscrowRequirement(cal, s0)
    requires trace.currentTick > Gas.AsBig(cal.Get("expiration_tick"), 0)
    ensures V.ResumeFromValidated(cal, ch, t, trace).Ok?
    ensures Materialize(Rust, t, V.ResumeFromValidated(cal, ch, t, trace).value.events).Ok?
      <==> Gas.MaxGas(cal, Gas.FlatFee(t)) <= Gas.FlatFee(s0) + Gas.MaxGas(cal, Gas.FlatFee(s0))
  {
    hide *;
    ContextFields(cal, ch, t, trace);
    ContextExpired(cal, ch, t, trace);
    EscrowSplit(cal, s0);
    var c := V.BuildContext(cal, ch, t, trace);
    PostExpireShape(c, []);
    var v := V.PostExpire(c, []).value;
    assert v.events == [v.events[0]] && [] + [v.events[0]] == [v.events[0]];
    FoldsNothing(t, m);
    SameOutsideReflexive(t);
    DropAccepted(t, m, [], t, m, ch, v.events[0], v.bill.gasRefunded);
  }

  lemma EscrowSplit(cal: Json, s: Json)
    ensures Gas.EscrowRequirement(cal, s) == Gas.FlatFee(s) + Gas.MaxGas(cal, Gas.FlatFee(s))
  {
    hide Gas.FlatFee; hide Gas.MaxGas;
  }

  lemma ContextExpired(cal: Json, ch: string, t: Json, trace: V.Trace)
    requires hide *; trace.currentTick > Gas.AsBig(cal.Get("expiration_tick"), 0)
    ensures V.ResumeFromValidated(cal, ch, t, trace) == V.PostExpire(V.BuildContext(cal, ch, t, trace), [])
  {
    hide V.PostExpire; hide V.AfterSteps; hide V.RunSteps;
  }
}
