/** What the verdicts of the validator mean: who pays before VALIDATED, and what it takes to finalize. */
module Gates {
  import opened Wrappers
  import opened JsonTree
  import opened Events
  import opened Acceptance
  import Gas
  import Quorum
  import Reducer
  import Taxonomy
  import opened Validator

  /** The refusals that cost the agent something. */
  predicate IsSpam(reason: Option<Reason>) {
    reason.Some? && reason.value in {CAPABILITY_DENIED, INVALID_SIGNATURE_SET, QUORUM_NOT_MET, PRECOND_FALSE}
  }

  /** A fresh, timely CAL of a registered and presently admitted action. */
  predicate IsGenuine(c: Context) {
    && Taxonomy.IsRegisteredAction(c.action) && (c.bounded ==> Taxonomy.IsBoundedAllowed(c.action))
    && c.tick <= c.expiration && c.nonce == Reducer.Nonce(c.snapshot, c.agent) + 1
  }

  lemma StopReasons(c: Context)
    ensures match FirstStop(c)
      case None => true
      case Some(TooLate) => c.tick > c.expiration
      case Some(Refused(reason, outcome)) =>
        && (outcome == Gas.FailedPrecond || outcome == Gas.FailedNoCharge)
        && (outcome == Gas.FailedPrecond <==> IsSpam(Some(reason)))
        && (IsSpam(Some(reason)) ==> IsGenuine(c))
  {
    SignatureReasons(c);
    hide SignatureGate; hide EvalExpr; hide Gas.CanValidate; hide Reducer.Nonce; hide MCP_SCHEMA_HASH; hide StrOr;
    hide Taxonomy.IsRegisteredAction; hide Taxonomy.IsBoundedAllowed;
  }

  lemma SignatureReasons(c: Context)
    ensures SignatureGate(c).Some? ==> IsSpam(SignatureGate(c))
  {
    hide StrOr; hide AgentPath; hide Quorum.MultisigQuorum; hide CapabilityGrants; hide Strings; hide GetIn;
    hide OwnerGated;
  }

  /** Only a genuine CAL that fails on signatures, scope or a false precondition is charged, and then
      the smaller of balance and flat fee; replays, late and malformed CALs cost nothing. */
  lemma WhoPays(c: Context)
    requires hide *; PhaseA(c).Ok? && PhaseA(c).value.Some?
    ensures var v := PhaseA(c).value.value;
      if IsSpam(v.reason) then
        && IsGenuine(c)
        && v.bill.totalAgentCharge == v.bill.feeRetained == Gas.Min(
            if Gas.AgentId(c.cal).Some? then Reducer.Balance(c.snapshot, Gas.AgentId(c.cal).value) else 0,
            Gas.FlatFee(c.snapshot))
      else v.bill == Gas.NO_CHARGE
  {
    hide FirstStop; hide FailedNotes; hide ExpiredNotes; hide IsGenuine; hide Reducer.Balance; hide Gas.FlatFee;
    hide Gas.MaxGas;
    hide Gas.AgentId; hide Gas.ConsumedBill; hide Gas.Min;
    StopReasons(c);
  }

  // --- what it takes to finalize ---

  /** Step i was executed and all its post-conditions hold. */
  predicate StepHolds(c: Context, i: nat)
    requires i < |Steps(c)|
  {
    hide *;
    && i < |c.trace.steps| && c.trace.steps[i].ok
    && var pcs := Gas.Items(Steps(c)[i].Get("post_conditions"));
      forall k :: 0 <= k < |pcs| ==> PostCondition(c, Steps(c)[i], pcs[k]).None?
  }

  predicate AllStepsHold(c: Context) {
    hide *;
    forall i :: 0 <= i < |Steps(c)| ==> StepHolds(c, i)
  }

  /** The effects of the first n steps, in order. */
  function EffectsUpTo(trace: Trace, n: nat): seq<Json>
    requires n <= |trace.steps|
  {
    if n == 0 then [] else EffectsUpTo(trace, n - 1) + trace.steps[n - 1].effects
  }

  lemma {:induction false} PostConditionsExact(c: Context, step: Json, pcs: seq<Json>)
    ensures hide *;
      PostConditions(c, step, pcs).None? <==> forall k :: 0 <= k < |pcs| ==> PostCondition(c, step, pcs[k]).None?
    decreases |pcs|
  {
    hide PostCondition;
    if pcs != [] {
      PostConditionsExact(c, step, pcs[1..]);
      assert forall k :: 1 <= k < |pcs| ==> pcs[k] == pcs[1..][k - 1];
      assert forall k :: 0 <= k < |pcs[1..]| ==> pcs[1..][k] == pcs[k + 1];
    }
  }

  lemma {:induction false} StepsExact(c: Context, i: nat, committed: seq<Json>)
    requires hide *; i <= |c.trace.steps| && committed == EffectsUpTo(c.trace, i)
    ensures RunSteps(c, i, committed).0.None? <==> forall k :: i <= k < |Steps(c)| ==> StepHolds(c, k)
    ensures RunSteps(c, i, committed).0.None? && i <= |Steps(c)| ==>
      |Steps(c)| <= |c.trace.steps| && RunSteps(c, i, committed).1 == EffectsUpTo(c.trace, |Steps(c)|)
    decreases |Steps(c)| - i
  {
    hide PostConditions; hide PostCondition; hide Steps;
    if i < |Steps(c)| && i < |c.trace.steps| && c.trace.steps[i].ok {
      var step := Steps(c)[i];
      PostConditionsExact(c, step, Gas.Items(step.Get("post_conditions")));
      StepsExact(c, i + 1, committed + c.trace.steps[i].effects);
      assert StepHolds(c, i) <==> PostConditions(c, step, Gas.Items(step.Get("post_conditions"))).None?;
    } else if i < |Steps(c)| {
      assert !StepHolds(c, i);
    }
  }

  lemma AfterStepsExact(c: Context, before: seq<Event>, committed: seq<Json>)
    ensures hide *; var r := AfterSteps(c, before, committed);
      r.Ok? ==> (r.value.terminal == FINALIZED <==>
        && c.tick <= c.expiration && InvariantsHold(c)
        && Gas.EffectsBytes(committed).Ok? && RawGas(c, Gas.EffectsBytes(committed).value).Ok?
        && RawGas(c, Gas.EffectsBytes(committed).value).value <= c.maxGas)
  {
    hide Gas.EffectsBytes; hide RawGas; hide InvariantsHold; hide Gas.Settle; hide IdNotes; hide FailedNotes;
    hide FinalizedNotes;
    hide ExpiredNotes; hide Steps; hide EffectiveInvariants;
  }

  lemma EndsOtherwise(c: Context, before: seq<Event>, reason: Reason, committed: seq<Json>)
    ensures hide *; PostExpire(c, before).Ok? ==> PostExpire(c, before).value.terminal != FINALIZED
    ensures ExecFail(c, before, reason, committed).Ok?
      ==> ExecFail(c, before, reason, committed).value.terminal != FINALIZED
  {
    hide Gas.EffectsBytes; hide Gas.Settle; hide FailedNotes; hide ExpiredNotes;
  }

  /** A CAL finalizes exactly when it is in time, every step was executed with all post-conditions
      true, the gas for its effects is within budget, and every invariant holds. The effects it
      records are those of its steps, in order. */
  lemma FinalizedExactly(c: Context, before: seq<Event>)
    requires hide *; PhaseB(c, before).Ok?
    ensures var v := PhaseB(c, before).value;
      v.terminal == FINALIZED <==>
        && c.tick <= c.expiration && AllStepsHold(c) && InvariantsHold(c)
        && |Steps(c)| <= |c.trace.steps|
        && var effects := EffectsUpTo(c.trace, |Steps(c)|);
        && Gas.EffectsBytes(effects).Ok? && RawGas(c, Gas.EffectsBytes(effects).value).Ok?
        && RawGas(c, Gas.EffectsBytes(effects).value).value <= c.maxGas
    ensures PhaseB(c, before).value.terminal == FINALIZED ==> Committed(c) == EffectsUpTo(c.trace, |Steps(c)|)
  {
    hide RunSteps; hide AfterSteps; hide ExecFail; hide PostExpire; hide InvariantsHold; hide Gas.EffectsBytes;
    hide RawGas;
    hide StepHolds; hide EffectsUpTo; hide Steps;
    var (stop, committed) := RunSteps(c, 0, []);
    NoEffects(c.trace);
    StepsExact(c, 0, []);
    EndsOtherwise(c, before, if stop.Some? then stop.value else STEP_ERROR, committed);
    AfterStepsExact(c, before, committed);
  }

  lemma NoEffects(trace: Trace)
    ensures EffectsUpTo(trace, 0) == []
  {
  }
}
