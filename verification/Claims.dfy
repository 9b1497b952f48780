/** What the emergency guards mean for the live state: they carry over exactly as far as the claims of
    the trace are true, and nothing in validator or reducer checks that they are. */
module Claims {
  import opened Wrappers
  import opened JsonTree
  import opened Events
  import opened Deltas
  import opened Reducer
  import opened Ports
  import opened Ledgers
  import opened LedgerStep
  import opened Conservation
  import opened Runs
  import opened Acceptance
  import opened Emergency
  import opened Samples
  import Gas
  import Gates
  import Jcs
  import LateFees
  import Owners
  import V = Validator

  const NAV: Path := ["treasury", "nav"]
  const FUND: Path := ["treasury", "developer_fund_balance"]

  /** From s to t bounded mode stays on, and neither amount is lowered. */
  predicate Guarded(s: Json, t: Json) {
    V.IsBounded(t) && NotLower(GetIn(s, NAV), GetIn(t, NAV)) && NotLower(GetIn(s, FUND), GetIn(t, FUND))
  }

  /** At the guarded places the trace claims the snapshot before the CAL, and after it what the effects
      of the CAL make of the snapshot. */
  predicate Truthful(s: Json, c: V.Context) {
    hide *;
    && GetIn(c.trace.stateBefore, NAV) == GetIn(s, NAV) && GetIn(c.trace.stateBefore, FUND) == GetIn(s, FUND)
    && (Commit(s, Committed(c)).Ok? ==>
        var t := Commit(s, Committed(c)).value;
        && GetIn(c.trace.stateAfter, NAV) == GetIn(t, NAV) && GetIn(c.trace.stateAfter, FUND) == GetIn(t, FUND)
        && GetIn(c.trace.stateAfter, BOUNDED_MODE) == GetIn(t, BOUNDED_MODE))
  }

  lemma ClaimsRead(trace: V.Trace)
    ensures ClaimsPass(trace) <==>
      && GetIn(trace.stateAfter, BOUNDED_MODE) == Some(Bool(true))
      && NotLower(GetIn(trace.stateBefore, NAV), GetIn(trace.stateAfter, NAV))
      && NotLower(GetIn(trace.stateBefore, FUND), GetIn(trace.stateAfter, FUND))
  {
    hide GetIn; hide NotLower;
    assert BOUNDED_MODE == ["failure_mode", "is_bounded_mode"];
  }

  /** With true claims the guards decide exactly whether committing the effects is guarded. */
  lemma TruthfulGuards(s: Json, c: V.Context)
    requires hide *; Truthful(s, c) && Commit(s, Committed(c)).Ok?
    ensures ClaimsPass(c.trace) <==> Guarded(s, Commit(s, Committed(c)).value)
  {
    hide GetIn; hide NotLower; hide Commit; hide Committed; hide ClaimsPass; hide NAV; hide FUND; hide BOUNDED_MODE;
    ClaimsRead(c.trace);
  }

  lemma GuardedOutside()
    ensures Outside(NAV) && Outside(FUND) && Outside(BOUNDED_MODE) && NAV != [] && FUND != []
  {
    assert BOUNDED_MODE[0] == "failure_mode";
    assert NAV[0] == "treasury" && FUND[0] == "treasury" && NAV[1] == "nav" && FUND[1] == "developer_fund_balance";
    assert FEES[1] == "collected_fees_window" && FEES[1][0] == 'c' && NAV[1][0] == 'n' && FUND[1][0] == 'd';
  }

  lemma GuardedMoved(s: Json, t: Json, u: Json)
    requires SameOutside(t, u)
    ensures Guarded(s, t) <==> Guarded(s, u)
  {
    GuardedOutside();
    hide SameOutside; hide Outside; hide GetIn; hide NotLower; hide NAV; hide FUND; hide BOUNDED_MODE;
    SameOutsideGet(t, u, NAV);
    SameOutsideGet(t, u, FUND);
    SameOutsideGet(t, u, BOUNDED_MODE);
  }

  /** The live state after a CAL that finalizes and is accepted is guarded exactly when committing its
      effects to the snapshot is, whatever the trace claims. */
  lemma LiveGuards(s: Json, l: Ledger, cal: Json, ch: string, trace: V.Trace)
    requires hide *; Represents(s, l) && Sound(l.flights) && Supply(l) <= UINT256_MAX
    requires ch in l.flights && l.flights[ch].stage == SIGNED && l.flights[ch].agent == V.StrOr(cal.Get("agent_id"), "")
    requires SafeTrace(trace)
    requires V.Validate(cal, ch, s, trace).Ok? && V.Validate(cal, ch, s, trace).value.terminal == V.FINALIZED
    requires Materialize(Rust, s, V.Validate(cal, ch, s, trace).value.events).Ok?
    ensures var c := V.BuildContext(cal, ch, s, trace);
      && Commit(s, Committed(c)).Ok?
      && (Guarded(s, Materialize(Rust, s, V.Validate(cal, ch, s, trace).value.events).value) <==>
          Guarded(s, Commit(s, Committed(c)).value))
  {
    hide *;
    var c, v := V.BuildContext(cal, ch, s, trace), V.Validate(cal, ch, s, trace).value;
    var t := Materialize(Rust, s, v.events).value;
    ValidateAccepted(s, l, cal, ch, trace);
    CommittedOutside(s, t, c, v.terminal);
    GuardedMoved(s, Commit(s, Committed(c)).value, t);
  }

  /** So is the live state after a resume, on the snapshot at that time. */
  lemma LiveGuardsResumed(t: Json, m: Ledger, cal: Json, ch: string, trace: V.Trace)
    requires hide *; Represents(t, m) && Sound(m.flights) && Supply(m) <= UINT256_MAX
    requires ch in m.flights && m.flights[ch].stage == VALIDATED
    requires SafeTrace(trace) && Gas.MaxGas(cal, Gas.FlatFee(t)) <= UINT256_MAX
    requires V.ResumeFromValidated(cal, ch, t, trace).Ok?
    requires V.ResumeFromValidated(cal, ch, t, trace).value.terminal == V.FINALIZED
    requires Materialize(Rust, t, V.ResumeFromValidated(cal, ch, t, trace).value.events).Ok?
    ensures var c := V.BuildContext(cal, ch, t, trace);
      && Commit(t, Committed(c)).Ok?
      && (Guarded(t, Materialize(Rust, t, V.ResumeFromValidated(cal, ch, t, trace).value.events).value) <==>
          Guarded(t, Commit(t, Committed(c)).value))
  {
    hide *;
    var c, v := V.BuildContext(cal, ch, t, trace), V.ResumeFromValidated(cal, ch, t, trace).value;
    var u := Materialize(Rust, t, v.events).value;
    ContextFields(cal, ch, t, trace);
    LateFees.ResumeUnfolds(cal, ch, t, trace);
    ResumeSettles(t, m, c);
    CommittedOutside(t, u, c, v.terminal);
    GuardedMoved(t, Commit(t, Committed(c)).value, u);
  }

  /** The guards on the live state: in bounded mode, with true claims, a CAL that finalizes and is
      accepted leaves the live state bounded, with no less net asset value and developer fund. */
  lemma BoundedModeKept(s: Json, l: Ledger, cal: Json, ch: string, trace: V.Trace)
    requires hide *; Represents(s, l) && Sound(l.flights) && Supply(l) <= UINT256_MAX
    requires ch in l.flights && l.flights[ch].stage == SIGNED && l.flights[ch].agent == V.StrOr(cal.Get("agent_id"), "")
    requires SafeTrace(trace) && V.IsBounded(s) && Truthful(s, V.BuildContext(cal, ch, s, trace))
    requires V.Validate(cal, ch, s, trace).Ok? && V.Validate(cal, ch, s, trace).value.terminal == V.FINALIZED
    requires Materialize(Rust, s, V.Validate(cal, ch, s, trace).value.events).Ok?
    ensures Guarded(s, Materialize(Rust, s, V.Validate(cal, ch, s, trace).value.events).value)
  {
    hide *;
    var c := V.BuildContext(cal, ch, s, trace);
    LiveGuards(s, l, cal, ch, trace);
    FinalizedFrom(cal, ch, s, trace);
    BoundedModeGuards(c, [V.ValidatedEvent(c)]);
    TruthfulGuards(s, c);
  }

  /** The same for a resume: the snapshot is the one at that time, bounded mode included. */
  lemma BoundedResumeKept(t: Json, m: Ledger, cal: Json, ch: string, trace: V.Trace)
    requires hide *; Represents(t, m) && Sound(m.flights) && Supply(m) <= UINT256_MAX
    requires ch in m.flights && m.flights[ch].stage == VALIDATED
    requires SafeTrace(trace) && Gas.MaxGas(cal, Gas.FlatFee(t)) <= UINT256_MAX
    requires V.IsBounded(t) && Truthful(t, V.BuildContext(cal, ch, t, trace))
    requires V.ResumeFromValidated(cal, ch, t, trace).Ok?
    requires V.ResumeFromValidated(cal, ch, t, trace).value.terminal == V.FINALIZED
    requires Materialize(Rust, t, V.ResumeFromValidated(cal, ch, t, trace).value.events).Ok?
    ensures Guarded(t, Materialize(Rust, t, V.ResumeFromValidated(cal, ch, t, trace).value.events).value)
  {
    hide *;
    var c := V.BuildContext(cal, ch, t, trace);
    LiveGuardsResumed(t, m, cal, ch, trace);
    ContextFields(cal, ch, t, trace);
    ContextBounded(cal, ch, t, trace);
    LateFees.ResumeUnfolds(cal, ch, t, trace);
    BoundedModeGuards(c, []);
    TruthfulGuards(t, c);
  }

  lemma ContextBounded(cal: Json, ch: string, s: Json, trace: V.Trace)
    ensures V.BuildContext(cal, ch, s, trace).bounded == V.IsBounded(s)
  {
    hide Gas.FlatFee; hide Gas.MaxGas; hide V.OwnerCount; hide V.OwnerGated; hide Gas.OwnerAuthUnits; hide V.StrOr;
    hide V.IsBounded;
  }

  lemma CommittedOutside(s: Json, t: Json, c: V.Context, terminal: V.Terminal)
    requires hide *; OutsideAfter(s, t, c, terminal) && terminal == V.FINALIZED
    ensures Commit(s, Committed(c)).Ok? && SameOutside(Commit(s, Committed(c)).value, t)
  {
    hide Commit; hide Committed; hide SameOutside;
  }

  lemma FinalizedFrom(cal: Json, ch: string, s: Json, trace: V.Trace)
    requires hide *; V.Validate(cal, ch, s, trace).Ok? && V.Validate(cal, ch, s, trace).value.terminal == V.FINALIZED
    requires V.IsBounded(s)
    ensures var c := V.BuildContext(cal, ch, s, trace);
      && c.bounded && c.trace == trace
      && V.PhaseB(c, [V.ValidatedEvent(c)]) == V.Validate(cal, ch, s, trace)
  {
    hide *;
    ContextFields(cal, ch, s, trace);
    ValidateUnfolds(cal, ch, s, trace);
    PhaseAShape(V.BuildContext(cal, ch, s, trace));
    ContextBounded(cal, ch, s, trace);
  }

  // --- claims that are not true ---

  /** The effect that takes n off the net asset value. */
  function LossEffect(n: nat): Json {
    Obj(map["ns" := Str("treasury"), "op" := Str("sub"), "path" := Arr([Str("nav")]), "value" := Int(n)])
  }

  lemma LossDecoded(n: nat)
    ensures Decode(LossEffect(n)) == Some(Delta.Delta(Deltas.Op.Sub, NAV, Some(Int(n))))
  {
    var d, items := LossEffect(n), [Str("nav")];
    assert d.Get("ns") == Some(Str("treasury")) && d.Get("op") == Some(Str("sub"));
    assert d.Get("path") == Some(Arr(items)) && d.Get("value") == Some(Int(n));
    assert items[0].s == "nav";
    assert Owners.StrItems(items).value == ["nav"];
    assert ["treasury"] + ["nav"] == NAV;
    assert "sub"[0] == 's' && "sub"[1] == 'u' && "set"[1] == 'e' && "delete"[0] == 'd' && "add"[0] == 'a';
    hide Owners.StrItems;
  }

  lemma LossCommits(s: Json, v: int, n: nat)
    requires GetIn(s, NAV) == Some(Int(v)) && n <= v <= UINT256_MAX
    ensures SafeDeltas([LossEffect(n)])
    ensures Commit(s, [LossEffect(n)]) == Ok(SetIn(s, NAV, Int(v - n)))
    ensures GetIn(SetIn(s, NAV, Int(v - n)), NAV) == Some(Int(v - n))
  {
    LossDecoded(n);
    GuardedOutside();
    GetSet(s, NAV, Int(v - n));
    LossOperands(s, v, n);
    ArithCases(s, NAV, Some(Int(n)), false);
    hide Decode; hide LossEffect; hide Outside; hide SetIn; hide GetIn; hide NAV; hide Deltas.Operands;
    hide Deltas.Arith;
    assert [LossEffect(n)][1..] == [];
    assert ApplyDelta(s, LossEffect(n)) == Ok(SetIn(s, NAV, Int(v - n)));
  }

  lemma LossOperands(s: Json, v: int, n: nat)
    requires GetIn(s, NAV) == Some(Int(v)) && n <= v <= UINT256_MAX
    ensures Deltas.Operands(s, NAV, Some(Int(n))) == Ok((v, n))
  {
    hide GetIn;
  }

  lemma LossBytes(n: nat)
    ensures Gas.EffectsBytes([LossEffect(n)]).Ok?
  {
    LossBomFree(n);
    hide Gas.Utf8Length; hide LossEffect; hide Jcs.BomFree;
    assert Jcs.CanonicalizeValue(Arr([LossEffect(n)])).Ok?;
  }

  lemma NoMarks()
    ensures Jcs.Bomless("ns") && Jcs.Bomless("op") && Jcs.Bomless("path") && Jcs.Bomless("value")
    ensures Jcs.BomFree(Str("treasury")) && Jcs.BomFree(Str("sub")) && Jcs.BomFree(Arr([Str("nav")]))
    ensures forall n: int :: Jcs.BomFree(Int(n))
  {
    assert "ns"[0] == 'n' && "op"[0] == 'o' && "path"[0] == 'p' && "value"[0] == 'v';
    assert "treasury"[0] == 't' && "sub"[0] == 's' && "nav"[0] == 'n';
    assert Jcs.BomFree(Str("nav"));
  }

  lemma LossBomFree(n: nat)
    ensures Jcs.BomFree(Arr([LossEffect(n)]))
  {
    NoMarks();
    var d := LossEffect(n);
    hide Jcs.Bomless;
    assert forall k :: k in d.fields ==> k == "ns" || k == "op" || k == "path" || k == "value";
    assert Jcs.BomFree(d);
  }

  /** Everything that finalizing asks for but the injected invariants: in time, all steps run with their
      post-conditions true, the declared invariants hold, and the gas for the effects is within budget. */
  predicate OwnChecksHold(c: V.Context) {
    hide V.RawGas; hide Gas.EffectsBytes; hide OwnInvariantsHold; hide Gates.AllStepsHold; hide V.Steps;
    && c.tick <= c.expiration && Gates.AllStepsHold(c) && OwnInvariantsHold(c) && |V.Steps(c)| <= |c.trace.steps|
    && var effects := Gates.EffectsUpTo(c.trace, |V.Steps(c)|);
    && Gas.EffectsBytes(effects).Ok? && V.RawGas(c, Gas.EffectsBytes(effects).value).Ok?
    && V.RawGas(c, Gas.EffectsBytes(effects).value).value <= c.maxGas
  }

  /** In bounded mode a CAL finalizes exactly when its own checks hold and the claims of its trace pass:
      the guards never look at its effects. */
  lemma ClaimsDecide(c: V.Context, before: seq<Event>)
    requires hide *; c.bounded && V.PhaseB(c, before).Ok?
    ensures V.PhaseB(c, before).value.terminal == V.FINALIZED <==> OwnChecksHold(c) && ClaimsPass(c.trace)
  {
    hide V.PhaseB; hide V.InvariantsHold; hide V.RawGas; hide Gas.EffectsBytes; hide Gates.AllStepsHold; hide V.Steps;
    hide Gates.EffectsUpTo; hide OwnInvariantsHold; hide ClaimsPass; hide Committed;
    Gates.FinalizedExactly(c, before);
    BoundedInvariants(c);
  }

  lemma PhaseBOk(c: V.Context, before: seq<Event>)
    requires hide *; c.tick <= c.expiration && Gas.EffectsBytes(Committed(c)).Ok? && Gas.StaticGasUnits(c.cal).Ok?
    ensures V.PhaseB(c, before).Ok?
  {
    CommittedUnfolds(c);
    hide V.RunSteps; hide Gas.EffectsBytes; hide Gas.StaticGasUnits; hide V.InvariantsHold; hide V.FailedNotes;
    hide V.FinalizedNotes; hide V.IdNotes; hide Gas.FlatFee; hide Gas.MaxGas; hide Gas.GasPrice; hide Gas.ToNano;
    hide V.Steps; hide V.EffectiveInvariants; hide Gas.Capped; hide Committed;
  }

  lemma OwnChecksRun(c: V.Context, before: seq<Event>)
    requires hide V.RawGas; hide Gas.EffectsBytes; hide OwnInvariantsHold; OwnChecksHold(c)
    ensures V.PhaseB(c, before).Ok? && Committed(c) == Gates.EffectsUpTo(c.trace, |V.Steps(c)|)
  {
    hide V.PhaseB; hide V.RawGas; hide Gas.EffectsBytes; hide V.RunSteps; hide Gates.StepHolds; hide V.Steps;
    hide Gates.EffectsUpTo; hide OwnInvariantsHold; hide Gas.StaticGasUnits;
    Gates.NoEffects(c.trace);
    Gates.StepsExact(c, 0, []);
    CommittedUnfolds(c);
    StaticOk(c, Gas.EffectsBytes(Gates.EffectsUpTo(c.trace, |V.Steps(c)|)).value);
    PhaseBOk(c, before);
  }

  lemma StaticOk(c: V.Context, bytes: nat)
    requires V.RawGas(c, bytes).Ok?
    ensures Gas.StaticGasUnits(c.cal).Ok?
  {
    hide Gas.StaticGasUnits; hide Gas.GasPrice; hide Gas.ToNano;
  }

  lemma PassedOn(cal: Json, ch: string, s: Json, trace: V.Trace)
    requires V.FirstStop(V.BuildContext(cal, ch, s, trace)) == None
    ensures var c := V.BuildContext(cal, ch, s, trace);
      V.Validate(cal, ch, s, trace) == V.PhaseB(c, [V.ValidatedEvent(c)])
  {
    hide V.FirstStop; hide V.BuildContext; hide V.PhaseB; hide V.ValidatedEvent; hide V.PreFail; hide V.PreExpire;
  }

  /** Without true claims the guards say nothing about the live state: in bounded mode any CAL that passes
      the gates before VALIDATED, whose own checks hold and whose claims pass finalizes although its
      effect lowers the net asset value, by any amount there is; the reducer accepts it. */
  lemma ClaimsCanLie(s: Json, l: Ledger, cal: Json, ch: string, trace: V.Trace, n: nat) returns (t: Json)
    requires hide *; Represents(s, l) && Sound(l.flights) && Supply(l) <= UINT256_MAX
    requires ch in l.flights && l.flights[ch].stage == SIGNED && l.flights[ch].agent == V.StrOr(cal.Get("agent_id"), "")
    requires SafeTrace(trace) && V.IsBounded(s) && ClaimsPass(trace)
    requires V.FirstStop(V.BuildContext(cal, ch, s, trace)) == None && OwnChecksHold(V.BuildContext(cal, ch, s, trace))
    requires Committed(V.BuildContext(cal, ch, s, trace)) == [LossEffect(n)]
    requires IsAmount(GetIn(s, NAV))
    requires GetIn(s, NAV).Some? && GetIn(s, NAV).value.Int? && n <= GetIn(s, NAV).value.n
    ensures var r := V.Validate(cal, ch, s, trace);
      && r.Ok? && r.value.terminal == V.FINALIZED
      && Materialize(Rust, s, r.value.events) == Ok(t)
    ensures GetIn(t, NAV) == Some(Int(GetIn(s, NAV).value.n - n))
    ensures n > 0 ==> !Guarded(s, t)
  {
    hide *;
    AmountIs(GetIn(s, NAV));
    var v, c := GetIn(s, NAV).value.n, V.BuildContext(cal, ch, s, trace);
    LossCommits(s, v, n);
    ContextFields(cal, ch, s, trace);
    ContextBounded(cal, ch, s, trace);
    PassedOn(cal, ch, s, trace);
    OwnChecksRun(c, [V.ValidatedEvent(c)]);
    ClaimsDecide(c, [V.ValidatedEvent(c)]);
    FinalCommits(s, c);
    ValidateAccepted(s, l, cal, ch, trace);
    t := Materialize(Rust, s, V.Validate(cal, ch, s, trace).value.events).value;
    CommittedOutside(s, t, c, V.FINALIZED);
    GuardedOutside();
    SameOutsideGet(SetIn(s, NAV, Int(v - n)), t, NAV);
    if n > 0 { LossUnguarded(s, t, v, n); }
  }

  lemma AmountIs(v: Option<Json>)
    requires IsAmount(v)
    ensures v.Some? && v.value.Int? && v == Some(Int(v.value.n)) && v.value.n <= UINT256_MAX
  {
  }

  lemma FinalCommits(s: Json, c: V.Context)
    requires Commit(s, Committed(c)).Ok?
    ensures Commits(s, c, V.FINALIZED)
  {
    hide Commit; hide Committed;
  }

  lemma LossUnguarded(s: Json, t: Json, v: int, n: nat)
    requires GetIn(s, NAV) == Some(Int(v)) && GetIn(t, NAV) == Some(Int(v - n)) && n > 0
    ensures !Guarded(s, t)
  {
    hide GetIn;
  }

  /** Claiming that nothing changed always passes, where there is something to claim. */
  lemma StillPasses(s: Json, effects: seq<Json>)
    requires V.IsBounded(s) && IsAmount(GetIn(s, NAV)) && IsAmount(GetIn(s, FUND))
    ensures ClaimsPass(SampleTrace(s, effects))
  {
    hide GetIn; hide ClaimsPass;
    ClaimsRead(SampleTrace(s, effects));
  }

  // --- sample CALs ---

  /** A sample CAL runs its step and records the effects of the trace; its gas is free. */
  lemma SampleRuns(c: V.Context, s: Json, effects: seq<Json>)
    requires c.cal == SampleCal(c.agent) && c.trace == SampleTrace(s, effects) && c.tick <= c.expiration
    requires Gas.EffectsBytes(effects).Ok? && Gas.GasPrice(c.snapshot) == 0
    ensures OwnChecksHold(c) && Committed(c) == effects
  {
    hide V.PostCondition; hide V.InvariantHolds; hide Gas.StaticGasUnits; hide Gas.EffectsBytes; hide SampleCal;
    hide Gas.GasPrice;
    SampleFields(c.agent);
    SampleUnits(c.agent);
    FreeGas(c, Gas.EffectsBytes(effects).value);
    hide V.RawGas;
    assert Obj(map[]).Get("post_conditions") == None;
    assert Gates.EffectsUpTo(c.trace, 1) == Gates.EffectsUpTo(c.trace, 0) + effects == effects;
    assert V.Steps(c) == [Obj(map[])];
    assert Gates.StepHolds(c, 0);
    assert Gates.AllStepsHold(c) && OwnInvariantsHold(c);
    Gates.StepsExact(c, 0, []);
    CommittedUnfolds(c);
  }

  lemma FreeGas(c: V.Context, bytes: nat)
    requires Gas.StaticGasUnits(c.cal).Ok? && Gas.GasPrice(c.snapshot) == 0
    ensures V.RawGas(c, bytes) == Ok(0)
  {
    hide Gas.StaticGasUnits; hide Gas.GasPrice;
  }

  lemma CanPay(s: Json, l: Ledger, agent: string, fee: nat)
    requires Represents(s, l) && Gas.FlatFee(s) == fee && At(l.balances, agent) >= 101 * fee
    ensures Gas.CanValidate(SampleCal(agent), s)
  {
    BalanceRead(s, l, agent);
    SampleFields(agent);
    SampleContext(agent, "", s, SampleTrace(s, []));
    hide Represents; hide Balance; hide SampleCal; hide Gas.FlatFee; hide Gas.AgentId; hide Gas.EscrowRequirement;
    hide SampleTrace; hide V.BuildContext;
  }

  lemma NonceMissing(s: Json, l: Ledger, agent: string)
    requires Represents(s, l) && agent !in l.nonces
    ensures Nonce(s, agent) == 0
  {
    PutNonce(s, l, agent);
    hide Represents; hide BumpNonce; hide SameOutside; hide Nonce;
  }

  lemma SampleTraceIs(s: Json, effects: seq<Json>)
    ensures var trace := SampleTrace(s, effects);
      && trace.operatorSigPresent && trace.ownerSigPresent && trace.pinnedSchemaHash == "" && trace.currentTick == 0
      && (SafeDeltas(effects) ==> SafeTrace(trace))
  {
    hide SafeDeltas;
  }

  lemma SmallAmounts()
    ensures IsAmount(Some(Int(1))) && IsAmount(Some(Int(0))) && 1 <= UINT256_MAX
  {
  }
}
