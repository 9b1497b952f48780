/** Validating in two stages: directly one after the other it is the atomic validation; with other
    submissions and ticks in between, the escrow covers the late resume as long as the flat fee is
    the one it was taken with. */
module Staging {
  import opened Wrappers
  import opened JsonTree
  import opened Events
  import opened Deltas
  import opened Reducer
  import opened Ports
  import opened Ledgers
  import opened LedgerStep
  import opened Conservation
  import Lifecycle
  import opened Runs
  import opened Acceptance
  import V = Validator
  import Gas

  // --- what the context takes from the snapshot lies outside the protected part ---

  lemma GasPathsOutside(agent: string, field: string)
    ensures Outside(Gas.GAS_PRICE) && Outside(Gas.FLAT_FEE) && Outside(BOUNDED_MODE)
    ensures Outside(V.AgentPath(agent, field))
  {
    assert Gas.GAS_PRICE[0] == "governance" && Gas.FLAT_FEE[0] == "governance" && BOUNDED_MODE[0] == "failure_mode";
    assert V.AgentPath(agent, field)[0] == "registry";
  }

  lemma PricesSame(s: Json, t: Json)
    requires SameOutside(s, t)
    ensures Gas.FlatFee(s) == Gas.FlatFee(t) && Gas.GasPrice(s) == Gas.GasPrice(t) && V.IsBounded(s) == V.IsBounded(t)
  {
    GasPathsOutside("", "");
    hide SameOutside; hide Outside; hide GetIn; hide Gas.GAS_PRICE; hide Gas.FLAT_FEE; hide BOUNDED_MODE;
    SameOutsideGet(s, t, Gas.GAS_PRICE);
    SameOutsideGet(s, t, Gas.FLAT_FEE);
    SameOutsideGet(s, t, BOUNDED_MODE);
  }

  lemma ContextSame(cal: Json, ch: string, s: Json, t: Json, trace: V.Trace)
    requires SameOutside(s, t)
    ensures V.BuildContext(cal, ch, t, trace) == V.BuildContext(cal, ch, s, trace).(snapshot := t)
  {
    PricesSame(s, t);
    var agent := V.StrOr(cal.Get("agent_id"), "");
    GasPathsOutside(agent, "owners");
    SameOutsideGet(s, t, V.AgentPath(agent, "owners"));
    hide SameOutside; hide Outside; hide GetIn; hide Gas.FlatFee; hide V.IsBounded; hide V.OwnerGated; hide Gas.MaxGas;
    hide V.StrOr; hide Gas.AsBig; hide V.AgentPath; hide Gas.OwnerAuthUnits;
  }

  // --- phase B reads no more of the snapshot than that ---

  lemma {:induction false} PostConditionsSame(c: V.Context, t: Json, step: Json, pcs: seq<Json>)
    ensures V.PostConditions(c.(snapshot := t), step, pcs) == V.PostConditions(c, step, pcs)
    decreases |pcs|
  {
    hide V.EvalExpr; hide V.BeforeAfter;
    if pcs != [] {
      PostConditionsSame(c, t, step, pcs[1..]);
    }
  }

  lemma {:induction false} RunStepsSame(c: V.Context, t: Json, i: nat, committed: seq<Json>)
    ensures V.RunSteps(c.(snapshot := t), i, committed) == V.RunSteps(c, i, committed)
    decreases |V.Steps(c)| - i
  {
    var d := c.(snapshot := t);
    assert V.Steps(d) == V.Steps(c);
    hide V.PostConditions; hide V.Steps;
    if i < |V.Steps(c)| && i < |c.trace.steps| && c.trace.steps[i].ok {
      var step := V.Steps(c)[i];
      PostConditionsSame(c, t, step, Gas.Items(step.Get("post_conditions")));
      RunStepsSame(c, t, i + 1, committed + c.trace.steps[i].effects);
    }
  }

  lemma SettleSame(outcome: Gas.Outcome, c: V.Context, t: Json, bytes: nat)
    requires hide *; SameOutside(c.snapshot, t) && outcome != Gas.FailedPrecond
    ensures Gas.Settle(outcome, c.cal, t, bytes, c.ownerAuth)
      == Gas.Settle(outcome, c.cal, c.snapshot, bytes, c.ownerAuth)
    ensures V.RawGas(c.(snapshot := t), bytes) == V.RawGas(c, bytes)
    ensures outcome == Gas.ExpiredPost
      ==> Gas.Settle(outcome, c.cal, t, 0, 0) == Gas.Settle(outcome, c.cal, c.snapshot, 0, 0)
  {
    PricesSame(c.snapshot, t);
    hide SameOutside; hide Gas.FlatFee; hide Gas.GasPrice; hide Gas.MaxGas; hide Gas.GasUnits; hide Gas.Capped;
    hide Gas.ToNano;
  }

  ghost predicate SameButPrefix(r: Result<V.Verdict, Gas.GasError>, before: seq<Event>,
      u: Result<V.Verdict, Gas.GasError>) {
    match u
    case Err(e) => r == Err(e)
    case Ok(v) => r == Ok(v.(events := before + v.events))
  }

  lemma PostExpireSame(c: V.Context, t: Json, before: seq<Event>, events: seq<Event>)
    requires SameOutside(c.snapshot, t)
    ensures SameButPrefix(V.PostExpire(c, before + events), before, V.PostExpire(c.(snapshot := t), events))
  {
    SettleSame(Gas.ExpiredPost, c, t, 0);
    hide SameOutside; hide Gas.Settle; hide V.ExpiredNotes;
    var d := c.(snapshot := t);
    assert V.ExpiredNotes(d) == V.ExpiredNotes(c) by { NotesSame(c, t, V.STEP_ERROR, 0, 0, 0); }
    var r := Gas.Settle(Gas.ExpiredPost, c.cal, c.snapshot, 0, 0);
    if r.Ok? {
      var ev := CalExpired(c.ch, Some(0), Some(r.value.gasRefunded), V.ExpiredNotes(c));
      assert before + events + [ev] == before + (events + [ev]);
    }
  }

  lemma NotesSame(c: V.Context, t: Json, reason: V.Reason, gas: nat, n: nat, k: nat)
    ensures var d := c.(snapshot := t);
      && V.ExpiredNotes(d) == V.ExpiredNotes(c) && V.FailedNotes(d, reason, gas) == V.FailedNotes(c, reason, gas)
      && V.FinalizedNotes(d, gas, n, k) == V.FinalizedNotes(c, gas, n, k) && V.IdNotes(d) == V.IdNotes(c)
  {
  }

  lemma ExecFailSame(c: V.Context, t: Json, before: seq<Event>, events: seq<Event>, reason: V.Reason,
      committed: seq<Json>)
    requires SameOutside(c.snapshot, t)
    ensures SameButPrefix(V.ExecFail(c, before + events, reason, committed), before,
      V.ExecFail(c.(snapshot := t), events, reason, committed))
  {
    hide SameOutside; hide Gas.Settle; hide V.FailedNotes; hide Gas.EffectsBytes;
    var d := c.(snapshot := t);
    var bytes := Gas.EffectsBytes(committed);
    if bytes.Ok? {
      SettleSame(Gas.FailedExec, c, t, bytes.value);
      var r := Gas.Settle(Gas.FailedExec, c.cal, c.snapshot, bytes.value, c.ownerAuth);
      if r.Ok? {
        NotesSame(c, t, reason, r.value.dynamicGasConsumed, 0, 0);
        var ev := CalFailed(c.ch, Some(0), Some(r.value.gasRefunded),
          V.FailedNotes(c, reason, r.value.dynamicGasConsumed));
        assert before + events + [ev] == before + (events + [ev]);
      }
    }
  }

  lemma FinishSame(c: V.Context, t: Json, before: seq<Event>, events: seq<Event>, bytes: nat, consumed: nat)
    requires SameOutside(c.snapshot, t)
    ensures SameButPrefix(V.Finish(c, before + events, bytes, consumed), before,
      V.Finish(c.(snapshot := t), events, bytes, consumed))
  {
    StepsAndInvariantsSame(c, t);
    hide SameOutside; hide Gas.Settle; hide V.FinalizedNotes; hide V.Steps; hide V.EffectiveInvariants;
    var d := c.(snapshot := t);
    SettleSame(Gas.Finalized, c, t, bytes);
    var r := Gas.Settle(Gas.Finalized, c.cal, c.snapshot, bytes, c.ownerAuth);
    if r.Ok? {
      NotesSame(c, t, V.STEP_ERROR, consumed, |V.Steps(c)|, |V.EffectiveInvariants(c)|);
      var notes := V.FinalizedNotes(c, consumed, |V.Steps(c)|, |V.EffectiveInvariants(c)|);
      var tail := [CalSettled(c.ch), CalFinalized(c.ch, Some(r.value.gasRefunded), notes)];
      assert before + events + tail == before + (events + tail);
    }
  }

  lemma StepsAndInvariantsSame(c: V.Context, t: Json)
    ensures var d := c.(snapshot := t);
      V.Steps(d) == V.Steps(c) && V.EffectiveInvariants(d) == V.EffectiveInvariants(c)
        && V.InvariantsHold(d) == V.InvariantsHold(c)
  {
    hide V.EvalExpr; hide V.EmergencyInvariants; hide V.BeforeAfter;
    var d := c.(snapshot := t);
    assert V.EffectiveInvariants(d) == V.EffectiveInvariants(c);
    assert forall inv :: V.InvariantHolds(d, inv) == V.InvariantHolds(c, inv);
  }

  lemma AfterStepsSame(c: V.Context, t: Json, before: seq<Event>, committed: seq<Json>)
    requires SameOutside(c.snapshot, t)
    ensures SameButPrefix(V.AfterSteps(c, before, committed), before, V.AfterSteps(c.(snapshot := t), [], committed))
  {
    StepsAndInvariantsSame(c, t);
    hide SameOutside; hide V.ExecFail; hide V.PostExpire; hide V.Finish; hide V.InvariantsHold;
    hide Gas.EffectsBytes; hide V.RawGas;
    hide V.IdNotes; hide V.Steps; hide V.EffectiveInvariants;
    assert before + [] == before;
    var bytes := Gas.EffectsBytes(committed);
    if bytes.Ok? {
      SettleSame(Gas.Finalized, c, t, bytes.value);
      ExecFailSame(c, t, before, [], V.OUT_OF_GAS, committed);
      if V.RawGas(c, bytes.value).Ok? {
        var raw := V.RawGas(c, bytes.value).value;
        NotesSame(c, t, V.STEP_ERROR, 0, 0, 0);
        var ev := CalExecuted(c.ch, Some(committed), Some(raw), V.IdNotes(c));
        assert [] + [ev] == [ev];
        PostExpireSame(c, t, before, [ev]);
        ExecFailSame(c, t, before, [ev], V.INVARIANT_FALSE, committed);
        FinishSame(c, t, before, [ev], bytes.value, raw);
      }
    }
  }

  /** Phase B on a snapshot that only differs in the protected part, and without the events before
      it, gives the same verdict. */
  lemma PhaseBSame(c: V.Context, t: Json, before: seq<Event>)
    requires SameOutside(c.snapshot, t)
    ensures SameButPrefix(V.PhaseB(c, before), before, V.PhaseB(c.(snapshot := t), []))
  {
    hide SameOutside; hide V.ExecFail; hide V.PostExpire; hide V.AfterSteps; hide V.RunSteps;
    assert before + [] == before;
    PostExpireSame(c, t, before, []);
    RunStepsSame(c, t, 0, []);
    var (stop, committed) := V.RunSteps(c, 0, []);
    if stop.Some? { ExecFailSame(c, t, before, [], stop.value, committed); }
    AfterStepsSame(c, t, before, committed);
  }

  // --- stage 1 and stage 2 back to back ---

  lemma StageOneAccepted(s: Json, l: Ledger, cal: Json, ch: string, trace: V.Trace)
    requires hide *; Represents(s, l) && Sound(l.flights)
    requires ch in l.flights && l.flights[ch].stage == SIGNED && l.flights[ch].agent == V.StrOr(cal.Get("agent_id"), "")
    requires V.ValidateToValidated(cal, ch, s, trace).Ok?
    requires V.ValidateToValidated(cal, ch, s, trace).value.terminal.None?
    ensures var c, events := V.BuildContext(cal, ch, s, trace), V.ValidateToValidated(cal, ch, s, trace).value.events;
      && events == [V.ValidatedEvent(c)] && V.PhaseA(c) == Ok(None)
      && Materialize(Rust, s, events).Ok?
      && var s1, f, e := Materialize(Rust, s, events).value, l.flights[ch], Gas.EscrowRequirement(cal, s);
      && SameOutside(s, s1) && e <= At(l.balances, f.agent)
      && Folds(s, l, events, s1, Escrowed(l, ch, e))
  {
    ContextFields(cal, ch, s, trace);
    hide V.BuildContext; hide V.PhaseA; hide Represents; hide Sound; hide Supply; hide Materialize; hide LedgerAfter;
    hide SameOutside;
    hide Balance; hide Gas.EscrowRequirement; hide V.IdNotes; hide V.StrOr; hide Folds;
    var c := V.BuildContext(cal, ch, s, trace);
    PhaseAShape(c);
    ValidatedAccepted(s, l, ch, V.ValidatedEvent(c), Gas.EscrowRequirement(cal, s));
  }

  /** Staged equals atomic: when stage 1 reaches VALIDATED, resuming at once with the same trace on
      the state it left gives the verdict, the events and the final state of one atomic validation. */
  lemma StagedIsAtomic(s: Json, l: Ledger, cal: Json, ch: string, trace: V.Trace)
    requires hide *; Represents(s, l) && Sound(l.flights)
    requires ch in l.flights && l.flights[ch].stage == SIGNED && l.flights[ch].agent == V.StrOr(cal.Get("agent_id"), "")
    requires V.ValidateToValidated(cal, ch, s, trace).Ok?
    requires V.ValidateToValidated(cal, ch, s, trace).value.terminal.None?
    ensures var first := V.ValidateToValidated(cal, ch, s, trace).value.events;
      && Materialize(Rust, s, first).Ok?
      && var s1 := Materialize(Rust, s, first).value;
      match V.ResumeFromValidated(cal, ch, s1, trace)
      case Err(e) => V.Validate(cal, ch, s, trace) == Err(e)
      case Ok(v) =>
        && V.Validate(cal, ch, s, trace) == Ok(v.(events := first + v.events))
        && (Materialize(Rust, s, first + v.events).Ok? <==> Materialize(Rust, s1, v.events).Ok?)
        && (Materialize(Rust, s, first + v.events).Ok?
          ==> Materialize(Rust, s, first + v.events) == Materialize(Rust, s1, v.events))
  {
    hide *;
    StageOneAccepted(s, l, cal, ch, trace);
    ContextFields(cal, ch, s, trace);
    var c, first := V.BuildContext(cal, ch, s, trace), V.ValidateToValidated(cal, ch, s, trace).value.events;
    var s1 := Materialize(Rust, s, first).value;
    ContextSame(cal, ch, s, s1, trace);
    PhaseBSame(c, s1, first);
    StagesUnfold(cal, ch, s, s1, trace, first);
    var r := V.ResumeFromValidated(cal, ch, s1, trace);
    if r.Ok? {
      FoldSplit(Rust, s, first, r.value.events);
    }
  }

  lemma StagesUnfold(cal: Json, ch: string, s: Json, s1: Json, trace: V.Trace, first: seq<Event>)
    requires V.PhaseA(V.BuildContext(cal, ch, s, trace)) == Ok(None)
    requires first == [V.ValidatedEvent(V.BuildContext(cal, ch, s, trace))]
    ensures V.Validate(cal, ch, s, trace) == V.PhaseB(V.BuildContext(cal, ch, s, trace), first)
    ensures V.ResumeFromValidated(cal, ch, s1, trace) == V.PhaseB(V.BuildContext(cal, ch, s1, trace), [])
    ensures forall r, u :: SameButPrefix(r, first, u) ==>
      match u case Err(e) => r == Err(e) case Ok(v) => r == Ok(v.(events := first + v.events))
  {
    hide V.BuildContext; hide V.PhaseA; hide V.PhaseB; hide V.ValidatedEvent;
  }

  // --- a late resume ---

  /** Nothing in the log is about this CAL. */
  predicate Elsewhere(log: seq<Event>, ch: string) {
    forall i :: 0 <= i < |log| && Lifecycle.TypeOf(log[i]).Some? ==> log[i].ch != ch
  }

  lemma FlightStaysOnce(l: Ledger, ev: Event, ch: string)
    requires Step(l, ev).Ok? && ch in l.flights && (Lifecycle.TypeOf(ev).Some? ==> ev.ch != ch)
    ensures ch in Step(l, ev).value.flights && Step(l, ev).value.flights[ch] == l.flights[ch]
  {
    if Lifecycle.TypeOf(ev).Some? {
      Lifecycle.MovesFollowTable(l, ev);
    } else {
      FlightsKept(l, ev);
    }
    hide Step;
  }

  lemma {:induction false} FlightStays(l: Ledger, log: seq<Event>, ch: string)
    requires ch in l.flights && Elsewhere(log, ch)
    ensures ch in LedgerAfter(l, log).flights && LedgerAfter(l, log).flights[ch] == l.flights[ch]
    decreases |log|
  {
    hide Step;
    if log != [] {
      var n := |log| - 1;
      FlightStays(l, log[..n], ch);
      if Step(LedgerAfter(l, log[..n]), log[n]).Ok? {
        FlightStaysOnce(LedgerAfter(l, log[..n]), log[n], ch);
      }
    }
  }

  lemma EscrowByFee(cal: Json, s: Json, t: Json)
    requires Gas.FlatFee(s) == Gas.FlatFee(t)
    ensures Gas.EscrowRequirement(cal, s) == Gas.EscrowRequirement(cal, t)
    ensures Gas.MaxGas(cal, Gas.FlatFee(t)) <= Gas.EscrowRequirement(cal, s)
  {
    hide Gas.FlatFee; hide Gas.MaxGas;
  }

  /** Resuming a CAL whose escrow was taken at the flat fee of the present snapshot. */
  lemma ResumeCovered(t: Json, m: Ledger, cal: Json, ch: string, s0: Json, trace: V.Trace)
    requires hide *; Represents(t, m) && Sound(m.flights) && Supply(m) <= UINT256_MAX
    requires ch in m.flights && m.flights[ch].stage == VALIDATED
    requires m.flights[ch].escrow == Gas.EscrowRequirement(cal, s0) && Gas.FlatFee(t) == Gas.FlatFee(s0)
    requires SafeTrace(trace) && V.ResumeFromValidated(cal, ch, t, trace).Ok?
    ensures var v, c := V.ResumeFromValidated(cal, ch, t, trace).value, V.BuildContext(cal, ch, t, trace);
      && v.bill.gasRefunded + v.bill.totalAgentCharge == m.flights[ch].escrow
      && v.bill.totalAgentCharge == Gas.FlatFee(s0) + v.bill.dynamicGasConsumed
      && (Materialize(Rust, t, v.events).Ok? <==> Commits(t, c, v.terminal))
      && (Materialize(Rust, t, v.events).Ok? ==>
          && Folds(t, m, v.events, Materialize(Rust, t, v.events).value, LedgerAfter(m, v.events))
          && Settled(m, LedgerAfter(m, v.events), ch, m.flights[ch].agent, v.bill.gasRefunded, v.bill.totalAgentCharge)
          && OutsideAfter(t, Materialize(Rust, t, v.events).value, c, v.terminal))
      && (trace.currentTick > c.expiration ==> v.bill.totalAgentCharge == Gas.FlatFee(s0))
  {
    ContextFields(cal, ch, t, trace);
    ContextTick(cal, ch, t, trace);
    hide V.BuildContext; hide V.PhaseB; hide Represents; hide Sound; hide Supply; hide Materialize; hide LedgerAfter;
    hide SameOutside; hide V.StrOr; hide Gas.EscrowRequirement; hide SafeTrace; hide BillSplits;
    hide Gas.FlatFee; hide OutsideAfter; hide Settled; hide Commits; hide Gas.MaxGas; hide Folds;
    var c := V.BuildContext(cal, ch, t, trace);
    EscrowByFee(cal, s0, t);
    SoundEscrow(m, ch);
    SplitBill(c);
    ResumeSettles(t, m, c);
    BillAdds(c, V.PhaseB(c, []).value);
  }

  lemma ContextTick(cal: Json, ch: string, s: Json, trace: V.Trace)
    ensures V.BuildContext(cal, ch, s, trace).tick == trace.currentTick
  {
  }

  lemma BillAdds(c: V.Context, v: V.Verdict)
    requires BillSplits(c, v)
    ensures v.bill.totalAgentCharge + v.bill.gasRefunded
      == Gas.FlatFee(c.snapshot) + Gas.MaxGas(c.cal, Gas.FlatFee(c.snapshot))
    ensures v.bill.totalAgentCharge + v.bill.gasRefunded == Gas.EscrowRequirement(c.cal, c.snapshot)
    ensures v.bill.totalAgentCharge == Gas.FlatFee(c.snapshot) + v.bill.dynamicGasConsumed
  {
    hide Gas.FlatFee; hide Gas.MaxGas;
  }

  /** The escrow covers a late resume. Between stage 1 and stage 2 any accepted events of other CALs,
      transfers, feeds and ticks may come. If the flat fee is the one of stage 1, the reducer accepts
      the events of the resumed phase exactly when the effects of a CAL that finalizes commit; the
      refund is within the escrow, and the treasury gains the total charge, which is the fee plus the
      gas consumed, or the fee alone when the CAL has expired. */
  lemma LateResume(s0: Json, l0: Ledger, cal: Json, ch: string, trace0: V.Trace, log: seq<Event>, trace: V.Trace)
    requires hide *; Represents(s0, l0) && Sound(l0.flights) && Supply(l0) <= UINT256_MAX
    requires ch in l0.flights && l0.flights[ch].stage == SIGNED
    requires l0.flights[ch].agent == V.StrOr(cal.Get("agent_id"), "")
    requires V.ValidateToValidated(cal, ch, s0, trace0).Ok?
    requires V.ValidateToValidated(cal, ch, s0, trace0).value.terminal.None?
    requires SafeLog(log) && Elsewhere(log, ch)
    requires Materialize(Rust, s0, V.ValidateToValidated(cal, ch, s0, trace0).value.events + log).Ok?
    requires var t := Materialize(Rust, s0, V.ValidateToValidated(cal, ch, s0, trace0).value.events + log).value;
      && Gas.FlatFee(t) == Gas.FlatFee(s0)
      && SafeTrace(trace) && V.ResumeFromValidated(cal, ch, t, trace).Ok?
    ensures var before := V.ValidateToValidated(cal, ch, s0, trace0).value.events + log;
      var t, m := Materialize(Rust, s0, before).value, LedgerAfter(l0, before);
      var v, c := V.ResumeFromValidated(cal, ch, t, trace).value, V.BuildContext(cal, ch, t, trace);
      && v.bill.gasRefunded + v.bill.totalAgentCharge == Gas.EscrowRequirement(cal, s0)
      && v.bill.totalAgentCharge == Gas.FlatFee(s0) + v.bill.dynamicGasConsumed
      && (Materialize(Rust, t, v.events).Ok? <==> Commits(t, c, v.terminal))
      && (Materialize(Rust, t, v.events).Ok? ==>
          && Settled(m, LedgerAfter(m, v.events), ch, l0.flights[ch].agent, v.bill.gasRefunded, v.bill.totalAgentCharge)
          && OutsideAfter(t, Materialize(Rust, t, v.events).value, c, v.terminal))
      && (trace.currentTick > c.expiration ==> v.bill.totalAgentCharge == Gas.FlatFee(s0))
  {
    hide *;
    StageOneAccepted(s0, l0, cal, ch, trace0);
    var first := V.ValidateToValidated(cal, ch, s0, trace0).value.events;
    var s1, l1 := Materialize(Rust, s0, first).value, Escrowed(l0, ch, Gas.EscrowRequirement(cal, s0));
    FoldsFacts(s0, l0, first, s1, l1);
    FoldSplit(Rust, s0, first, log);
    LedgerSplit(l0, first, log);
    RunKeeps(s1, l1, log);
    FlightStays(l1, log, ch);
    ResumeCovered(Materialize(Rust, s1, log).value, LedgerAfter(l1, log), cal, ch, s0, trace);
  }

  lemma SplitBill(c: V.Context)
    ensures hide *; var r := V.PhaseB(c, []);
      r.Ok? ==>
        && BillSplits(c, r.value)
        && (c.tick > c.expiration ==> r.value.bill.gasRefunded == Gas.MaxGas(c.cal, Gas.FlatFee(c.snapshot)))
  {
    PhaseBShape(c, []);
    PostExpireShape(c, []);
    hide V.RunSteps; hide V.AfterSteps; hide V.ExecFail; hide V.PostExpire; hide BillSplits;
  }
}
