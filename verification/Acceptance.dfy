/** The reducer accepts the validator: every event the validator emits is applied, in order, and the
    money moves exactly as the bill says. */
module Acceptance {
  import opened Wrappers
  import opened JsonTree
  import opened Events
  import opened Deltas
  import opened Reducer
  import opened Ports
  import opened Ledgers
  import opened LedgerStep
  import opened Conservation
  import opened Runs
  import V = Validator
  import Gas

  /** A log applied from (s, l) to (t, m), tree and ledger in step. */
  ghost predicate Folds(s: Json, l: Ledger, log: seq<Event>, t: Json, m: Ledger) {
    && Materialize(Rust, s, log) == Ok(t)
    && LedgerAfter(l, log) == m
    && Represents(t, m) && Sound(m.flights) && Supply(m) == Supply(l)
  }

  lemma FoldsNothing(s: Json, l: Ledger)
    requires Represents(s, l) && Sound(l.flights)
    ensures Folds(s, l, [], s, l)
  {
  }

  lemma FoldsOne(s: Json, l: Ledger, log: seq<Event>, t: Json, m: Ledger, ev: Event)
    requires hide *; Folds(s, l, log, t, m) && SafeEvent(ev) && !ev.TickAdvanced? && !CommitFails(t, m, ev)
    ensures Step(m, ev).Ok? ==>
      && Apply(t, ev).Ok?
      && Folds(s, l, log + [ev], Apply(t, ev).value, Step(m, ev).value)
      && (!TouchesOutside(ev) ==> SameOutside(t, Apply(t, ev).value))
      && (ev.CalFinalized? ==>
          ev.ch in m.flights && Commit(t, m.flights[ev.ch].staged).Ok? &&
          SameOutside(Commit(t, m.flights[ev.ch].staged).value, Apply(t, ev).value))
    ensures Step(m, ev).Err? ==> Materialize(Rust, s, log + [ev]).Err?
  {
    hide Represents; hide Sound; hide Supply; hide Apply; hide Step; hide SameOutside; hide SafeEvent;
    hide CommitFails; hide Commit;
    assert (log + [ev])[..|log|] == log && (log + [ev])[|log|] == ev;
    Refines(t, m, ev);
    if Step(m, ev).Ok? {
      StepKeepsSound(m, ev);
      StepConserves(m, ev);
    }
  }

  /** A CAL has left: one nonce, one balance and the fee window moved, nothing else on the ledger. */
  ghost predicate Settled(l: Ledger, m: Ledger, ch: string, agent: string, gain: int, kept: int) {
    && (forall a :: At(m.balances, a) == At(l.balances, a) + if a == agent then gain else 0)
    && m.fees == l.fees + kept
    && (forall a :: At(m.nonces, a) == At(l.nonces, a) + if a == agent then 1 else 0)
    && m.flights == l.flights - {ch}
  }

  lemma ReleaseSettles(l: Ledger, ch: string, refund: nat)
    requires ch in l.flights && Supply(l) <= UINT256_MAX
    ensures var f := l.flights[ch]; var r := Released(l, ch, f, refund);
      if refund <= f.escrow then r.Ok? && Settled(l, r.value, ch, f.agent, refund, f.escrow - refund) else r.Err?
  {
    hide Supply;
    ReleaseConserves(l, ch, refund);
  }

  lemma ChargeSettles(l: Ledger, ch: string, charge: nat)
    requires ch in l.flights && l.flights[ch].escrow == 0 && Supply(l) <= UINT256_MAX
    requires charge <= At(l.balances, l.flights[ch].agent)
    ensures var f := l.flights[ch]; var r := Charged(l, ch, f.agent, charge);
      r.Ok? && Settled(l, r.value, ch, f.agent, 0 - charge, charge)
  {
    hide Supply;
    ChargeConserves(l, ch, charge);
  }

  lemma ReleasedOnly(l: Ledger, ch: string, refund: nat)
    requires ch in l.flights && Released(l, ch, l.flights[ch], refund).Ok?
    ensures var f, m := l.flights[ch], Released(l, ch, l.flights[ch], refund).value;
      At(m.balances, f.agent) == At(l.balances, f.agent) + refund
        && Settled(l, m, ch, f.agent, refund, f.escrow - refund)
  {
  }

  lemma ChargedOnly(l: Ledger, ch: string, charge: nat)
    requires ch in l.flights && l.flights[ch].escrow == 0 && Charged(l, ch, l.flights[ch].agent, charge).Ok?
    ensures var f, m := l.flights[ch], Charged(l, ch, l.flights[ch].agent, charge).value;
      At(m.balances, f.agent) == At(l.balances, f.agent) - charge && Settled(l, m, ch, f.agent, 0 - charge, charge)
  {
  }

  lemma FailedOnly(l: Ledger, ev: Event)
    requires hide *; (ev.CalFailed? || ev.CalExpired?) && Step(l, ev).Ok? && Sound(l.flights)
    ensures ev.ch in l.flights
    ensures var f, m := l.flights[ev.ch], Step(l, ev).value;
      var gain := At(m.balances, f.agent) - At(l.balances, f.agent);
      Settled(l, m, ev.ch, f.agent, gain, f.escrow - gain)
  {
    hide Sound; hide UINT256_MAX; hide Released; hide Charged; hide Settled;
    SoundEscrow(l, ev.ch);
    if ev.feeDebited.Some? && l.flights[ev.ch].escrow == 0
        && Charged(l, ev.ch, l.flights[ev.ch].agent, ev.feeDebited.value).Ok? {
      ChargedOnly(l, ev.ch, ev.feeDebited.value);
    }
    if ev.refund.Some? && Released(l, ev.ch, l.flights[ev.ch], ev.refund.value).Ok? {
      ReleasedOnly(l, ev.ch, ev.refund.value);
    }
  }

  /** A CAL that fails or expires, from whatever stage, changes its own entry, its agent's balance and
      nonce and the fee window; its escrow is split between agent and treasury. */
  lemma FailureTouchesOnly(s: Json, l: Ledger, ev: Event)
    requires hide *; Represents(s, l) && Sound(l.flights) && (ev.CalFailed? || ev.CalExpired?) && Apply(s, ev).Ok?
    ensures Step(l, ev).Ok? && ev.ch in l.flights
    ensures var f, t, m := l.flights[ev.ch], Apply(s, ev).value, Step(l, ev).value;
      var gain := At(m.balances, f.agent) - At(l.balances, f.agent);
      && Represents(t, m) && Settled(l, m, ev.ch, f.agent, gain, f.escrow - gain)
      && SameOutside(s, t)
  {
    hide Represents; hide Sound; hide Apply; hide Step; hide SameOutside; hide Settled; hide Commit;
    Refines(s, l, ev);
    FailedOnly(l, ev);
  }

  // --- what phase B emits ---

  function Committed(c: V.Context): seq<Json> {
    hide *;
    V.RunSteps(c, 0, []).1
  }

  predicate SafeTrace(trace: V.Trace) {
    forall i :: 0 <= i < |trace.steps| ==> SafeDeltas(trace.steps[i].effects)
  }

  lemma {:induction false} StepsSafe(c: V.Context, i: nat, committed: seq<Json>)
    requires SafeTrace(c.trace) && SafeDeltas(committed)
    ensures SafeDeltas(V.RunSteps(c, i, committed).1)
    decreases |V.Steps(c)| - i
  {
    hide SafeDelta; hide V.PostConditions; hide V.Steps;
    if i < |V.Steps(c)| && i < |c.trace.steps| && c.trace.steps[i].ok {
      StepsSafe(c, i + 1, committed + c.trace.steps[i].effects);
    }
  }

  /** A terminal event after VALIDATED that gives back the refund and commits nothing. */
  predicate Drops(ev: Event, ch: string, refund: nat) {
    (ev.CalFailed? || ev.CalExpired?) && ev.ch == ch && ev.refund == Some(refund)
  }

  predicate Executes(ev: Event, c: V.Context) {
    hide *;
    && ev.CalExecuted? && ev.ch == c.ch && ev.effects == Some(Committed(c))
    && ev.gas.Some? && ev.gas.value <= c.maxGas
  }

  predicate Finalizes(ev: Event, ch: string, refund: nat) {
    ev.CalFinalized? && ev.ch == ch && ev.refund == Some(refund)
  }

  /** The four shapes of a phase B event list. */
  predicate TailShape(c: V.Context, tail: seq<Event>, v: V.Verdict) {
    hide *;
    var refund := v.bill.gasRefunded;
    || (v.terminal != V.FINALIZED && |tail| == 1 && Drops(tail[0], c.ch, refund))
    || (v.terminal != V.FINALIZED && |tail| == 2 && Executes(tail[0], c) && Drops(tail[1], c.ch, refund))
    || (v.terminal == V.FINALIZED && |tail| == 3 && Executes(tail[0], c) && tail[1] == CalSettled(c.ch)
        && Finalizes(tail[2], c.ch, refund))
  }

  /** After VALIDATED, charge and refund split the fee and the gas budget of the snapshot, and the
      charge is the fee plus the gas consumed. */
  predicate BillSplits(c: V.Context, v: V.Verdict) {
    && v.bill.totalAgentCharge + v.bill.gasRefunded == Gas.EscrowRequirement(c.cal, c.snapshot)
    && v.bill.totalAgentCharge == v.bill.feeRetained + v.bill.dynamicGasConsumed
    && v.bill.feeRetained == Gas.FlatFee(c.snapshot)
  }

  lemma PostExpireShape(c: V.Context, before: seq<Event>)
    ensures hide *; var r := V.PostExpire(c, before);
      r.Ok? && |r.value.events| == |before| + 1 && r.value.events[..|before|] == before
      && r.value.terminal == V.EXPIRED && Drops(r.value.events[|before|], c.ch, r.value.bill.gasRefunded)
      && BillSplits(c, r.value)
      && r.value.bill.gasRefunded == Gas.MaxGas(c.cal, Gas.FlatFee(c.snapshot))
  {
    Gas.BillAddsUp(Gas.ExpiredPost, c.cal, c.snapshot, 0, 0);
    hide Gas.FlatFee; hide Gas.MaxGas; hide V.ExpiredNotes; hide Gas.EscrowRequirement; hide Gas.ConsumedBill;
  }

  lemma ExecFailShape(c: V.Context, before: seq<Event>, reason: V.Reason, committed: seq<Json>)
    ensures hide *; var r := V.ExecFail(c, before, reason, committed);
      r.Ok? ==>
        && |r.value.events| == |before| + 1 && r.value.events[..|before|] == before
        && r.value.terminal == V.FAILED && Drops(r.value.events[|before|], c.ch, r.value.bill.gasRefunded)
        && BillSplits(c, r.value)
  {
    hide Gas.EffectsBytes; hide Gas.Settle; hide V.FailedNotes; hide Gas.EscrowRequirement;
    if Gas.EffectsBytes(committed).Ok? {
      Gas.BillAddsUp(Gas.FailedExec, c.cal, c.snapshot, Gas.EffectsBytes(committed).value, c.ownerAuth);
    }
  }

  lemma FinishShape(c: V.Context, before: seq<Event>, bytes: nat, consumed: nat)
    ensures hide *; var r := V.Finish(c, before, bytes, consumed);
      r.Ok? ==>
        && |r.value.events| == |before| + 2 && r.value.events[..|before|] == before
        && r.value.terminal == V.FINALIZED && r.value.events[|before|] == CalSettled(c.ch)
        && Finalizes(r.value.events[|before| + 1], c.ch, r.value.bill.gasRefunded) && BillSplits(c, r.value)
  {
    hide Gas.Settle; hide V.FinalizedNotes; hide Gas.EscrowRequirement; hide V.EffectiveInvariants; hide V.Steps;
    Gas.BillAddsUp(Gas.Finalized, c.cal, c.snapshot, bytes, c.ownerAuth);
  }

  lemma Extends(before: seq<Event>, ev: Event, r: Result<V.Verdict, Gas.GasError>)
    ensures r.Ok? && |before| < |r.value.events| && r.value.events[..|before| + 1] == before + [ev] ==>
      && r.value.events[..|before|] == before
      && r.value.events[|before|..][0] == ev
      && forall i :: 1 <= i < |r.value.events| - |before| ==>
        r.value.events[|before|..][i] == r.value.events[|before| + i]
  {
    if r.Ok? && |before| < |r.value.events| && r.value.events[..|before| + 1] == before + [ev] {
      assert r.value.events[..|before| + 1][..|before|] == before;
      assert r.value.events[..|before| + 1][|before|] == ev;
    }
  }

  lemma AfterStepsShape(c: V.Context, before: seq<Event>, committed: seq<Json>)
    requires hide *; committed == Committed(c)
    ensures var r := V.AfterSteps(c, before, committed);
      r.Ok? ==>
        && |before| <= |r.value.events| && r.value.events[..|before|] == before
        && TailShape(c, r.value.events[|before|..], r.value) && BillSplits(c, r.value)
  {
    hide Gas.EffectsBytes; hide V.RawGas; hide V.ExecFail; hide V.Finish; hide V.PostExpire; hide V.InvariantsHold;
    hide Committed; hide BillSplits; hide V.IdNotes; hide Gas.FlatFee; hide Gas.MaxGas;
    var bytes := Gas.EffectsBytes(committed);
    if bytes.Ok? && V.RawGas(c, bytes.value).Ok? {
      var raw := V.RawGas(c, bytes.value).value;
      var ev := CalExecuted(c.ch, Some(committed), Some(raw), V.IdNotes(c));
      var executed := before + [ev];
      ExecFailShape(c, before, V.OUT_OF_GAS, committed);
      ExecFailShape(c, executed, V.INVARIANT_FALSE, committed);
      PostExpireShape(c, executed);
      FinishShape(c, executed, bytes.value, raw);
      Extends(before, ev, V.AfterSteps(c, before, committed));
    }
  }

  lemma PhaseBShape(c: V.Context, before: seq<Event>)
    ensures hide *; var r := V.PhaseB(c, before);
      r.Ok? ==>
        && |before| <= |r.value.events| && r.value.events[..|before|] == before
        && TailShape(c, r.value.events[|before|..], r.value) && BillSplits(c, r.value)
  {
    hide V.RunSteps; hide V.ExecFail; hide V.AfterSteps; hide V.PostExpire; hide BillSplits; hide Gas.FlatFee;
    hide Gas.MaxGas;
    hide Executes;
    PostExpireShape(c, before);
    var (stop, committed) := V.RunSteps(c, 0, []);
    if stop.Some? { ExecFailShape(c, before, stop.value, committed); }
    CommittedUnfolds(c);
    AfterStepsShape(c, before, committed);
  }

  lemma CommittedUnfolds(c: V.Context)
    ensures hide *; Committed(c) == V.RunSteps(c, 0, []).1
  {
  }

  // --- one event after the other ---

  lemma DropsStep(l: Ledger, ch: string, ev: Event, refund: nat)
    requires hide *; Sound(l.flights) && Supply(l) <= UINT256_MAX && Drops(ev, ch, refund) && ch in l.flights
    requires !(l.flights[ch].stage in {CREATED, SIGNED})
    ensures var f := l.flights[ch];
      if refund <= f.escrow then Step(l, ev).Ok?
        && Settled(l, Step(l, ev).value, ch, f.agent, refund, f.escrow - refund)
      else Step(l, ev).Err?
    ensures !TouchesOutside(ev) && SafeEvent(ev)
  {
    hide Supply; hide Released; hide Settled; hide Sound;
    ReleaseSettles(l, ch, refund);
    SoundEscrow(l, ch);
  }

  lemma SoundEscrow(l: Ledger, ch: string)
    requires Sound(l.flights) && ch in l.flights
    ensures l.flights[ch].escrow <= UINT256_MAX && SafeDeltas(l.flights[ch].staged)
    ensures l.flights[ch].stage in {CREATED, SIGNED} ==> l.flights[ch].escrow == 0
  {
    assert SoundFlight(l.flights[ch]);
  }

  lemma FinalizesStep(l: Ledger, ch: string, ev: Event, refund: nat)
    requires hide *; Sound(l.flights) && Supply(l) <= UINT256_MAX && Finalizes(ev, ch, refund) && ch in l.flights
    requires l.flights[ch].stage == SETTLED
    ensures var f := l.flights[ch];
      if refund <= f.escrow then Step(l, ev).Ok?
        && Settled(l, Step(l, ev).value, ch, f.agent, refund, f.escrow - refund)
      else Step(l, ev).Err?
  {
    hide Supply; hide Released; hide Settled; hide Sound;
    ReleaseSettles(l, ch, refund);
    SoundEscrow(l, ch);
  }

  /** The flight that cal.executed leaves behind. */
  function Staged(f: Flight, ev: Event): Flight
    requires ev.CalExecuted? && ev.effects.Some? && ev.gas.Some?
  {
    f.(stage := EXECUTED, staged := ev.effects.value, gas := ev.gas.value)
  }

  lemma ExecutesStep(l: Ledger, ev: Event, c: V.Context)
    requires Executes(ev, c) && c.maxGas <= UINT256_MAX && SafeTrace(c.trace)
    requires c.ch in l.flights && l.flights[c.ch].stage == VALIDATED
    ensures Step(l, ev) == Ok(l.(flights := l.flights[c.ch := Staged(l.flights[c.ch], ev)]))
    ensures SafeEvent(ev) && !TouchesOutside(ev)
  {
    StepsSafe(c, 0, []);
    hide V.RunSteps; hide SafeDelta;
  }

  lemma DropAgain(fl: map<string, Flight>, ch: string, f: Flight)
    ensures fl[ch := f] - {ch} == fl - {ch}
  {
  }

  /** What a CAL leaves of the outside: its effects if it is finalized, nothing otherwise. */
  ghost predicate OutsideAfter(s: Json, t: Json, c: V.Context, terminal: V.Terminal) {
    hide *;
    if terminal.FINALIZED? then Commit(s, Committed(c)).Ok? && SameOutside(Commit(s, Committed(c)).value, t)
    else SameOutside(s, t)
  }

  /** The staged effects commit, if it comes to that. */
  predicate Commits(s: Json, c: V.Context, terminal: V.Terminal) {
    terminal.FINALIZED? ==> Commit(s, Committed(c)).Ok?
  }

  lemma DropAccepted(s: Json, l: Ledger, log: seq<Event>, t: Json, m: Ledger, ch: string, ev: Event, refund: nat)
    requires hide *; Folds(s, l, log, t, m) && Supply(l) <= UINT256_MAX && SameOutside(s, t)
    requires Drops(ev, ch, refund) && ch in m.flights && !(m.flights[ch].stage in {CREATED, SIGNED})
    ensures Materialize(Rust, s, log + [ev]).Ok? <==> refund <= m.flights[ch].escrow
    ensures Materialize(Rust, s, log + [ev]).Ok? ==>
      var f, u, n := m.flights[ch], Materialize(Rust, s, log + [ev]).value, LedgerAfter(l, log + [ev]);
      Folds(s, l, log + [ev], u, n) && SameOutside(s, u) && Settled(m, n, ch, f.agent, refund, f.escrow - refund)
  {
    hide Represents; hide Sound; hide Supply; hide Apply; hide Step; hide SameOutside; hide Settled;
    hide Materialize; hide LedgerAfter;
    DropsStep(m, ch, ev, refund);
    FoldsOne(s, l, log, t, m, ev);
    if Step(m, ev).Ok? {
      SameOutsideTransitive(s, t, Apply(t, ev).value);
    }
  }

  /** From cal.executed to cal.finalized. */
  lemma FinishAccepted(s: Json, l: Ledger, log: seq<Event>, t: Json, m: Ledger, ch: string, ev: Event, refund: nat)
    requires hide *; Folds(s, l, log, t, m) && Supply(l) <= UINT256_MAX && SameOutside(s, t)
    requires Finalizes(ev, ch, refund) && ch in m.flights && m.flights[ch].stage == SETTLED
    ensures Materialize(Rust, s, log + [ev]).Ok?
      <==> refund <= m.flights[ch].escrow && Commit(s, m.flights[ch].staged).Ok?
    ensures Materialize(Rust, s, log + [ev]).Ok? ==>
      var f, u, n := m.flights[ch], Materialize(Rust, s, log + [ev]).value, LedgerAfter(l, log + [ev]);
      && Commit(s, f.staged).Ok?
      && Folds(s, l, log + [ev], u, n) && SameOutside(Commit(s, f.staged).value, u)
      && Settled(m, n, ch, f.agent, refund, f.escrow - refund)
  {
    hide Represents; hide Sound; hide Supply; hide Apply; hide Step; hide SameOutside; hide Settled;
    hide Materialize; hide LedgerAfter;
    hide Commit;
    var staged := m.flights[ch].staged;
    FinalizesStep(m, ch, ev, refund);
    SoundEscrow(m, ch);
    CommitCongruent(s, t, staged);
    CommitOutcome(Commit(s, staged), Commit(t, staged));
    if Commit(t, staged).Err? {
      CommitRejected(s, l, log, t, m, ev);
    } else {
      FoldsOne(s, l, log, t, m, ev);
      if Step(m, ev).Ok? {
        SameOutsideTransitive(Commit(s, staged).value, Commit(t, staged).value, Apply(t, ev).value);
      }
    }
  }

  /** A finalization whose staged effects do not commit is rejected. */
  lemma CommitRejected(s: Json, l: Ledger, log: seq<Event>, t: Json, m: Ledger, ev: Event)
    requires Folds(s, l, log, t, m) && CommitFails(t, m, ev)
    ensures Materialize(Rust, s, log + [ev]).Err?
  {
    hide Represents; hide Sound; hide Supply; hide Apply; hide Commit;
    assert (log + [ev])[..|log|] == log && (log + [ev])[|log|] == ev;
    FinalizedRefines(t, m, ev);
  }

  lemma CommitOutcome(r: Result<Json, Code>, u: Result<Json, Code>)
    requires SameOutcome(r, u)
    ensures r.Ok? <==> u.Ok?
    ensures r.Ok? ==> SameOutside(r.value, u.value)
  {
  }

  lemma ExecutedAccepted(s: Json, l: Ledger, ev: Event, c: V.Context)
    requires Represents(s, l) && Sound(l.flights) && SafeTrace(c.trace) && c.maxGas <= UINT256_MAX
    requires Executes(ev, c) && c.ch in l.flights && l.flights[c.ch].stage == VALIDATED
    ensures Materialize(Rust, s, [ev]).Ok?
    ensures var t, f := Materialize(Rust, s, [ev]).value, Staged(l.flights[c.ch], ev);
      SameOutside(s, t) && Folds(s, l, [ev], t, l.(flights := l.flights[c.ch := f]))
  {
    hide Represents; hide Sound; hide Supply; hide Apply; hide Step; hide SameOutside; hide Materialize;
    hide LedgerAfter; hide Executes;
    hide SafeTrace; hide Staged;
    ExecutesStep(l, ev, c);
    FoldsNothing(s, l);
    FoldsOne(s, l, [], s, l, ev);
    assert [] + [ev] == [ev];
  }

  lemma SettledAccepted(s: Json, l: Ledger, log: seq<Event>, t: Json, m: Ledger, ch: string)
    requires hide *; Folds(s, l, log, t, m) && SameOutside(s, t) && ch in m.flights && m.flights[ch].stage == EXECUTED
    ensures Materialize(Rust, s, log + [CalSettled(ch)]).Ok?
    ensures var u := Materialize(Rust, s, log + [CalSettled(ch)]).value;
      SameOutside(s, u)
        && Folds(s, l, log + [CalSettled(ch)], u, m.(flights := m.flights[ch := m.flights[ch].(stage := SETTLED)]))
  {
    hide Represents; hide Sound; hide Supply; hide Apply; hide Step; hide SameOutside; hide Materialize;
    hide LedgerAfter;
    SettledStep(t, m, ch);
    FoldsOne(s, l, log, t, m, CalSettled(ch));
    if Apply(t, CalSettled(ch)).Ok? { SameOutsideTransitive(s, t, Apply(t, CalSettled(ch)).value); }
  }

  lemma SettledStep(t: Json, m: Ledger, ch: string)
    requires hide *; ch in m.flights && m.flights[ch].stage == EXECUTED
    ensures var ev := CalSettled(ch);
      && Step(m, ev) == Ok(m.(flights := m.flights[ch := m.flights[ch].(stage := SETTLED)]))
      && SafeEvent(ev) && !TouchesOutside(ev) && !ev.TickAdvanced? && !CommitFails(t, m, ev)
  {
  }

  /** Resuming from VALIDATED, on whatever snapshot the validator saw: the reducer takes the whole
      list exactly when the refund is within the escrow and the effects of a CAL that finalizes
      commit, and then the CAL is gone, its agent has the
      refund, the treasury the rest, and the outside has the effects of a finalized CAL only. */
  lemma ResumeSettles(s: Json, l: Ledger, c: V.Context)
    requires hide *; Represents(s, l) && Sound(l.flights) && Supply(l) <= UINT256_MAX
    requires c.ch in l.flights && l.flights[c.ch].stage == VALIDATED
    requires SafeTrace(c.trace) && c.maxGas <= UINT256_MAX
    requires V.PhaseB(c, []).Ok?
    ensures var v, f := V.PhaseB(c, []).value, l.flights[c.ch];
      && (Materialize(Rust, s, v.events).Ok? <==> v.bill.gasRefunded <= f.escrow && Commits(s, c, v.terminal))
      && (Materialize(Rust, s, v.events).Ok? ==>
          var t, m := Materialize(Rust, s, v.events).value, LedgerAfter(l, v.events);
          && Folds(s, l, v.events, t, m)
          && Settled(l, m, c.ch, f.agent, v.bill.gasRefunded, f.escrow - v.bill.gasRefunded)
          && OutsideAfter(s, t, c, v.terminal))
  {
    hide V.PhaseB; hide Represents; hide Sound; hide Supply; hide Materialize; hide LedgerAfter; hide SameOutside;
    hide Commit;
    hide Committed; hide SafeTrace; hide Folds; hide BillSplits;
    PhaseBShape(c, []);
    var v := V.PhaseB(c, []).value;
    assert v.events[..0] == [] && v.events[0..] == v.events;
    TailSettles(s, l, c, v);
  }

  lemma TailSettles(s: Json, l: Ledger, c: V.Context, v: V.Verdict)
    requires hide *; Represents(s, l) && Sound(l.flights) && Supply(l) <= UINT256_MAX
    requires c.ch in l.flights && l.flights[c.ch].stage == VALIDATED
    requires SafeTrace(c.trace) && c.maxGas <= UINT256_MAX
    requires TailShape(c, v.events, v)
    ensures var f := l.flights[c.ch];
      && (Materialize(Rust, s, v.events).Ok? <==> v.bill.gasRefunded <= f.escrow && Commits(s, c, v.terminal))
      && (Materialize(Rust, s, v.events).Ok? ==>
          var t, m := Materialize(Rust, s, v.events).value, LedgerAfter(l, v.events);
          && Folds(s, l, v.events, t, m)
          && Settled(l, m, c.ch, f.agent, v.bill.gasRefunded, f.escrow - v.bill.gasRefunded)
          && OutsideAfter(s, t, c, v.terminal))
  {
    hide Represents; hide Sound; hide Supply; hide Materialize; hide LedgerAfter; hide SameOutside; hide Commit;
    hide Committed; hide SafeTrace; hide Folds; hide Executes; hide Drops; hide Finalizes; hide Settled;
    var tail := v.events;
    if |tail| == 1 {
      assert tail == [] + [tail[0]];
      SameOutsideReflexive(s);
      FoldsNothing(s, l);
      DropAccepted(s, l, [], s, l, c.ch, tail[0], v.bill.gasRefunded);
    } else {
      ExecutedAccepted(s, l, tail[0], c);
      ExecutedFlight(tail[0], c, l.flights[c.ch]);
      var t1, f1 := Materialize(Rust, s, [tail[0]]).value, Staged(l.flights[c.ch], tail[0]);
      var l1 := l.(flights := l.flights[c.ch := f1]);
      DropAgain(l.flights, c.ch, f1);
      if |tail| == 2 {
        assert tail == [tail[0]] + [tail[1]];
        DropAccepted(s, l, [tail[0]], t1, l1, c.ch, tail[1], v.bill.gasRefunded);
        SettledCarry(l, l1, LedgerAfter(l, tail), c.ch, f1.agent, v.bill.gasRefunded, f1.escrow - v.bill.gasRefunded);
      } else {
        SettledAccepted(s, l, [tail[0]], t1, l1, c.ch);
        var log := [tail[0]] + [tail[1]];
        assert tail == log + [tail[2]];
        var f2 := f1.(stage := SETTLED);
        assert l1.flights[c.ch := f2] == l.flights[c.ch := f2];
        DropAgain(l.flights, c.ch, f2);
        var l2 := l1.(flights := l1.flights[c.ch := f2]);
        FinishAccepted(s, l, log, Materialize(Rust, s, log).value, l2, c.ch, tail[2], v.bill.gasRefunded);
        SettledCarry(l, l2, LedgerAfter(l, tail), c.ch, f1.agent, v.bill.gasRefunded, f1.escrow - v.bill.gasRefunded);
      }
    }
  }

  lemma ExecutedFlight(ev: Event, c: V.Context, f: Flight)
    requires hide *; Executes(ev, c)
    ensures ev.CalExecuted? && ev.effects.Some? && ev.gas.Some?
    ensures Staged(f, ev).stage == EXECUTED && Staged(f, ev).escrow == f.escrow && Staged(f, ev).agent == f.agent
    ensures Staged(f, ev).staged == Committed(c)
  {
    hide Committed;
  }

  lemma SettledCarry(l: Ledger, l1: Ledger, m: Ledger, ch: string, agent: string, gain: int, kept: int)
    requires l1 == l.(flights := l1.flights) && l1.flights - {ch} == l.flights - {ch}
    ensures Settled(l1, m, ch, agent, gain, kept) ==> Settled(l, m, ch, agent, gain, kept)
  {
  }

  // --- one atomic validation, from SIGNED to a terminal stage ---

  lemma {:induction false} LedgerSplit(l: Ledger, a: seq<Event>, b: seq<Event>)
    ensures LedgerAfter(l, a + b) == LedgerAfter(LedgerAfter(l, a), b)
    decreases |b|
  {
    hide Step;
    if b == [] {
      assert a + b == a;
    } else {
      var n := |b| - 1;
      assert (a + b)[..|a + b| - 1] == a + b[..n] && (a + b)[|a + b| - 1] == b[n];
      LedgerSplit(l, a, b[..n]);
    }
  }

  /** Before VALIDATED the list is one terminal event that carries what the agent is charged. */
  lemma PhaseAShape(c: V.Context)
    requires hide *; V.PhaseA(c).Ok? && c.agent == V.StrOr(c.cal.Get("agent_id"), "")
    ensures V.PhaseA(c).value.Some? ==>
      var v := V.PhaseA(c).value.value;
      && |v.events| == 1 && (v.events[0].CalFailed? || v.events[0].CalExpired?) && v.events[0].ch == c.ch
      && v.events[0].feeDebited == Some(v.bill.totalAgentCharge) && v.terminal != V.FINALIZED
      && v.bill.totalAgentCharge <= Balance(c.snapshot, c.agent)
    ensures V.PhaseA(c).value.None? ==>
      Gas.AgentId(c.cal) == Some(c.agent) && Balance(c.snapshot, c.agent) >= Gas.EscrowRequirement(c.cal, c.snapshot)
  {
    StopOutcomes(c);
    AgentRead(c.cal);
    Gas.BillAddsUp(Gas.ExpiredPre, c.cal, c.snapshot, 0, 0);
    Gas.BillAddsUp(Gas.FailedNoCharge, c.cal, c.snapshot, 0, 0);
    PrecondCharge(c);
    hide V.FirstStop; hide Gas.Settle; hide V.FailedNotes; hide V.ExpiredNotes; hide Gas.EscrowRequirement;
    hide Gas.AgentId;
    hide Balance; hide V.StrOr;
  }

  lemma AgentRead(cal: Json)
    ensures Gas.AgentId(cal).Some? ==> Gas.AgentId(cal).value == V.StrOr(cal.Get("agent_id"), "")
    ensures Gas.AgentId(cal).None? ==> V.StrOr(cal.Get("agent_id"), "") == ""
  {
  }

  lemma PrecondCharge(c: V.Context)
    requires hide *; c.agent == V.StrOr(c.cal.Get("agent_id"), "")
    ensures var r := Gas.Settle(Gas.FailedPrecond, c.cal, c.snapshot, 0, 0);
      && r.Ok? && r.value.feeRetained == r.value.totalAgentCharge
      && r.value.totalAgentCharge <= Balance(c.snapshot, c.agent)
  {
    AgentRead(c.cal);
    hide Balance; hide Gas.FlatFee; hide Gas.MaxGas; hide Gas.AgentId; hide Gas.ConsumedBill; hide V.StrOr;
  }

  lemma StopOutcomes(c: V.Context)
    ensures match V.FirstStop(c)
      case None => Gas.CanValidate(c.cal, c.snapshot)
      case Some(TooLate) => true
      case Some(Refused(_, outcome)) => outcome == Gas.FailedNoCharge || outcome == Gas.FailedPrecond
  {
    hide V.SignatureGate; hide V.EvalExpr; hide Gas.CanValidate; hide Nonce; hide V.MCP_SCHEMA_HASH; hide V.StrOr;
  }

  lemma ChargeStep(l: Ledger, ch: string, ev: Event, charge: nat)
    requires hide *; Sound(l.flights) && Supply(l) <= UINT256_MAX && ch in l.flights && l.flights[ch].stage == SIGNED
    requires (ev.CalFailed? || ev.CalExpired?) && ev.ch == ch && ev.feeDebited == Some(charge)
    requires charge <= At(l.balances, l.flights[ch].agent) && charge <= UINT256_MAX
    ensures Step(l, ev).Ok? && Settled(l, Step(l, ev).value, ch, l.flights[ch].agent, 0 - charge, charge)
    ensures SafeEvent(ev) && !TouchesOutside(ev)
  {
    hide Supply; hide Charged; hide Settled; hide Sound;
    SoundEscrow(l, ch);
    ChargeSettles(l, ch, charge);
  }

  lemma BalanceRead(s: Json, l: Ledger, a: string)
    requires Represents(s, l)
    ensures Balance(s, a) == At(l.balances, a)
  {
    hide SetBalance; hide SameOutside;
    PutBalance(s, l, a, 0);
  }

  lemma ChargeAccepted(s: Json, l: Ledger, ch: string, ev: Event, charge: nat)
    requires hide *; Represents(s, l) && Sound(l.flights) && Supply(l) <= UINT256_MAX && ch in l.flights
    requires l.flights[ch].stage == SIGNED
    requires (ev.CalFailed? || ev.CalExpired?) && ev.ch == ch && ev.feeDebited == Some(charge)
    requires charge <= Balance(s, l.flights[ch].agent)
    ensures Materialize(Rust, s, [ev]).Ok?
    ensures var t, m := Materialize(Rust, s, [ev]).value, LedgerAfter(l, [ev]);
      && Folds(s, l, [ev], t, m) && SameOutside(s, t)
      && Settled(l, m, ch, l.flights[ch].agent, 0 - charge, charge)
  {
    BalanceRead(s, l, l.flights[ch].agent);
    hide Represents; hide Sound; hide Supply; hide Apply; hide Step; hide SameOutside; hide Materialize;
    hide LedgerAfter; hide Settled;
    ChargeStep(l, ch, ev, charge);
    FoldsNothing(s, l);
    FoldsOne(s, l, [], s, l, ev);
    assert [] + [ev] == [ev];
  }

  /** The ledger after cal.validated has taken the escrow. */
  function Escrowed(l: Ledger, ch: string, e: nat): (m: Ledger)
    requires ch in l.flights && e <= At(l.balances, l.flights[ch].agent)
    ensures ch in m.flights && m.flights[ch] == l.flights[ch].(stage := VALIDATED, escrow := e)
  {
    var f := l.flights[ch];
    l.(balances := l.balances[f.agent := At(l.balances, f.agent) - e],
       flights := l.flights[ch := f.(stage := VALIDATED, escrow := e)])
  }

  lemma ValidatedStep(l: Ledger, ch: string, ev: Event, e: nat)
    requires hide *; ch in l.flights && l.flights[ch].stage == SIGNED && e <= At(l.balances, l.flights[ch].agent)
    requires e <= UINT256_MAX
    requires ev.CalValidated? && ev.ch == ch && ev.escrow == Some(e)
    ensures Step(l, ev) == Ok(Escrowed(l, ch, e))
    ensures SafeEvent(ev) && !TouchesOutside(ev)
  {
  }

  lemma NoCommit(s: Json, l: Ledger, ev: Event)
    requires ev.CalValidated?
    ensures !CommitFails(s, l, ev)
  {
  }

  lemma ValidatedAccepted(s: Json, l: Ledger, ch: string, ev: Event, e: nat)
    requires hide *; Represents(s, l) && Sound(l.flights) && ch in l.flights && l.flights[ch].stage == SIGNED
    requires ev.CalValidated? && ev.ch == ch && ev.escrow == Some(e) && e <= Balance(s, l.flights[ch].agent)
    ensures Materialize(Rust, s, [ev]).Ok?
    ensures var t, f := Materialize(Rust, s, [ev]).value, l.flights[ch];
      && SameOutside(s, t)
      && e <= At(l.balances, f.agent)
      && Folds(s, l, [ev], t, Escrowed(l, ch, e))
  {
    hide *;
    BalanceRead(s, l, l.flights[ch].agent);
    BalanceInRange(s, l.flights[ch].agent);
    NoCommit(s, l, ev);
    ValidatedStep(l, ch, ev, e);
    FoldsNothing(s, l);
    FoldsOne(s, l, [], s, l, ev);
    assert [] + [ev] == [ev];
    FoldsFacts(s, l, [ev], Apply(s, ev).value, Escrowed(l, ch, e));
  }

  lemma FoldsJoin(s: Json, l: Ledger, a: seq<Event>, t: Json, m: Ledger, b: seq<Event>)
    requires Folds(s, l, a, t, m)
    ensures Materialize(Rust, s, a + b).Ok? <==> Materialize(Rust, t, b).Ok?
    ensures Materialize(Rust, s, a + b).Ok? ==> Materialize(Rust, s, a + b) == Materialize(Rust, t, b)
    ensures LedgerAfter(l, a + b) == LedgerAfter(m, b)
    ensures forall u, n :: Folds(t, m, b, u, n) ==> Folds(s, l, a + b, u, n)
  {
    hide Represents; hide Sound; hide Supply; hide Materialize; hide LedgerAfter;
    FoldSplit(Rust, s, a, b);
    LedgerSplit(l, a, b);
  }

  lemma CommitsMoved(s: Json, t: Json, c: V.Context, terminal: V.Terminal)
    requires SameOutside(s, t) && SafeTrace(c.trace)
    ensures Commits(s, c, terminal) <==> Commits(t, c, terminal)
    ensures forall u :: OutsideAfter(t, u, c, terminal) ==> OutsideAfter(s, u, c, terminal)
  {
    StepsSafe(c, 0, []);
    CommittedUnfolds(c);
    hide Commit; hide SameOutside; hide Committed; hide SafeTrace; hide V.RunSteps;
    CommitCongruent(s, t, Committed(c));
    CommitOutcome(Commit(s, Committed(c)), Commit(t, Committed(c)));
    forall u | OutsideAfter(t, u, c, terminal) ensures OutsideAfter(s, u, c, terminal) {
      if terminal.FINALIZED? {
        SameOutsideTransitive(Commit(s, Committed(c)).value, Commit(t, Committed(c)).value, u);
      } else {
        SameOutsideTransitive(s, t, u);
      }
    }
  }

  lemma SettledFromEscrow(l: Ledger, l1: Ledger, m: Ledger, ch: string, e: nat, gain: int, kept: int)
    requires ch in l.flights && e <= At(l.balances, l.flights[ch].agent)
    requires l1 == Escrowed(l, ch, e)
    ensures Settled(l1, m, ch, l.flights[ch].agent, gain, kept)
      ==> Settled(l, m, ch, l.flights[ch].agent, gain - e, kept)
  {
    DropAgain(l.flights, ch, l.flights[ch].(stage := VALIDATED, escrow := e));
  }

  /** What one settled CAL means on the state tree. */
  ghost predicate SettledTree(s: Json, t: Json, ch: string, agent: string, charge: int) {
    && (forall a :: Balance(t, a) == Balance(s, a) - if a == agent then charge else 0)
    && Fees(t) == Fees(s) + charge
    && (forall a :: Nonce(t, a) == Nonce(s, a) + if a == agent then 1 else 0)
    && GetIn(t, IN_FLIGHT + [ch]).None?
  }

  lemma SettledReads(s: Json, l: Ledger, t: Json, m: Ledger, ch: string, agent: string, charge: int)
    requires Represents(s, l) && Represents(t, m) && Settled(l, m, ch, agent, 0 - charge, charge)
    ensures SettledTree(s, t, ch, agent, charge)
  {
    assert Fees(s) == l.fees && Fees(t) == m.fees;
    hide Represents; hide Balance; hide Nonce; hide GetIn; hide Fees; hide BumpNonce;
    forall a ensures Balance(s, a) == At(l.balances, a) && Balance(t, a) == At(m.balances, a) {
      BalanceRead(s, l, a);
      BalanceRead(t, m, a);
    }
    forall a ensures Nonce(s, a) == At(l.nonces, a) && Nonce(t, a) == At(m.nonces, a) {
      PutNonce(s, l, a);
      PutNonce(t, m, a);
    }
    FindRefines(t, m, ch);
  }

  /** The reducer accepts the validator. From any state in which the CAL is in flight at SIGNED and
      the supply is in range, if the validator returns events whose effects are safe, the reducer
      applies all of them in order exactly when the effects of a CAL that finalizes commit. Then the
      CAL leaves, and its agent's loss and the treasury's gain are both the total charge of the bill. */
  lemma ValidateAccepted(s: Json, l: Ledger, cal: Json, ch: string, trace: V.Trace)
    requires hide *; Represents(s, l) && Sound(l.flights) && Supply(l) <= UINT256_MAX
    requires ch in l.flights && l.flights[ch].stage == SIGNED && l.flights[ch].agent == V.StrOr(cal.Get("agent_id"), "")
    requires SafeTrace(trace) && V.Validate(cal, ch, s, trace).Ok?
    ensures var c, v := V.BuildContext(cal, ch, s, trace), V.Validate(cal, ch, s, trace).value;
      && (Materialize(Rust, s, v.events).Ok? <==> Commits(s, c, v.terminal))
      && (Materialize(Rust, s, v.events).Ok? ==>
          var t, m := Materialize(Rust, s, v.events).value, LedgerAfter(l, v.events);
          && Folds(s, l, v.events, t, m)
          && Settled(l, m, ch, c.agent, 0 - v.bill.totalAgentCharge, v.bill.totalAgentCharge)
          && SettledTree(s, t, ch, c.agent, v.bill.totalAgentCharge)
          && OutsideAfter(s, t, c, v.terminal))
  {
    ContextFields(cal, ch, s, trace);
    hide V.BuildContext; hide V.PhaseA; hide V.PhaseB; hide Represents; hide Sound; hide Supply; hide Materialize;
    hide LedgerAfter;
    hide SameOutside; hide Settled; hide SettledTree; hide SafeTrace; hide Balance; hide Gas.EscrowRequirement;
    hide V.IdNotes;
    hide OutsideAfter; hide V.StrOr;
    var c, v := V.BuildContext(cal, ch, s, trace), V.Validate(cal, ch, s, trace).value;
    PhaseAShape(c);
    if V.PhaseA(c).value.Some? {
      ChargeAccepted(s, l, ch, v.events[0], v.bill.totalAgentCharge);
      assert v.events == [v.events[0]];
      NothingCommitted(s, Materialize(Rust, s, v.events).value, c, v.terminal);
    } else {
      EscrowedAccepted(s, l, c);
    }
    if Materialize(Rust, s, v.events).Ok? {
      SettledReads(s, l, Materialize(Rust, s, v.events).value, LedgerAfter(l, v.events), ch, c.agent,
        v.bill.totalAgentCharge);
    }
  }

  lemma ValidateUnfolds(cal: Json, ch: string, s: Json, trace: V.Trace)
    requires hide *; V.Validate(cal, ch, s, trace).Ok?
    ensures var c, v := V.BuildContext(cal, ch, s, trace), V.Validate(cal, ch, s, trace).value;
      && V.PhaseA(c).Ok?
      && (if V.PhaseA(c).value.Some? then V.PhaseA(c) == Ok(Some(v)) else V.PhaseB(c, [V.ValidatedEvent(c)]) == Ok(v))
  {
    hide V.PhaseA; hide V.PhaseB; hide V.BuildContext; hide V.ValidatedEvent;
  }

  lemma NothingCommitted(s: Json, t: Json, c: V.Context, terminal: V.Terminal)
    requires terminal != V.FINALIZED && SameOutside(s, t)
    ensures OutsideAfter(s, t, c, terminal) && Commits(s, c, terminal)
  {
  }

  lemma ContextFields(cal: Json, ch: string, s: Json, trace: V.Trace)
    ensures var c := V.BuildContext(cal, ch, s, trace);
      && c.cal == cal && c.ch == ch && c.snapshot == s && c.trace == trace
      && c.agent == V.StrOr(cal.Get("agent_id"), "")
      && c.fee + c.maxGas == Gas.EscrowRequirement(cal, s) && c.fee == Gas.FlatFee(s)
      && c.maxGas == Gas.MaxGas(cal, Gas.FlatFee(s))
  {
    hide Gas.FlatFee; hide Gas.MaxGas; hide V.StrOr; hide V.OwnerCount; hide V.IsBounded; hide V.OwnerGated;
    hide Gas.OwnerAuthUnits;
  }

  lemma EscrowedAccepted(s: Json, l: Ledger, c: V.Context)
    requires hide *; Represents(s, l) && Sound(l.flights) && Supply(l) <= UINT256_MAX
    requires c.ch in l.flights && l.flights[c.ch].stage == SIGNED && l.flights[c.ch].agent == c.agent && c.snapshot == s
    requires SafeTrace(c.trace) && V.PhaseB(c, [V.ValidatedEvent(c)]).Ok?
    requires c.fee + c.maxGas == Gas.EscrowRequirement(c.cal, s)
    requires Balance(s, c.agent) >= Gas.EscrowRequirement(c.cal, s)
    ensures var v := V.PhaseB(c, [V.ValidatedEvent(c)]).value;
      && (Materialize(Rust, s, v.events).Ok? <==> Commits(s, c, v.terminal))
      && (Materialize(Rust, s, v.events).Ok? ==>
          var t, m := Materialize(Rust, s, v.events).value, LedgerAfter(l, v.events);
          && Folds(s, l, v.events, t, m)
          && Settled(l, m, c.ch, c.agent, 0 - v.bill.totalAgentCharge, v.bill.totalAgentCharge)
          && OutsideAfter(s, t, c, v.terminal))
  {
    BalanceInRange(s, c.agent);
    hide V.PhaseB; hide Represents; hide Sound; hide Supply; hide Materialize; hide LedgerAfter; hide SameOutside;
    hide Settled;
    hide SafeTrace; hide Balance; hide Gas.EscrowRequirement; hide V.IdNotes; hide OutsideAfter; hide Commits;
    hide Executes; hide Escrowed;
    var first, e := V.ValidatedEvent(c), c.fee + c.maxGas;
    var v := V.PhaseB(c, [first]).value;
    PhaseBShape(c, [first]);
    ValidatedAccepted(s, l, c.ch, first, e);
    var s1, l1 := Materialize(Rust, s, [first]).value, Escrowed(l, c.ch, e);
    CommitsMoved(s, s1, c, v.terminal);
    var rest := v.(events := v.events[1..]);
    assert v.events == [first] + rest.events;
    FoldsFacts(s, l, [first], s1, l1);
    TailSettles(s1, l1, c, rest);
    FoldsJoin(s, l, [first], s1, l1, rest.events);
    SettledFromEscrow(l, l1, LedgerAfter(l, v.events), c.ch, e, v.bill.gasRefunded, e - v.bill.gasRefunded);
  }

  lemma FoldsFacts(s: Json, l: Ledger, log: seq<Event>, t: Json, m: Ledger)
    requires Folds(s, l, log, t, m)
    ensures Materialize(Rust, s, log) == Ok(t) && LedgerAfter(l, log) == m
    ensures Represents(t, m) && Sound(m.flights) && Supply(m) == Supply(l)
  {
  }

  lemma BalanceInRange(s: Json, a: string)
    ensures Balance(s, a) <= UINT256_MAX
  {
  }
}
