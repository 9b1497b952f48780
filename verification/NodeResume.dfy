/** A late resume at the node: whatever program of other submissions and ticks runs while a CAL waits,
    it stays with its escrow, and whether it can be resumed then depends on the flat fee alone. */
module NodeResume {
  import opened Wrappers
  import opened JsonTree
  import opened Events
  import opened Deltas
  import opened Reducer
  import opened Ports
  import opened Ledgers
  import opened LedgerStep
  import opened Conservation
  import opened Runs
  import opened Acceptance
  import opened LateFees
  import opened Node
  import opened NodeSafety
  import opened NodeLog
  import Claims
  import Gas
  import Jcs
  import JcsText
  import Merkle
  import NodeStaging
  import Replay
  import Staging
  import V = Validator

  // --- when a resume submission is rejected ---

  lemma ResumeSubmitted(node: Config, w: Live, sub: Submission)
    requires hide *; sub.mode.Resume? && sub.cal.Obj? && Gas.AgentId(sub.cal).Some?
    ensures var ch, trace := CalHash(node, sub.cal), sub.trace.(currentTick := w.tick);
      var r, j := V.ResumeFromValidated(sub.cal, ch, w.state, trace), Submit(node, w, sub);
      && (r.Err? ==> j == Err(VALIDATE_ERROR(r.error)))
      && (r.Ok? && PushAll(node, w, r.value.events).Ok? ==> j.Ok?)
      && (r.Ok? && PushAll(node, w, r.value.events).Err?
        ==> j == Err(APPLY_FAILED(PushAll(node, w, r.value.events).error)))
  {
    hide V.ResumeFromValidated; hide PushAll; hide CalHash; hide Gas.AgentId; hide Ingress; hide V.Validate;
    hide V.ValidateToValidated;
  }

  /** What the node and the validator see of the submission. */
  function ResumeContext(node: Config, w: Live, cal: Json, trace: V.Trace): V.Context
    requires cal.Obj?
  {
    hide *;
    V.BuildContext(cal, CalHash(node, cal), w.state, trace.(currentTick := w.tick))
  }

  lemma ContextIs(node: Config, w: Live, cal: Json, trace: V.Trace)
    requires hide *; cal.Obj?
    ensures ResumeContext(node, w, cal, trace) ==
      V.BuildContext(cal, CalHash(node, cal), w.state, trace.(currentTick := w.tick))
  {
    hide V.BuildContext; hide CalHash;
  }

  /** A resume submission of a waiting CAL fails on an event that the reducer rejects
      exactly when it validates and the budget without the gas it consumed is beyond its escrow, or it
      finalizes with effects that do not commit. */
  lemma ResumeRejectedExactly(node: Config, w: Live, l: Ledger, cal: Json, trace: V.Trace)
    requires hide *; node.port == Rust && Represents(w.state, l) && Sound(l.flights) && Supply(l) <= UINT256_MAX
    requires cal.Obj? && Gas.AgentId(cal).Some? && CalHash(node, cal) in l.flights
    requires l.flights[CalHash(node, cal)].stage == VALIDATED
    requires SafeTrace(trace) && Gas.MaxGas(cal, Gas.FlatFee(w.state)) <= UINT256_MAX
    ensures var j, c := Submit(node, w, Submission(cal, trace, Resume)), ResumeContext(node, w, cal, trace);
      j.Err? && j.error.APPLY_FAILED? <==>
        && V.PhaseB(c, []).Ok?
        && (Gas.MaxGas(cal, Gas.FlatFee(w.state)) - Consumed(c) > l.flights[CalHash(node, cal)].escrow
            || !Commits(w.state, c, V.PhaseB(c, []).value.terminal))
  {
    hide *;
    var ch, now := CalHash(node, cal), trace.(currentTick := w.tick);
    ContextIs(node, w, cal, trace);
    ResumeSubmitted(node, w, Submission(cal, trace, Resume));
    ResumeUnfolds(cal, ch, w.state, now);
    TraceKept(trace, w.tick);
    var r := V.ResumeFromValidated(cal, ch, w.state, now);
    if r.Ok? {
      ResumeExactly(w.state, l, cal, ch, now);
      ResumeKernel(cal, ch, w.state, now);
      ContextFields(cal, ch, w.state, now);
      KernelNodeEvents(r.value.events, ch);
      NodeEventsSafe(r.value.events);
      PushAllAccepts(node, w, r.value.events);
    }
  }

  // --- a CAL left waiting ---

  /** The CAL waits at VALIDATED with this escrow. */
  predicate WaitsWith(m: Ledger, ch: string, e: nat) {
    ch in m.flights && m.flights[ch].stage == VALIDATED && m.flights[ch].escrow == e
  }

  lemma EscrowedWaits(l: Ledger, ch: string, e: nat)
    requires ch in l.flights && e <= At(l.balances, l.flights[ch].agent)
    ensures WaitsWith(Escrowed(l, ch, e), ch, e)
  {
  }

  lemma ValidatedIs(c: V.Context)
    ensures V.ValidatedEvent(c).CalValidated? && V.ValidatedEvent(c).ch == c.ch
    ensures V.ValidatedEvent(c).escrow == Some(c.fee + c.maxGas)
  {
    hide V.IdNotes;
  }

  /** Stage 1 on a CAL that ingress has taken in. */
  lemma StageWaits(node: Config, w: Live, l: Ledger, sub: Submission, ch: string, agent: string, before: seq<Event>,
      roots: seq<Merkle.Digest>) returns (m: Ledger)
    requires hide *; node.port == Rust && Represents(w.state, l) && Sound(l.flights) && sub.mode.ValidateOnly?
    requires ch in l.flights && l.flights[ch].stage == SIGNED && l.flights[ch].agent == agent
    requires Gas.AgentId(sub.cal) == Some(agent)
    requires Judge(node, w, sub, ch, agent, before, roots).Ok?
    requires Judge(node, w, sub, ch, agent, before, roots).value.1.terminal.None?
    ensures var w1 := Judge(node, w, sub, ch, agent, before, roots).value.0;
      && Represents(w1.state, m) && Sound(m.flights) && Supply(m) == Supply(l) && SameOutside(w.state, w1.state)
      && WaitsWith(m, ch, Gas.EscrowRequirement(sub.cal, w.state))
    ensures Gas.EscrowRequirement(sub.cal, w.state) <= At(l.balances, l.flights[ch].agent)
    ensures m == Escrowed(l, ch, Gas.EscrowRequirement(sub.cal, w.state))
  {
    hide *;
    var now := sub.trace.(currentTick := w.tick);
    var c := V.BuildContext(sub.cal, ch, w.state, now);
    JudgedStaged(node, w, sub, ch, agent, before, roots);
    ContextFields(sub.cal, ch, w.state, now);
    AgentRead(sub.cal);
    PhaseAShape(c);
    ValidatedIs(c);
    var ev, e := V.ValidatedEvent(c), Gas.EscrowRequirement(sub.cal, w.state);
    ValidatedAccepted(w.state, l, ch, ev, e);
    PushAllRuns(node, w, [ev]);
    m := Escrowed(l, ch, e);
    FoldsFacts(w.state, l, [ev], Materialize(Rust, w.state, [ev]).value, m);
    EscrowedWaits(l, ch, e);
  }

  /** A validate-only submission that is neither refused nor stopped leaves its CAL waiting. */
  lemma SubmissionWaits(node: Config, w: Live, l: Ledger, cal: Json, trace: V.Trace) returns (m: Ledger)
    requires hide *; node.port == Rust && Represents(w.state, l) && Sound(l.flights)
    requires Submit(node, w, Submission(cal, trace, ValidateOnly)).Ok?
    requires Submit(node, w, Submission(cal, trace, ValidateOnly)).value.1.terminal.None?
    requires Submit(node, w, Submission(cal, trace, ValidateOnly)).value.1.ingressError.None?
    ensures cal.Obj? && Gas.AgentId(cal).Some?
    ensures var w1 := Submit(node, w, Submission(cal, trace, ValidateOnly)).value.0;
      && Represents(w1.state, m) && Sound(m.flights) && Supply(m) == Supply(l) && SameOutside(w.state, w1.state)
      && WaitsWith(m, CalHash(node, cal), Gas.EscrowRequirement(cal, w.state))
    ensures var agent := Gas.AgentId(cal).value;
      Waiting(l, m, CalHash(node, cal), agent, Gas.EscrowRequirement(cal, w.state))
  {
    hide *;
    var sub := Submission(cal, trace, ValidateOnly);
    SubmitFresh(node, w, sub);
    var ch, agent := CalHash(node, cal), Gas.AgentId(cal).value;
    IngressCases(node, w, sub, ch, agent);
    NodeStaging.IngressRefusal(node, w, sub, ch, agent);
    TakesIn(node, w, l, ch, agent);
    TakenFlight(l, ch, agent);
    TakenSupply(l, ch, agent);
    var w1 := Push(node, w, CalCreated(ch, agent)).value;
    var w2 := Push(node, w1, CalSigned(ch)).value;
    m := StageWaits(node, w2, TakenIn(l, ch, agent), sub, ch, agent, [CalCreated(ch, agent), CalSigned(ch)],
      [node.root(w1.state), node.root(w2.state)]);
    Staging.PricesSame(w.state, w2.state);
    Staging.EscrowByFee(cal, w.state, w2.state);
    SameOutsideTransitive(w.state, w2.state, Submit(node, w, sub).value.0.state);
    WaitingIs(l, m, ch, agent, Gas.EscrowRequirement(cal, w.state));
  }

  /** What taking in the CAL and its escrow changes on the ledger. */
  predicate Waiting(l: Ledger, m: Ledger, ch: string, agent: string, e: nat) {
    && m.nonces == l.nonces && ch in m.flights && m.flights == l.flights[ch := m.flights[ch]]
    && m.flights[ch].agent == agent
    && e <= At(l.balances, agent) && m.balances == l.balances[agent := At(l.balances, agent) - e]
  }

  lemma WaitingIs(l: Ledger, m: Ledger, ch: string, agent: string, e: nat)
    requires var k := TakenIn(l, ch, agent);
      ch in k.flights && e <= At(k.balances, k.flights[ch].agent) && m == Escrowed(k, ch, e)
    ensures Waiting(l, m, ch, agent, e)
  {
    var k := TakenIn(l, ch, agent);
    assert k.flights[ch := m.flights[ch]] == l.flights[ch := m.flights[ch]];
  }

  // --- while it waits ---

  /** None of the submissions is of the CAL with this hash. */
  predicate Avoids(node: Config, subs: seq<Submission>, ch: string) {
    forall i :: 0 <= i < |subs| && subs[i].cal.Obj? ==> CalHash(node, subs[i].cal) != ch
  }

  lemma ElsewhereJoin(a: seq<Event>, b: seq<Event>, ch: string)
    requires Staging.Elsewhere(a, ch) && Staging.Elsewhere(b, ch)
    ensures Staging.Elsewhere(a + b, ch)
  {
  }

  lemma NothingElsewhere(ch: string)
    ensures Staging.Elsewhere([], ch) && forall tick: nat :: Staging.Elsewhere([TickAdvanced(tick)], ch)
  {
  }

  lemma {:induction false} SubmitAllElsewhere(node: Config, w: Live, subs: seq<Submission>, ch: string)
    requires hide *; SafeTraces(subs) && Avoids(node, subs, ch) && SubmitAll(node, w, subs).Ok?
    ensures Staging.Elsewhere(EventsOf(SubmitAll(node, w, subs).value.1), ch)
    decreases |subs|
  {
    hide Submit; hide KernelLog; hide SafeTrace; hide EventsOf; hide CalHash; hide Staging.Elsewhere;
    NothingElsewhere(ch);
    NoEvents();
    if subs != [] {
      var n := |subs| - 1;
      SubmitAllElsewhere(node, w, subs[..n], ch);
      var (w1, results) := SubmitAll(node, w, subs[..n]).value;
      SubmitKernel(node, w1, subs[n]);
      var result := Submit(node, w1, subs[n]).value.1;
      EventsPush(results, result);
      KernelNodeEvents(result.events, CalHash(node, subs[n].cal));
      ElsewhereJoin(EventsOf(results), result.events, ch);
    }
  }

  lemma BlockElsewhere(node: Config, w: Live, block: TickBlock, ch: string)
    requires hide *;
      SafeTraces(block.submissions) && Avoids(node, block.submissions, ch) && ApplyTick(node, w, block).Ok?
    ensures Staging.Elsewhere(ApplyTick(node, w, block).value.events, ch)
  {
    hide SubmitAll; hide EventsOf; hide Push; hide SafeTraces; hide GlobalRoot; hide Avoids; hide Staging.Elsewhere;
    NothingElsewhere(ch);
    var (w1, advanced) := Advance(node, w, block.tick).value;
    SubmitAllElsewhere(node, w1, block.submissions, ch);
    ElsewhereJoin(advanced, EventsOf(SubmitAll(node, w1, block.submissions).value.1), ch);
  }

  lemma AvoidsParts(node: Config, a: seq<Submission>, b: seq<Submission>, ch: string)
    requires Avoids(node, a + b, ch)
    ensures Avoids(node, a, ch) && Avoids(node, b, ch)
  {
    hide CalHash;
    forall i | 0 <= i < |a| && a[i].cal.Obj? ensures CalHash(node, a[i].cal) != ch {
      assert (a + b)[i] == a[i];
    }
    forall i | 0 <= i < |b| && b[i].cal.Obj? ensures CalHash(node, b[i].cal) != ch {
      assert (a + b)[|a| + i] == b[i];
    }
  }

  lemma AvoidsSplit(node: Config, blocks: seq<TickBlock>, ch: string)
    requires blocks != [] && Avoids(node, AllSubs(blocks), ch)
    ensures Avoids(node, AllSubs(blocks[..|blocks| - 1]), ch) && Avoids(node, blocks[|blocks| - 1].submissions, ch)
  {
    AvoidsParts(node, AllSubs(blocks[..|blocks| - 1]), blocks[|blocks| - 1].submissions, ch);
    hide Avoids;
  }

  /** A program without submissions of a CAL logs no event of it. */
  lemma {:induction false} RunElsewhere(node: Config, start: Live, blocks: seq<TickBlock>, ch: string)
    requires hide *; SafeProgram(blocks) && Avoids(node, AllSubs(blocks), ch) && RunBlocks(node, start, blocks).Ok?
    ensures Staging.Elsewhere(RunBlocks(node, start, blocks).value.log, ch)
    decreases |blocks|
  {
    hide ApplyTick; hide SafeProgram; hide SafeTraces; hide Avoids; hide AllSubs; hide Staging.Elsewhere;
    NothingElsewhere(ch);
    if blocks != [] {
      var n := |blocks| - 1;
      ProgramSplit(blocks);
      AvoidsSplit(node, blocks, ch);
      RunElsewhere(node, start, blocks[..n], ch);
      var p := RunBlocks(node, start, blocks[..n]).value;
      BlockElsewhere(node, p.live, blocks[n], ch);
      ElsewhereJoin(p.log, ApplyTick(node, p.live, blocks[n]).value.events, ch);
    }
  }

  /** The events that a run from a live state logs, seen from the state it starts at. */
  lemma RunMaterializes(node: Config, genesis: Json, log: seq<Event>, w: Live, blocks: seq<TickBlock>)
    requires hide *; Replay.Consistent(node, genesis, log, w) && RunBlocks(node, w, blocks).Ok?
    ensures var p := RunBlocks(node, w, blocks).value; Materialize(node.port, w.state, p.log) == Ok(p.live.state)
  {
    hide *;
    var p := RunBlocks(node, w, blocks).value;
    Replay.RunFoldsFrom(node, genesis, log, w, blocks);
    ConsistentState(node, genesis, log, w);
    ConsistentState(node, genesis, log + p.log, p.live);
    FoldSplit(node.port, genesis, log, p.log);
  }

  lemma ConsistentState(node: Config, genesis: Json, log: seq<Event>, w: Live)
    requires Replay.Consistent(node, genesis, log, w)
    ensures Materialize(node.port, genesis, log) == Ok(w.state)
  {
    hide Materialize;
  }

  // --- what a resume at the live tick consumes at least ---

  /** A resume need not present owner signatures where the agent has an owners list. */
  function LeastOwner(w: Live, cal: Json): nat {
    if V.OwnerGated(V.StrOr(cal.Get("action"), ""), V.IsBounded(w.state)) then
      match GetIn(w.state, V.AgentPath(V.StrOr(cal.Get("agent_id"), ""), "owners"))
      case Some(Arr(_)) => 0
      case _ => Gas.OwnerAuthUnits(1)
    else 0
  }

  /** Nothing once the CAL has expired at the live tick; before, the price of its static gas, of the two
      bytes that no effects take, and of the least owner authorization, up to the budget. */
  function LeastConsumed(w: Live, cal: Json): nat {
    hide *;
    if w.tick > Gas.AsBig(cal.Get("expiration_tick"), 0) then 0
    else
      var budget := Gas.MaxGas(cal, Gas.FlatFee(w.state));
      match Gas.StaticGasUnits(cal)
      case Err(_) => budget
      case Ok(u) => Gas.Min(Gas.ToNano(u + 2 + LeastOwner(w, cal), Gas.GasPrice(w.state)), budget)
  }

  lemma {:induction false} BytesOfText(text: string)
    ensures Gas.Utf8Length(text) >= |text|
    decreases |text|
  {
    if text != "" { BytesOfText(text[1..]); }
  }

  lemma LeastBytes(effects: seq<Json>)
    ensures Gas.EffectsBytes(effects).Ok? ==> Gas.EffectsBytes(effects).value >= 2
    ensures Gas.EffectsBytes([]) == Ok(2)
  {
    BytesOfText(JcsText.Print(Arr(effects)));
    assert JcsText.Print(Arr([])) == "[]";
    assert Gas.Utf8Length("[]") == 2 by { assert "[]"[1..] == "]" && "]"[1..] == ""; }
    assert Jcs.BomFree(Arr([]));
    hide Gas.Utf8Length; hide Jcs.BomFree; hide JcsText.PrintItems;
  }

  lemma OwnerPriced(cal: Json, ch: string, w: Live, trace: V.Trace)
    ensures var c := V.BuildContext(cal, ch, w.state, trace);
      && LeastOwner(w, cal) <= c.ownerAuth && (trace.ownerSigners.None? ==> LeastOwner(w, cal) == c.ownerAuth)
      && c.tick == trace.currentTick && c.expiration == Gas.AsBig(cal.Get("expiration_tick"), 0)
  {
    hide Gas.FlatFee; hide Gas.MaxGas; hide V.StrOr; hide V.IsBounded; hide V.OwnerGated; hide GetIn; hide V.AgentPath;
    hide Gas.AsBig;
  }

  lemma NanoGrows(a: nat, b: nat, price: nat)
    requires a <= b
    ensures Gas.ToNano(a, price) <= Gas.ToNano(b, price)
  {
  }

  lemma MinGrows(a: nat, b: nat, c: nat)
    requires a <= b
    ensures Gas.Min(a, c) <= Gas.Min(b, c)
  {
  }

  lemma RawIs(c: V.Context)
    requires RawUsed(c).Ok?
    ensures hide *; Gas.EffectsBytes(Committed(c)).Ok? && Gas.StaticGasUnits(c.cal).Ok?
    ensures RawUsed(c).value ==
      Gas.ToNano(Gas.StaticGasUnits(c.cal).value + Gas.EffectsBytes(Committed(c)).value + c.ownerAuth,
        Gas.GasPrice(c.snapshot))
  {
    hide Gas.EffectsBytes; hide Committed; hide Gas.StaticGasUnits; hide Gas.GasPrice; hide Gas.ToNano;
  }

  lemma RawFrom(c: V.Context)
    requires Gas.EffectsBytes(Committed(c)).Ok? && Gas.StaticGasUnits(c.cal).Ok?
    ensures RawUsed(c).Ok?
  {
    hide Gas.EffectsBytes; hide Committed; hide Gas.StaticGasUnits; hide Gas.GasPrice; hide Gas.ToNano;
  }

  lemma ConsumedIs(c: V.Context)
    ensures hide *; Consumed(c) ==
      if c.tick > c.expiration || RawUsed(c).Err? then 0 else Gas.Min(RawUsed(c).value, c.maxGas)
  {
    hide RawUsed; hide Gas.Min;
  }

  lemma LeastIs(w: Live, cal: Json)
    ensures hide *; var budget := Gas.MaxGas(cal, Gas.FlatFee(w.state));
      LeastConsumed(w, cal) ==
        if w.tick > Gas.AsBig(cal.Get("expiration_tick"), 0) then 0
        else if Gas.StaticGasUnits(cal).Err? then budget
        else Gas.Min(Gas.ToNano(Gas.StaticGasUnits(cal).value + 2 + LeastOwner(w, cal), Gas.GasPrice(w.state)), budget)
  {
    hide Gas.AsBig; hide Gas.StaticGasUnits; hide LeastOwner; hide Gas.GasPrice; hide Gas.MaxGas; hide Gas.FlatFee;
    hide Gas.ToNano; hide Gas.Min;
  }

  /** No resume at the live tick consumes less. */
  lemma ConsumesAtLeast(node: Config, w: Live, cal: Json, trace: V.Trace)
    requires hide *; cal.Obj? && V.PhaseB(ResumeContext(node, w, cal, trace), []).Ok?
    ensures Consumed(ResumeContext(node, w, cal, trace)) >= LeastConsumed(w, cal)
  {
    hide *;
    var now := trace.(currentTick := w.tick);
    var c := ResumeContext(node, w, cal, trace);
    ContextIs(node, w, cal, trace);
    ContextFields(cal, CalHash(node, cal), w.state, now);
    OwnerPriced(cal, CalHash(node, cal), w, now);
    RefundExactly(c, []);
    ConsumedIs(c);
    LeastIs(w, cal);
    if c.tick <= c.expiration {
      RawIs(c);
      LeastBytes(Committed(c));
      var u := Gas.StaticGasUnits(cal).value;
      NanoGrows(u + 2 + LeastOwner(w, cal), u + Gas.EffectsBytes(Committed(c)).value + c.ownerAuth,
        Gas.GasPrice(w.state));
      MinGrows(Gas.ToNano(u + 2 + LeastOwner(w, cal), Gas.GasPrice(w.state)), RawUsed(c).value, c.maxGas);
    }
  }

  /** A trace in which nothing was executed and nobody signed as owner. */
  function LeanTrace(): V.Trace {
    V.Trace(0, [], Null, Null, true, true, None, "")
  }

  lemma LeanCommits(c: V.Context)
    requires c.trace.steps == []
    ensures Committed(c) == []
  {
    CommittedUnfolds(c);
    hide V.PostConditions; hide V.Steps;
  }

  lemma LeanIs(tick: nat)
    ensures SafeTrace(LeanTrace()) && LeanTrace().(currentTick := tick).steps == []
    ensures LeanTrace().(currentTick := tick).ownerSigners.None?
  {
  }

  lemma LateIsOk(c: V.Context)
    requires hide *; c.tick > c.expiration
    ensures V.PhaseB(c, []).Ok?
  {
    hide V.RunSteps; hide V.ExpiredNotes; hide Gas.FlatFee; hide Gas.MaxGas;
  }

  /** One resume consumes exactly that, unless the gas of the CAL cannot be computed at all. */
  lemma LeanConsumes(node: Config, w: Live, cal: Json)
    requires hide *; cal.Obj?
    requires w.tick > Gas.AsBig(cal.Get("expiration_tick"), 0) || Gas.StaticGasUnits(cal).Ok?
    ensures var c := ResumeContext(node, w, cal, LeanTrace());
      && V.PhaseB(c, []).Ok? && Commits(w.state, c, V.PhaseB(c, []).value.terminal)
      && Consumed(c) == LeastConsumed(w, cal)
  {
    hide *;
    LeanIs(w.tick);
    var now := LeanTrace().(currentTick := w.tick);
    var c := ResumeContext(node, w, cal, LeanTrace());
    ContextIs(node, w, cal, LeanTrace());
    ContextFields(cal, CalHash(node, cal), w.state, now);
    OwnerPriced(cal, CalHash(node, cal), w, now);
    LeanCommits(c);
    LeastBytes([]);
    ConsumedIs(c);
    LeastIs(w, cal);
    NothingFails(w.state, c);
    if c.tick <= c.expiration {
      Claims.PhaseBOk(c, []);
      RawFrom(c);
      RawIs(c);
    } else {
      LateIsOk(c);
    }
  }

  lemma NothingFails(s: Json, c: V.Context)
    requires Committed(c) == []
    ensures forall terminal :: Commits(s, c, terminal)
  {
    hide Committed;
  }

  // --- when every resume submission goes through ---

  /** A resume submission with safe effects that commit does not stop the node. */
  predicate SubmissionTaken(node: Config, w: Live, cal: Json, trace: V.Trace)
    requires cal.Obj?
  {
    hide *;
    var j, c := Submit(node, w, Submission(cal, trace, Resume)), ResumeContext(node, w, cal, trace);
    SafeTrace(trace) && (V.PhaseB(c, []).Ok? ==> Commits(w.state, c, V.PhaseB(c, []).value.terminal)) ==>
      !(j.Err? && j.error.APPLY_FAILED?)
  }

  ghost predicate EverySubmissionTaken(node: Config, w: Live, cal: Json)
    requires cal.Obj?
  {
    hide *;
    forall trace: V.Trace :: SubmissionTaken(node, w, cal, trace)
  }

  lemma TakenSubmission(node: Config, w: Live, cal: Json, trace: V.Trace)
    requires cal.Obj?
    ensures hide *;
      var j, c := Submit(node, w, Submission(cal, trace, Resume)), ResumeContext(node, w, cal, trace);
      SubmissionTaken(node, w, cal, trace) <==>
        (SafeTrace(trace) && (V.PhaseB(c, []).Ok? ==> Commits(w.state, c, V.PhaseB(c, []).value.terminal)) ==>
          !(j.Err? && j.error.APPLY_FAILED?))
  {
    hide Submit; hide ResumeContext; hide SafeTrace; hide V.PhaseB; hide Commits;
  }

  lemma EveryTaken(node: Config, w: Live, cal: Json)
    requires cal.Obj?
    ensures hide *;
      EverySubmissionTaken(node, w, cal) <==> forall trace: V.Trace :: SubmissionTaken(node, w, cal, trace)
  {
    hide SubmissionTaken;
  }

  /** At the live tick, every resume submission of a waiting CAL goes through exactly when the budget without
      the least that a resume consumes is within its escrow. */
  lemma EverySubmissionCovered(node: Config, w: Live, l: Ledger, cal: Json)
    requires hide *; node.port == Rust && Represents(w.state, l) && Sound(l.flights) && Supply(l) <= UINT256_MAX
    requires cal.Obj? && Gas.AgentId(cal).Some? && CalHash(node, cal) in l.flights
    requires l.flights[CalHash(node, cal)].stage == VALIDATED && Gas.MaxGas(cal, Gas.FlatFee(w.state)) <= UINT256_MAX
    ensures EverySubmissionTaken(node, w, cal) <==>
      Gas.MaxGas(cal, Gas.FlatFee(w.state)) - LeastConsumed(w, cal) <= l.flights[CalHash(node, cal)].escrow
  {
    hide *;
    EveryTaken(node, w, cal);
    var budget, e := Gas.MaxGas(cal, Gas.FlatFee(w.state)), l.flights[CalHash(node, cal)].escrow;
    if budget - LeastConsumed(w, cal) <= e {
      forall trace: V.Trace ensures SubmissionTaken(node, w, cal, trace) {
        TakenSubmission(node, w, cal, trace);
        if SafeTrace(trace) {
          ResumeRejectedExactly(node, w, l, cal, trace);
          if V.PhaseB(ResumeContext(node, w, cal, trace), []).Ok? { ConsumesAtLeast(node, w, cal, trace); }
        }
      }
    } else {
      LeastIs(w, cal);
      LeanIs(w.tick);
      LeanConsumes(node, w, cal);
      TakenSubmission(node, w, cal, LeanTrace());
      ResumeRejectedExactly(node, w, l, cal, LeanTrace());
    }
  }

  /** What a resume submission that goes through moves: the agent gets the budget without the gas consumed,
      the treasury keeps the rest of the escrow, and the CAL leaves. */
  lemma ResumeMoves(node: Config, w: Live, l: Ledger, cal: Json, trace: V.Trace) returns (m: Ledger)
    requires hide *; node.port == Rust && Represents(w.state, l) && Sound(l.flights) && Supply(l) <= UINT256_MAX
    requires cal.Obj? && Gas.AgentId(cal).Some? && CalHash(node, cal) in l.flights
    requires l.flights[CalHash(node, cal)].stage == VALIDATED
    requires SafeTrace(trace) && Gas.MaxGas(cal, Gas.FlatFee(w.state)) <= UINT256_MAX
    requires Submit(node, w, Submission(cal, trace, Resume)).Ok?
    ensures var w1, f := Submit(node, w, Submission(cal, trace, Resume)).value.0, l.flights[CalHash(node, cal)];
      var back := Gas.MaxGas(cal, Gas.FlatFee(w.state)) - Consumed(ResumeContext(node, w, cal, trace));
      && Represents(w1.state, m) && Sound(m.flights) && Supply(m) == Supply(l)
      && back <= f.escrow && Settled(l, m, CalHash(node, cal), f.agent, back, f.escrow - back)
  {
    hide *;
    var ch, now, sub := CalHash(node, cal), trace.(currentTick := w.tick), Submission(cal, trace, Resume);
    var c := ResumeContext(node, w, cal, trace);
    ContextIs(node, w, cal, trace);
    ContextFields(cal, ch, w.state, now);
    TraceKept(trace, w.tick);
    SubmitsResume(node, w, sub);
    ResumeJudged(node, w, sub, ch, Gas.AgentId(cal).value);
    var v := V.PhaseB(c, []).value;
    RefundExactly(c, []);
    BillsUnfold(c, v.bill);
    ResumeSettles(w.state, l, c);
    PushAllRuns(node, w, v.events);
    m := LedgerAfter(l, v.events);
    FoldsFacts(w.state, l, v.events, Materialize(Rust, w.state, v.events).value, m);
  }

  lemma SubmitsResume(node: Config, w: Live, sub: Submission)
    requires hide *; sub.mode.Resume? && sub.cal.Obj? && Gas.AgentId(sub.cal).Some?
    ensures Submit(node, w, sub) == Judge(node, w, sub, CalHash(node, sub.cal), Gas.AgentId(sub.cal).value, [], [])
  {
    hide Judge; hide Ingress; hide CalHash; hide Gas.AgentId;
  }

  /** A late resume over programs. From any live state of a run let a validate-only
      submission leave its CAL waiting, and then any program of other submissions and ticks run. The CAL
      still waits with the escrow of that time, the supply is the same, and every resume submission at the
      live tick goes through exactly when the gas budget at the present fee, without the least that a
      resume consumes, is within the escrow; over all ticks, exactly when the whole budget is. */
  lemma LateSubmission(node: Config, genesis: Json, log: seq<Event>, w: Live, l: Ledger, cal: Json, trace: V.Trace,
      blocks: seq<TickBlock>) returns (m: Ledger)
    requires hide *; node.port == Rust && Replay.Consistent(node, genesis, log, w)
    requires Represents(w.state, l) && Sound(l.flights) && Supply(l) <= UINT256_MAX
    requires Submit(node, w, Submission(cal, trace, ValidateOnly)).Ok?
    requires Submit(node, w, Submission(cal, trace, ValidateOnly)).value.1.terminal.None?
    requires Submit(node, w, Submission(cal, trace, ValidateOnly)).value.1.ingressError.None?
    requires SafeProgram(blocks) && (cal.Obj? ==> Avoids(node, AllSubs(blocks), CalHash(node, cal)))
    requires RunBlocks(node, Submit(node, w, Submission(cal, trace, ValidateOnly)).value.0, blocks).Ok?
    ensures cal.Obj?
    ensures var live :=
      RunBlocks(node, Submit(node, w, Submission(cal, trace, ValidateOnly)).value.0, blocks).value.live;
      var t := live.state;
      && Represents(t, m) && Sound(m.flights) && Supply(m) == Supply(l)
      && WaitsWith(m, CalHash(node, cal), Gas.EscrowRequirement(cal, w.state))
      && (Gas.MaxGas(cal, Gas.FlatFee(t)) <= UINT256_MAX ==>
          (EverySubmissionTaken(node, live, cal) <==>
            Gas.MaxGas(cal, Gas.FlatFee(t)) - LeastConsumed(live, cal)
              <= Gas.FlatFee(w.state) + Gas.MaxGas(cal, Gas.FlatFee(w.state))))
      && (EveryResumeTaken(t, cal, CalHash(node, cal)) <==>
          Gas.MaxGas(cal, Gas.FlatFee(t)) <= Gas.FlatFee(w.state) + Gas.MaxGas(cal, Gas.FlatFee(w.state)))
  {
    hide *;
    var sub := Submission(cal, trace, ValidateOnly);
    var (w1, r1) := Submit(node, w, sub).value;
    var p := RunBlocks(node, w1, blocks).value;
    var m1 := SubmissionWaits(node, w, l, cal, trace);
    var ch := CalHash(node, cal);
    Replay.SubmitFolds(node, genesis, log, w, sub);
    RunMaterializes(node, genesis, log + r1.events, w1, blocks);
    RunEvents(node, w1, blocks);
    NodeEventsSafe(p.log);
    RunKeeps(w1.state, m1, p.log);
    RunElsewhere(node, w1, blocks, ch);
    WaitsIs(m1, ch, Gas.EscrowRequirement(cal, w.state));
    Staging.FlightStays(m1, p.log, ch);
    m := LedgerAfter(m1, p.log);
    WaitsIs(m, ch, Gas.EscrowRequirement(cal, w.state));
    EveryResumeCovered(p.live.state, m, cal, ch, w.state);
    EscrowSplit(cal, w.state);
    if Gas.MaxGas(cal, Gas.FlatFee(p.live.state)) <= UINT256_MAX { EverySubmissionCovered(node, p.live, m, cal); }
  }

  lemma WaitsIs(m: Ledger, ch: string, e: nat)
    ensures WaitsWith(m, ch, e) <==> ch in m.flights && m.flights[ch].stage == VALIDATED && m.flights[ch].escrow == e
  {
  }
}
