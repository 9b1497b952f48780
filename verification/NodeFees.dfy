/** How the flat fee gets to change while a CAL waits: another agent submits a CAL whose effect sets it. */
module NodeFees {
  import opened Wrappers
  import opened JsonTree
  import opened Events
  import opened Deltas
  import opened Reducer
  import opened Ports
  import opened Ledgers
  import opened LedgerStep
  import opened Conservation
  import opened Runs
  import opened Acceptance
  import opened LateFees
  import opened Node
  import opened NodeResume
  import opened NodeSafety
  import opened Samples
  import opened Staging
  import Claims
  import Gas
  import Gates
  import Jcs
  import Merkle
  import Owners
  import V = Validator

  // --- the effect ---

  /** The effect that sets the flat fee. */
  function FeeEffect(fee: nat): Json {
    Obj(map["ns" := Str("governance"), "op" := Str("set"),
      "path" := Arr([Str("params"), Str("flat_validation_fee_nano_ptra")]), "value" := Int(fee)])
  }

  lemma FeeDecoded(fee: nat)
    ensures Decode(FeeEffect(fee)) == Some(Delta.Delta(Deltas.Op.Set, Gas.FLAT_FEE, Some(Int(fee))))
  {
    var d, items := FeeEffect(fee), [Str("params"), Str("flat_validation_fee_nano_ptra")];
    assert d.Get("ns") == Some(Str("governance")) && d.Get("op") == Some(Str("set"));
    assert d.Get("path") == Some(Arr(items)) && d.Get("value") == Some(Int(fee));
    assert items[0].s == "params" && items[1].s == "flat_validation_fee_nano_ptra";
    assert Owners.StrItems(items).value == ["params", "flat_validation_fee_nano_ptra"];
    assert ["governance"] + ["params", "flat_validation_fee_nano_ptra"] == Gas.FLAT_FEE;
    hide Owners.StrItems;
  }

  lemma OffRegistry(s: Json)
    ensures EnforceOwnerRecord(s, Gas.FLAT_FEE) == Ok(s)
  {
    hide GetIn;
  }

  lemma FeeSet(s: Json, fee: nat)
    requires fee <= UINT256_MAX
    ensures SafeDeltas([FeeEffect(fee)])
    ensures Commit(s, [FeeEffect(fee)]) == Ok(SetIn(s, Gas.FLAT_FEE, Int(fee)))
    ensures Gas.FlatFee(SetIn(s, Gas.FLAT_FEE, Int(fee))) == fee
  {
    FeeDecoded(fee);
    GasPathsOutside("", "");
    var t := SetIn(s, Gas.FLAT_FEE, Int(fee));
    OffRegistry(t);
    GetSet(s, Gas.FLAT_FEE, Int(fee));
    hide Decode; hide FeeEffect; hide Outside; hide SetIn; hide GetIn; hide EnforceOwnerRecord; hide Gas.FLAT_FEE;
    assert [FeeEffect(fee)][1..] == [];
    assert ApplyDelta(s, FeeEffect(fee)) == Ok(t);
  }

  lemma FeeBytes(fee: nat)
    ensures Gas.EffectsBytes([FeeEffect(fee)]).Ok? && Gas.EffectsBytes([]).Ok?
  {
    FeeBomFree(fee);
    hide Gas.Utf8Length; hide FeeEffect; hide Jcs.BomFree;
    assert Jcs.CanonicalizeValue(Arr([FeeEffect(fee)])).Ok? && Jcs.CanonicalizeValue(Arr([])).Ok?;
  }

  lemma NoMarks()
    ensures Jcs.Bomless("ns") && Jcs.Bomless("op") && Jcs.Bomless("path") && Jcs.Bomless("value")
    ensures Jcs.BomFree(Str("governance")) && Jcs.BomFree(Str("set"))
    ensures Jcs.BomFree(Arr([Str("params"), Str("flat_validation_fee_nano_ptra")]))
  {
    assert "ns"[0] == 'n' && "op"[0] == 'o' && "path"[0] == 'p' && "value"[0] == 'v';
    assert "governance"[0] == 'g' && "set"[0] == 's' && "params"[0] == 'p' && "flat_validation_fee_nano_ptra"[0] == 'f';
    assert Jcs.BomFree(Str("params")) && Jcs.BomFree(Str("flat_validation_fee_nano_ptra"));
  }

  lemma FeeBomFree(fee: nat)
    ensures Jcs.BomFree(Arr([FeeEffect(fee)])) && Jcs.BomFree(Arr([]))
  {
    NoMarks();
    var d := FeeEffect(fee);
    hide Jcs.Bomless;
    assert Jcs.BomFree(Int(fee));
    assert forall k :: k in d.fields ==> k == "ns" || k == "op" || k == "path" || k == "value";
    assert Jcs.BomFree(d);
  }

  // --- a sample CAL at the node ---

  function SampleHash(node: Config, agent: string): Merkle.Digest {
    CalHash(node, SampleCal(agent))
  }

  lemma HashIs(node: Config, agent: string)
    ensures SampleCal(agent).Obj? && SampleHash(node, agent) == CalHash(node, SampleCal(agent))
  {
    hide CalHash;
  }

  /** The agent is idle and fresh, has its keys on record, and can pay 101 flat fees; its CAL is unknown. */
  ghost predicate Ready(node: Config, w: Live, l: Ledger, agent: string) {
    && node.port == Rust && Represents(w.state, l) && Sound(l.flights) && Supply(l) <= UINT256_MAX && w.tick == 0
    && Keyed(w.state, agent) && agent !in l.nonces && !Busy(l, agent)
    && SampleHash(node, agent) !in l.flights && At(l.balances, agent) >= 101 * Gas.FlatFee(w.state)
  }

  lemma KeyedMoved(s: Json, t: Json, agent: string)
    requires SameOutside(s, t) && Keyed(s, agent)
    ensures Keyed(t, agent)
  {
    GasPathsOutside(agent, "operator_pubkey");
    GasPathsOutside(agent, "owner_pubkey");
    GasPathsOutside(agent, "owners");
    hide SameOutside; hide Outside; hide GetIn; hide V.AgentPath;
    SameOutsideGet(s, t, V.AgentPath(agent, "operator_pubkey"));
    SameOutsideGet(s, t, V.AgentPath(agent, "owner_pubkey"));
    SameOutsideGet(s, t, V.AgentPath(agent, "owners"));
  }

  lemma ReadyFacts(node: Config, w: Live, l: Ledger, agent: string)
    requires Ready(node, w, l, agent)
    ensures node.port == Rust
    ensures Represents(w.state, l) && Sound(l.flights) && Supply(l) <= UINT256_MAX && w.tick == 0
    ensures Keyed(w.state, agent) && agent !in l.nonces && !Busy(l, agent)
    ensures SampleHash(node, agent) !in l.flights && At(l.balances, agent) >= 101 * Gas.FlatFee(w.state)
  {
    hide Represents; hide Sound; hide Keyed; hide SampleHash; hide Gas.FlatFee; hide Supply;
  }

  lemma ReadyIs(node: Config, w: Live, l: Ledger, agent: string)
    requires node.port == Rust && Represents(w.state, l) && Sound(l.flights) && Supply(l) <= UINT256_MAX && w.tick == 0
    requires Keyed(w.state, agent) && agent !in l.nonces && !Busy(l, agent)
    requires SampleHash(node, agent) !in l.flights && At(l.balances, agent) >= 101 * Gas.FlatFee(w.state)
    ensures Ready(node, w, l, agent)
  {
    hide Represents; hide Sound; hide Keyed; hide SampleHash; hide Gas.FlatFee; hide Supply; hide Busy;
  }

  lemma CreatedStep(l: Ledger, ch: string, agent: string)
    requires ch !in l.flights && !Busy(l, agent)
    ensures Step(l, CalCreated(ch, agent)).Ok? && SafeEvent(CalCreated(ch, agent))
  {
    hide Busy;
  }

  /** Ingress takes the CAL of a ready agent in, and it passes every gate before VALIDATED. */
  lemma SampleEnters(node: Config, w: Live, l: Ledger, agent: string, trace: V.Trace) returns (w1: Live, w2: Live)
    requires hide *; Ready(node, w, l, agent)
    requires trace.operatorSigPresent && trace.ownerSigPresent && trace.pinnedSchemaHash == "" && trace.currentTick == 0
    ensures var ch := SampleHash(node, agent);
      && Push(node, w, CalCreated(ch, agent)) == Ok(w1) && Push(node, w1, CalSigned(ch)) == Ok(w2)
      && Represents(w2.state, TakenIn(l, ch, agent)) && Sound(TakenIn(l, ch, agent).flights)
      && SameOutside(w.state, w2.state) && w2.tick == 0
      && V.FirstStop(V.BuildContext(SampleCal(agent), ch, w2.state, trace)) == None
  {
    hide *;
    ReadyFacts(node, w, l, agent);
    SampleFields(agent);
    var cal, ch := SampleCal(agent), SampleHash(node, agent);
    CreatedStep(l, ch, agent);
    PushCases(node, w, CalCreated(ch, agent));
    ApplyStep(w.state, l, CalCreated(ch, agent));
    TakesIn(node, w, l, ch, agent);
    w1 := Push(node, w, CalCreated(ch, agent)).value;
    w2 := Push(node, w1, CalSigned(ch)).value;
    var k := TakenIn(l, ch, agent);
    TakenIs(l, ch, agent);
    KeyedMoved(w.state, w2.state, agent);
    PricesSame(w.state, w2.state);
    SampleContext(agent, ch, w2.state, trace);
    Claims.NonceMissing(w2.state, k, agent);
    Claims.CanPay(w2.state, k, agent, Gas.FlatFee(w2.state));
    SamplePasses(V.BuildContext(cal, ch, w2.state, trace));
  }

  lemma TakenIs(l: Ledger, ch: string, agent: string)
    ensures var k := TakenIn(l, ch, agent);
      && k.nonces == l.nonces && k.balances == l.balances && ch in k.flights && k.flights[ch].stage == SIGNED
      && k.flights[ch].agent == agent && (ch !in l.flights ==> k.flights - {ch} == l.flights)
  {
  }

  lemma NowIs(trace: V.Trace)
    requires trace.currentTick == 0
    ensures trace.(currentTick := 0) == trace
  {
  }

  lemma StageOnePasses(cal: Json, ch: string, s: Json, trace: V.Trace)
    requires hide *; V.FirstStop(V.BuildContext(cal, ch, s, trace)) == None
    ensures var c := V.BuildContext(cal, ch, s, trace);
      && V.PhaseA(c) == Ok(None)
      && V.ValidateToValidated(cal, ch, s, trace) == Ok(V.ToValidated(None, [V.ValidatedEvent(c)]))
  {
    hide V.FirstStop; hide V.BuildContext; hide V.ValidatedEvent; hide V.PreFail; hide V.PreExpire;
  }

  /** Judging when the validator and the reducer agree to the events. */
  lemma JudgedOk(node: Config, w: Live, sub: Submission, ch: string, agent: string, before: seq<Event>,
      roots: seq<Merkle.Digest>)
    ensures hide *; var trace, j := sub.trace.(currentTick := w.tick), Judge(node, w, sub, ch, agent, before, roots);
      && (sub.mode.ValidateOnly? && V.ValidateToValidated(sub.cal, ch, w.state, trace).Ok? ==>
          var one := V.ValidateToValidated(sub.cal, ch, w.state, trace).value;
          PushAll(node, w, one.events).Ok? && one.terminal.None? ==>
            j.Ok? && j.value.1.terminal.None? && j.value.1.ingressError.None?)
      && (sub.mode.Atomic? && V.Validate(sub.cal, ch, w.state, trace).Ok? ==>
          var v := V.Validate(sub.cal, ch, w.state, trace).value;
          PushAll(node, w, v.events).Ok? ==> j.Ok? && j.value.0 == PushAll(node, w, v.events).value.0)
  {
    hide V.Validate; hide V.ValidateToValidated; hide V.ResumeFromValidated; hide PushAll;
  }

  /** The first submission of a ready agent, validated only, leaves its CAL waiting. */
  lemma SampleWaits(node: Config, w: Live, l: Ledger, agent: string) returns (m: Ledger)
    requires hide *; Ready(node, w, l, agent)
    ensures var sub := Submission(SampleCal(agent), SampleTrace(Null, []), ValidateOnly);
      && Submit(node, w, sub).Ok? && Submit(node, w, sub).value.1.terminal.None?
      && Submit(node, w, sub).value.1.ingressError.None?
      && var w1 := Submit(node, w, sub).value.0;
      && Represents(w1.state, m) && Sound(m.flights) && Supply(m) == Supply(l) && SameOutside(w.state, w1.state)
      && w1.tick == 0 && Waiting(l, m, SampleHash(node, agent), agent, 101 * Gas.FlatFee(w.state))
      && WaitsWith(m, SampleHash(node, agent), 101 * Gas.FlatFee(w.state))
  {
    hide *;
    var cal, trace := SampleCal(agent), SampleTrace(Null, []);
    var sub := Submission(cal, trace, ValidateOnly);
    Claims.SampleTraceIs(Null, []);
    ReadyFacts(node, w, l, agent);
    SampleFields(agent);
    var w1, w2 := SampleEnters(node, w, l, agent, trace);
    HashIs(node, agent);
    var ch := SampleHash(node, agent);
    var k := TakenIn(l, ch, agent);
    TakenIs(l, ch, agent);
    NowIs(trace);
    StageOnePasses(cal, ch, w2.state, trace);
    var c := V.BuildContext(cal, ch, w2.state, trace);
    ContextFields(cal, ch, w2.state, trace);
    PhaseAShape(c);
    ValidatedIs(c);
    var ev := V.ValidatedEvent(c);
    ValidatedAccepted(w2.state, k, ch, ev, Gas.EscrowRequirement(cal, w2.state));
    PushAllAccepts(node, w2, [ev]);
    PushAllRuns(node, w2, [ev]);
    SubmitFresh(node, w, sub);
    IngressCases(node, w, sub, ch, agent);
    JudgedOk(node, w2, sub, ch, agent, [CalCreated(ch, agent), CalSigned(ch)],
      [node.root(w1.state), node.root(w2.state)]);
    JudgedStaged(node, w2, sub, ch, agent, [CalCreated(ch, agent), CalSigned(ch)],
      [node.root(w1.state), node.root(w2.state)]);
    m := SubmissionWaits(node, w, l, cal, trace);
    SampleContext(agent, ch, w.state, trace);
  }

  // --- a CAL that sets the fee ---

  /** Out of bounded mode the invariants are the CAL's own. */
  lemma FinalizesUnbounded(c: V.Context, before: seq<Event>)
    requires hide *; !c.bounded && Claims.OwnChecksHold(c) && V.PhaseB(c, before).Ok?
    ensures V.PhaseB(c, before).value.terminal == V.FINALIZED
  {
    hide V.PhaseB; hide V.InvariantHolds; hide V.RawGas; hide Gas.EffectsBytes; hide Gates.AllStepsHold; hide V.Steps;
    hide Gates.EffectsUpTo; hide Committed;
    Gates.FinalizedExactly(c, before);
    assert V.EffectiveInvariants(c) == Gas.Items(c.cal.Get("invariants"));
  }

  lemma GasPriceKept(s: Json, fee: nat)
    ensures Gas.GasPrice(SetIn(s, Gas.FLAT_FEE, Int(fee))) == Gas.GasPrice(s)
  {
    assert Gas.GAS_PRICE[1] == "gas_price_nano_ptra_per_unit" && Gas.FLAT_FEE[1] == "params";
    assert Gas.GAS_PRICE[1] != Gas.FLAT_FEE[1] by {
      assert "params"[0] == 'p' && "gas_price_nano_ptra_per_unit"[0] == 'g';
    }
    hide GetIn; hide SetIn;
    GetSetDisjoint(s, Gas.FLAT_FEE, Gas.GAS_PRICE, Int(fee));
  }

  lemma SettledFlights(l: Ledger, m: Ledger, ch: string, agent: string, gain: int, kept: int)
    requires Settled(l, m, ch, agent, gain, kept)
    ensures m.flights == l.flights - {ch}
  {
  }

  /** Validation of the CAL that sets the fee, once it is at SIGNED. */
  lemma RaiseSettles(node: Config, w: Live, l: Ledger, agent: string, ch: string, fee: nat) returns (m: Ledger)
    requires hide *; node.port == Rust && Represents(w.state, l) && Sound(l.flights)
    requires Supply(l) <= UINT256_MAX && w.tick == 0
    requires ch in l.flights && l.flights[ch].stage == SIGNED && l.flights[ch].agent == agent
    requires !V.IsBounded(w.state) && Gas.GasPrice(w.state) == 0 && fee <= UINT256_MAX
    requires V.FirstStop(V.BuildContext(SampleCal(agent), ch, w.state, SampleTrace(Null, [FeeEffect(fee)]))) == None
    ensures var r := V.Validate(SampleCal(agent), ch, w.state, SampleTrace(Null, [FeeEffect(fee)]));
      && r.Ok? && PushAll(node, w, r.value.events).Ok?
      && var w1 := PushAll(node, w, r.value.events).value.0;
      && Represents(w1.state, m) && Sound(m.flights) && Supply(m) == Supply(l) && m.flights == l.flights - {ch}
      && w1.tick == 0 && Gas.FlatFee(w1.state) == fee && Gas.GasPrice(w1.state) == 0
  {
    hide *;
    var cal, trace := SampleCal(agent), SampleTrace(Null, [FeeEffect(fee)]);
    var c := V.BuildContext(cal, ch, w.state, trace);
    var before := [V.ValidatedEvent(c)];
    SampleFields(agent);
    SampleContext(agent, ch, w.state, trace);
    FeeBytes(fee);
    FeeSet(w.state, fee);
    Claims.SampleTraceIs(Null, [FeeEffect(fee)]);
    Claims.SampleRuns(c, Null, [FeeEffect(fee)]);
    Claims.OwnChecksRun(c, before);
    FinalizesUnbounded(c, before);
    Claims.PassedOn(cal, ch, w.state, trace);
    Claims.FinalCommits(w.state, c);
    ValidatePushed(node, w, l, cal, ch, trace);
    ValidateAccepted(w.state, l, cal, ch, trace);
    ValidateSafe(cal, ch, w.state, trace);
    var v := V.Validate(cal, ch, w.state, trace).value;
    PushAllAccepts(node, w, v.events);
    PushAllRuns(node, w, v.events);
    var t := Materialize(Rust, w.state, v.events).value;
    m := LedgerAfter(l, v.events);
    FoldsFacts(w.state, l, v.events, t, m);
    SettledFlights(l, m, ch, c.agent, 0 - v.bill.totalAgentCharge, v.bill.totalAgentCharge);
    Claims.CommittedOutside(w.state, t, c, V.FINALIZED);
    GasPriceKept(w.state, fee);
    PricesSame(SetIn(w.state, Gas.FLAT_FEE, Int(fee)), t);
  }

  lemma NoneLeft(l: Ledger, ch: string, agent: string)
    requires ch !in l.flights
    ensures TakenIn(l, ch, agent).flights - {ch} == l.flights
  {
  }

  /** The CAL of a ready agent, submitted to run at once, sets the fee. */
  lemma SampleRaises(node: Config, w: Live, l: Ledger, agent: string, fee: nat) returns (m: Ledger)
    requires hide *; Ready(node, w, l, agent) && !V.IsBounded(w.state) && Gas.GasPrice(w.state) == 0
    requires fee <= UINT256_MAX
    ensures var r := Submit(node, w, Submission(SampleCal(agent), SampleTrace(Null, [FeeEffect(fee)]), Atomic));
      && r.Ok?
      && var w1 := r.value.0;
      && Represents(w1.state, m) && Sound(m.flights) && Supply(m) == Supply(l) && m.flights == l.flights
      && w1.tick == 0 && Gas.FlatFee(w1.state) == fee && Gas.GasPrice(w1.state) == 0
  {
    hide *;
    var cal, trace := SampleCal(agent), SampleTrace(Null, [FeeEffect(fee)]);
    var sub := Submission(cal, trace, Atomic);
    Claims.SampleTraceIs(Null, [FeeEffect(fee)]);
    ReadyFacts(node, w, l, agent);
    SampleFields(agent);
    HashIs(node, agent);
    var ch := SampleHash(node, agent);
    var w1, w2 := SampleEnters(node, w, l, agent, trace);
    var k := TakenIn(l, ch, agent);
    TakenIs(l, ch, agent);
    TakenSupply(l, ch, agent);
    NoneLeft(l, ch, agent);
    PricesSame(w.state, w2.state);
    NowIs(trace);
    m := RaiseSettles(node, w2, k, agent, ch, fee);
    SubmitFresh(node, w, sub);
    IngressCases(node, w, sub, ch, agent);
    JudgedOk(node, w2, sub, ch, agent, [CalCreated(ch, agent), CalSigned(ch)],
      [node.root(w1.state), node.root(w2.state)]);
  }

  // --- a fee raised while a CAL waits ---

  /** While the CAL of one agent waits, another is as ready as before. */
  lemma StillReady(node: Config, w: Live, l: Ledger, a: string, b: string, w1: Live, m: Ledger)
    requires hide *; Ready(node, w, l, a) && Ready(node, w, l, b)
    requires a != b && SampleHash(node, a) != SampleHash(node, b)
    requires Represents(w1.state, m) && Sound(m.flights) && Supply(m) == Supply(l) && SameOutside(w.state, w1.state)
    requires w1.tick == 0 && Waiting(l, m, SampleHash(node, a), a, 101 * Gas.FlatFee(w.state))
    ensures Ready(node, w1, m, b)
  {
    hide *;
    ReadyFacts(node, w, l, b);
    KeyedMoved(w.state, w1.state, b);
    PricesSame(w.state, w1.state);
    OtherIdle(l, m, SampleHash(node, a), a, 101 * Gas.FlatFee(w.state), SampleHash(node, b), b);
    ReadyIs(node, w1, m, b);
  }

  lemma OtherIdle(l: Ledger, m: Ledger, ch: string, a: string, e: nat, other: string, b: string)
    requires Waiting(l, m, ch, a, e) && a != b && ch != other
    requires b !in l.nonces && !Busy(l, b) && other !in l.flights
    ensures b !in m.nonces && !Busy(m, b) && other !in m.flights && At(m.balances, b) == At(l.balances, b)
  {
  }

  lemma FreeConsumed(c: V.Context)
    requires hide *; Gas.EffectsBytes(Committed(c)).Ok?
    requires V.RawGas(c, Gas.EffectsBytes(Committed(c)).value) == Ok(0)
    ensures Consumed(c) == 0
  {
    hide Committed; hide V.RawGas; hide Gas.EffectsBytes;
  }

  lemma NothingToCommit(s: Json)
    ensures Commit(s, []) == Ok(s)
  {
  }

  lemma FinalOrNot(s: Json, c: V.Context, terminal: V.Terminal)
    requires Commits(s, c, V.FINALIZED)
    ensures Commits(s, c, terminal)
  {
    hide Commit; hide Committed;
  }

  /** The gas of the sample CAL is free and its resume without effects commits, whatever it waits with. */
  lemma SampleResumes(node: Config, w: Live, agent: string)
    requires hide *; w.tick == 0 && Gas.GasPrice(w.state) == 0
    requires SampleCal(agent).Obj?
    ensures var c := ResumeContext(node, w, SampleCal(agent), SampleTrace(Null, []));
      V.PhaseB(c, []).Ok? && Consumed(c) == 0 && Commits(w.state, c, V.PhaseB(c, []).value.terminal)
  {
    hide *;
    var cal, trace := SampleCal(agent), SampleTrace(Null, []);
    HashIs(node, agent);
    Claims.SampleTraceIs(Null, []);
    NowIs(trace);
    ContextIs(node, w, cal, trace);
    var c := ResumeContext(node, w, cal, trace);
    SampleContext(agent, CalHash(node, cal), w.state, trace);
    FeeBytes(0);
    Claims.SampleRuns(c, Null, []);
    Claims.OwnChecksRun(c, []);
    SampleUnits(agent);
    Claims.FreeGas(c, Gas.EffectsBytes([]).value);
    FreeConsumed(c);
    NothingToCommit(w.state);
    Claims.FinalCommits(w.state, c);
    FinalOrNot(w.state, c, V.PhaseB(c, []).value.terminal);
  }

  /** One agent leaves its CAL waiting, and then the CAL of another agent sets the flat fee. */
  function RaiseSubs(a: string, b: string, fee: nat): seq<Submission> {
    [Submission(SampleCal(a), SampleTrace(Null, []), ValidateOnly),
     Submission(SampleCal(b), SampleTrace(Null, [FeeEffect(fee)]), Atomic)]
  }

  function ResumeSub(a: string): Submission {
    Submission(SampleCal(a), SampleTrace(Null, []), Resume)
  }

  lemma SubmitMore(node: Config, w: Live, subs: seq<Submission>, sub: Submission)
    ensures hide *; SubmitAll(node, w, subs + [sub]) == match SubmitAll(node, w, subs)
      case Err(e) => Err(e)
      case Ok((w1, results)) =>
        match Submit(node, w1, sub) case Err(e) => Err(e) case Ok((w2, result)) => Ok((w2, results + [result]))
  {
    hide Submit;
    assert (subs + [sub])[..|subs|] == subs;
  }

  lemma NoSubmissions(node: Config, w: Live)
    ensures SubmitAll(node, w, []) == Ok((w, []))
  {
    hide Submit;
  }

  lemma SubsAre(a: string, b: string, fee: nat)
    ensures RaiseSubs(a, b, fee) == [] + [Submission(SampleCal(a), SampleTrace(Null, []), ValidateOnly)]
      + [Submission(SampleCal(b), SampleTrace(Null, [FeeEffect(fee)]), Atomic)]
    ensures ResumeSub(a) == Submission(SampleCal(a), SampleTrace(Null, []), Resume)
  {
    hide SampleCal; hide SampleTrace; hide FeeEffect;
  }

  lemma ResumeDecides(node: Config, w: Live, w2: Live, m1: Ledger, m2: Ledger, a: string, fee: nat)
    requires hide *; node.port == Rust && Represents(w2.state, m2) && Sound(m2.flights) && Supply(m2) <= UINT256_MAX
    requires WaitsWith(m1, SampleHash(node, a), 101 * Gas.FlatFee(w.state)) && m2.flights == m1.flights
    requires w2.tick == 0 && Gas.FlatFee(w2.state) == fee && Gas.GasPrice(w2.state) == 0 && 100 * fee <= UINT256_MAX
    ensures var r := Submit(node, w2, ResumeSub(a));
      && (r.Ok? <==> 100 * fee <= 101 * Gas.FlatFee(w.state))
      && (r.Err? ==> r.error.APPLY_FAILED?)
  {
    hide *;
    SubsAre(a, a, fee);
    HashIs(node, a);
    var cal, trace := SampleCal(a), SampleTrace(Null, []);
    SampleFields(a);
    NothingSafe();
    Claims.SampleTraceIs(Null, []);
    WaitsIs(m1, SampleHash(node, a), 101 * Gas.FlatFee(w.state));
    SampleContext(a, "", w2.state, trace);
    ContextFields(cal, "", w2.state, trace);
    ResumeRejectedExactly(node, w2, m2, cal, trace);
    SampleResumes(node, w2, a);
    ResumeSubmitted(node, w2, ResumeSub(a));
    ResumeUnfolds(cal, CalHash(node, cal), w2.state, trace);
    NowIs(trace);
    ContextIs(node, w2, cal, trace);
  }

  lemma NothingSafe()
    ensures SafeDeltas([])
  {
  }

  /** Sample CALs of two agents differ, and so do their hashes unless they collide. */
  lemma SamplesApart(node: Config, a: string, b: string) returns (x: string, y: string)
    requires a != b
    ensures SampleHash(node, a) != SampleHash(node, b) || Merkle.Collides(node.sha, x, y)
  {
    hide *;
    HashIs(node, a);
    HashIs(node, b);
    x, y := "", "";
    if SampleHash(node, a) == SampleHash(node, b) {
      x, y := CalHashBinds(node, SampleCal(a), SampleCal(b));
      UnsignedApart(a, b);
    }
  }

  lemma UnsignedApart(a: string, b: string)
    requires a != b
    ensures SampleCal(a).Obj? && SampleCal(b).Obj? && Unsigned(SampleCal(a)) != Unsigned(SampleCal(b))
  {
    hide UPDATE; hide V.ConstNode;
    assert "agent_id"[0] == 'a' && "signatures"[0] == 's';
    assert Unsigned(SampleCal(a)).fields["agent_id"] == Str(a) && Unsigned(SampleCal(b)).fields["agent_id"] == Str(b);
  }

  lemma RaisedApart(node: Config, w: Live, l: Ledger, a: string, b: string, fee: nat)
    requires hide *; Ready(node, w, l, a) && Ready(node, w, l, b)
    requires a != b && SampleHash(node, a) != SampleHash(node, b)
    requires !V.IsBounded(w.state) && Gas.GasPrice(w.state) == 0 && 100 * fee <= UINT256_MAX
    ensures SubmitAll(node, w, RaiseSubs(a, b, fee)).Ok?
    ensures var r := SubmitAll(node, w, RaiseSubs(a, b, fee) + [ResumeSub(a)]);
      && (r.Ok? <==> 100 * fee <= 101 * Gas.FlatFee(w.state))
      && (r.Err? ==> r.error.APPLY_FAILED?)
  {
    hide *;
    ReadyFacts(node, w, l, a);
    SubsAre(a, b, fee);
    var one := Submission(SampleCal(a), SampleTrace(Null, []), ValidateOnly);
    var two := Submission(SampleCal(b), SampleTrace(Null, [FeeEffect(fee)]), Atomic);
    NoSubmissions(node, w);
    SubmitMore(node, w, [], one);
    SubmitMore(node, w, [] + [one], two);
    SubmitMore(node, w, RaiseSubs(a, b, fee), ResumeSub(a));
    var m1 := SampleWaits(node, w, l, a);
    var w1 := Submit(node, w, one).value.0;
    StillReady(node, w, l, a, b, w1, m1);
    PricesSame(w.state, w1.state);
    var m2 := SampleRaises(node, w1, m1, b, fee);
    var w2 := Submit(node, w1, two).value.0;
    ResumeDecides(node, w, w2, m1, m2, a, fee);
  }

  /** The fee is changed while a CAL waits, all through submissions of agents that can pay: both are
      accepted, and resuming the waiting CAL then goes through exactly when the fee rose by one percent at
      most. Otherwise the node stops, with an event of the validator that the reducer rejects. */
  lemma FeeRaised(node: Config, w: Live, l: Ledger, a: string, b: string, fee: nat) returns (x: string, y: string)
    requires hide *; Ready(node, w, l, a) && Ready(node, w, l, b) && a != b
    requires !V.IsBounded(w.state) && Gas.GasPrice(w.state) == 0 && 100 * fee <= UINT256_MAX
    ensures Merkle.Collides(node.sha, x, y) ||
      var r := SubmitAll(node, w, RaiseSubs(a, b, fee) + [ResumeSub(a)]);
      && SubmitAll(node, w, RaiseSubs(a, b, fee)).Ok?
      && (r.Ok? <==> 100 * fee <= 101 * Gas.FlatFee(w.state))
      && (r.Err? ==> r.error.APPLY_FAILED?)
  {
    hide *;
    x, y := SamplesApart(node, a, b);
    if SampleHash(node, a) != SampleHash(node, b) {
      RaisedApart(node, w, l, a, b, fee);
    }
  }

  // --- an instance ---

  /** Free gas, a flat fee of one, and two agents with their keys that can just pay. */
  function FeeGenesis(): Json {
    Obj(map["governance" := FeeGovernance(), "registry" := FeeRegistry(), "ptra" := FeePtra()])
  }

  function FeeGovernance(): Json {
    Obj(map["gas_price_nano_ptra_per_unit" := Int(0), "params" := Obj(map["flat_validation_fee_nano_ptra" := Int(1)])])
  }

  function FeeRegistry(): Json {
    Obj(map["agents" := Obj(map["a" := Keys(), "b" := Keys()])])
  }

  function FeePtra(): Json {
    Obj(map["balances" := Obj(map["a" := Int(101), "b" := Int(101)])])
  }

  function FeeLedger(): Ledger {
    Ledger(map["a" := 101, "b" := 101], 0, map[], map[])
  }

  lemma FeeReads()
    ensures Gas.GasPrice(FeeGenesis()) == 0 && Gas.FlatFee(FeeGenesis()) == 1 && !V.IsBounded(FeeGenesis())
    ensures Init(FeeGenesis()) == Live(FeeGenesis(), 0, 0, ZERO32)
  {
    var s := FeeGenesis();
    hide Keys;
    TwoKeys(s, "governance", "gas_price_nano_ptra_per_unit");
    TwoKeys(s, "governance", "params");
    TwoKeys(s, "failure_mode", "is_bounded_mode");
    TwoKeys(s.fields["governance"], "params", "flat_validation_fee_nano_ptra");
    assert Gas.FLAT_FEE[1..] == ["params", "flat_validation_fee_nano_ptra"];
    assert GetIn(s, Gas.FLAT_FEE) == GetIn(s.fields["governance"], Gas.FLAT_FEE[1..]);
  }

  lemma FeeKeyed()
    ensures Keyed(FeeGenesis(), "a") && Keyed(FeeGenesis(), "b")
  {
    KeyedBy(FeeGenesis(), "a");
    KeyedBy(FeeGenesis(), "b");
    hide Keys; hide Keyed;
    TwoKeys(FeeGenesis(), "registry", "agents");
  }

  lemma FeeProtected()
    ensures GetIn(FeeGenesis(), BALANCES) == Some(Obj(map["a" := Int(101), "b" := Int(101)]))
    ensures GetIn(FeeGenesis(), IN_FLIGHT) == None && GetIn(FeeGenesis(), NONCES) == None
    ensures GetIn(FeeGenesis(), FEES) == None
  {
    var s := FeeGenesis();
    hide Keys; hide GetIn;
    TwoKeys(s, "cal", "in_flight");
    TwoKeys(s, "cal", "nonces");
    TwoKeys(s, "ptra", "balances");
    TwoKeys(s, "treasury", "collected_fees_window");
    assert NONCES == ["cal", "nonces"] && IN_FLIGHT == ["cal", "in_flight"] && BALANCES == ["ptra", "balances"];
  }

  lemma FeeRepresents()
    ensures Represents(FeeGenesis(), FeeLedger())
  {
    hide FeeGenesis; hide Entry; hide GetIn; hide IN_FLIGHT; hide BALANCES; hide NONCES; hide FEES;
    FeeProtected();
  }

  lemma FeeSound()
    ensures Sound(FeeLedger().flights) && Supply(FeeLedger()) <= UINT256_MAX
  {
    var l := Ledger(map[], 0, map[], map[]);
    BalancePut(l, "a", 101);
    BalancePut(l.(balances := map["a" := 101]), "b", 101);
    assert map[]["a" := 101] == map["a" := 101] && map["a" := 101]["b" := 101] == FeeLedger().balances;
    assert Escrows(map[]) == map[];
  }

  lemma FeeReady(node: Config)
    requires node.port == Rust
    ensures Ready(node, Init(FeeGenesis()), FeeLedger(), "a") && Ready(node, Init(FeeGenesis()), FeeLedger(), "b")
  {
    hide *;
    FeeReads();
    FeeKeyed();
    FeeRepresents();
    FeeSound();
    FeeIdle(SampleHash(node, "a"), "a");
    FeeIdle(SampleHash(node, "b"), "b");
    ReadyIs(node, Init(FeeGenesis()), FeeLedger(), "a");
    ReadyIs(node, Init(FeeGenesis()), FeeLedger(), "b");
  }

  lemma FeeIdle(ch: string, agent: string)
    requires agent == "a" || agent == "b"
    ensures agent !in FeeLedger().nonces && !Busy(FeeLedger(), agent) && ch !in FeeLedger().flights
    ensures At(FeeLedger().balances, agent) == 101
  {
  }

  /** A run of one block on the tick at hand is its submissions. */
  lemma OneBlock(node: Config, genesis: Json, subs: seq<Submission>)
    requires Init(genesis).tick == 0
    ensures hide *; var r, all := Run(node, genesis, [TickBlock(0, subs)]), SubmitAll(node, Init(genesis), subs);
      (r.Ok? <==> all.Ok?) && (r.Err? ==> r.error == all.error)
  {
    hide SubmitAll; hide GlobalRoot; hide EventsOf; hide Push; hide Init;
    var w, blocks := Init(genesis), [TickBlock(0, subs)];
    assert blocks[..0] == [];
    assert RunBlocks(node, w, []) == Ok(Progress(w, [], []));
    assert Advance(node, w, 0) == Ok((w, []));
    assert ApplyTick(node, w, blocks[0]).Ok? <==> SubmitAll(node, w, subs).Ok?;
  }

  /** So it happens: from this genesis the run in which the fee doubles goes through, and with the resume
      after it the node stops. */
  lemma DoubledFeeRefused(node: Config) returns (x: string, y: string)
    requires node.port == Rust
    ensures hide *; Merkle.Collides(node.sha, x, y) ||
      var r := Run(node, FeeGenesis(), [TickBlock(0, RaiseSubs("a", "b", 2) + [ResumeSub("a")])]);
      && Run(node, FeeGenesis(), [TickBlock(0, RaiseSubs("a", "b", 2))]).Ok?
      && r.Err? && r.error.APPLY_FAILED?
  {
    hide *;
    FeeReads();
    FeeReady(node);
    OneBlock(node, FeeGenesis(), RaiseSubs("a", "b", 2));
    OneBlock(node, FeeGenesis(), RaiseSubs("a", "b", 2) + [ResumeSub("a")]);
    Small();
    x, y := FeeRaised(node, Init(FeeGenesis()), FeeLedger(), "a", "b", 2);
  }

  lemma Small()
    ensures 200 <= UINT256_MAX && "a" != "b"
  {
    assert "a"[0] == 'a' && "b"[0] == 'b';
  }
}
