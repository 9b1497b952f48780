/** The loss that true claims would rule out, through the node: a submission that lies about the state it
    leaves is accepted, finalizes, and lowers the live net asset value. */
module NodeClaims {
  import opened Wrappers
  import opened JsonTree
  import opened Events
  import opened Deltas
  import opened Reducer
  import opened Ports
  import opened Ledgers
  import opened LedgerStep
  import opened Conservation
  import opened Runs
  import opened Acceptance
  import opened Claims
  import opened Emergency
  import opened Node
  import opened NodeFees
  import opened NodeSafety
  import opened Samples
  import Gas
  import Merkle
  import Staging
  import V = Validator

  lemma SameClaims(trace: V.Trace, tick: nat)
    ensures ClaimsPass(trace.(currentTick := tick)) == ClaimsPass(trace)
  {
    hide GetIn; hide NotLower;
    ClaimsRead(trace);
    ClaimsRead(trace.(currentTick := tick));
    hide ClaimsPass;
  }

  lemma TakenInto(node: Config, w: Live, ch: string, agent: string)
    requires hide *; AfterIngress(node, w, ch, agent).Some?
    ensures Push(node, w, CalCreated(ch, agent)).Ok?
    ensures Push(node, Push(node, w, CalCreated(ch, agent)).value, CalSigned(ch))
      == Ok(AfterIngress(node, w, ch, agent).value)
  {
    hide Push;
  }

  /** Any submission in bounded mode that ingress takes in, that passes the gates before VALIDATED, whose own
      checks hold and whose claims pass goes through and finalizes, although its effect lowers the live net
      asset value, by any amount there is. */
  lemma SubmissionLies(node: Config, w: Live, l: Ledger, cal: Json, trace: V.Trace, w2: Live, n: nat)
    requires hide *; node.port == Rust && Represents(w.state, l) && Sound(l.flights) && Supply(l) <= UINT256_MAX
    requires V.IsBounded(w.state) && SafeTrace(trace) && ClaimsPass(trace) && cal.Obj? && Gas.AgentId(cal).Some?
    requires AfterIngress(node, w, CalHash(node, cal), Gas.AgentId(cal).value) == Some(w2)
    requires var c := V.BuildContext(cal, CalHash(node, cal), w2.state, trace.(currentTick := w.tick));
      V.FirstStop(c) == None && OwnChecksHold(c) && Committed(c) == [LossEffect(n)]
    requires IsAmount(GetIn(w.state, NAV))
    requires GetIn(w.state, NAV).Some? && GetIn(w.state, NAV).value.Int? && n <= GetIn(w.state, NAV).value.n
    ensures var r := Submit(node, w, Submission(cal, trace, Atomic));
      && r.Ok? && r.value.1.terminal == Some(V.FINALIZED)
      && GetIn(r.value.0.state, NAV) == Some(Int(GetIn(w.state, NAV).value.n - n))
      && (n > 0 ==> !Guarded(w.state, r.value.0.state))
  {
    hide *;
    var ch, agent, now := CalHash(node, cal), Gas.AgentId(cal).value, trace.(currentTick := w.tick);
    var sub, created, signed := Submission(cal, trace, Atomic), CalCreated(ch, agent), CalSigned(ch);
    TakenInto(node, w, ch, agent);
    TakesIn(node, w, l, ch, agent);
    TakenSupply(l, ch, agent);
    TakenFlight(l, ch, agent);
    AgentRead(cal);
    SameClaims(trace, w.tick);
    TraceKept(trace, w.tick);
    Staging.PricesSame(w.state, w2.state);
    GuardedOutside();
    SameOutsideGet(w.state, w2.state, NAV);
    AmountIs(GetIn(w.state, NAV));
    var v := GetIn(w.state, NAV).value.n;
    var t := ClaimsCanLie(w2.state, TakenIn(l, ch, agent), cal, ch, now, n);
    var evs := V.Validate(cal, ch, w2.state, now).value.events;
    PushAllAccepts(node, w2, evs);
    PushAllRuns(node, w2, evs);
    SubmitFresh(node, w, sub);
    IngressCases(node, w, sub, ch, agent);
    var roots := [node.root(Push(node, w, created).value.state), node.root(w2.state)];
    AtomicJudged(node, w2, sub, ch, agent, [created, signed], roots);
    AtomicVerdict(node, w2, sub, ch, agent, [created, signed], roots);
    if n > 0 { LossUnguarded(w.state, t, v, n); }
  }

  lemma AtomicVerdict(node: Config, w: Live, sub: Submission, ch: string, agent: string, before: seq<Event>,
      roots: seq<Merkle.Digest>)
    requires hide *; sub.mode.Atomic? && V.Validate(sub.cal, ch, w.state, sub.trace.(currentTick := w.tick)).Ok?
    requires Judge(node, w, sub, ch, agent, before, roots).Ok?
    ensures var v, r := V.Validate(sub.cal, ch, w.state, sub.trace.(currentTick := w.tick)).value,
      Judge(node, w, sub, ch, agent, before, roots).value;
      PushAll(node, w, v.events).Ok? && r.0 == PushAll(node, w, v.events).value.0 && r.1.terminal == Some(v.terminal)
  {
    hide V.Validate; hide PushAll; hide Drive; hide V.ResumeFromValidated; hide V.ValidateToValidated;
    var v := V.Validate(sub.cal, ch, w.state, sub.trace.(currentTick := w.tick)).value;
    DriveCases(node, w, ch, agent, before, roots, v.events, Some(v.terminal), v.reason);
  }

  // --- an instance ---

  /** Bounded mode, free gas, a net asset value of one, and an agent with its keys that can just pay. */
  function LossGenesis(): Json {
    Obj(map[
      "failure_mode" := Obj(map["is_bounded_mode" := Bool(true)]),
      "governance" := Obj(map["gas_price_nano_ptra_per_unit" := Int(0)]),
      "treasury" := Obj(map["nav" := Int(1), "developer_fund_balance" := Int(0)]),
      "registry" := Obj(map["agents" := Obj(map["a" := Keys()])]),
      "ptra" := Obj(map["balances" := Obj(map["a" := Int(10100000)])])])
  }

  function LossLedger(): Ledger {
    Ledger(map["a" := 10100000], 0, map[], map[])
  }

  lemma LossReads()
    ensures GetIn(LossGenesis(), NAV) == Some(Int(1)) && GetIn(LossGenesis(), FUND) == Some(Int(0))
    ensures V.IsBounded(LossGenesis()) && Gas.GasPrice(LossGenesis()) == 0 && Gas.FlatFee(LossGenesis()) == 100000
    ensures Init(LossGenesis()) == Live(LossGenesis(), 0, 0, ZERO32)
  {
    var s := LossGenesis();
    hide Keys;
    TwoKeys(s, "treasury", "nav");
    TwoKeys(s, "treasury", "developer_fund_balance");
    TwoKeys(s, "failure_mode", "is_bounded_mode");
    TwoKeys(s, "governance", "gas_price_nano_ptra_per_unit");
    assert Gas.FLAT_FEE[1..][0] == "params" && "params" !in s.fields["governance"].fields;
    assert GetIn(s.fields["governance"], Gas.FLAT_FEE[1..]) == None;
  }

  lemma LossKeyed()
    ensures Keyed(LossGenesis(), "a")
  {
    KeyedBy(LossGenesis(), "a");
    hide Keys; hide Keyed;
    TwoKeys(LossGenesis(), "registry", "agents");
  }

  lemma LossProtected()
    ensures GetIn(LossGenesis(), BALANCES) == Some(Obj(map["a" := Int(10100000)]))
    ensures GetIn(LossGenesis(), IN_FLIGHT) == None && GetIn(LossGenesis(), NONCES) == None
    ensures GetIn(LossGenesis(), FEES) == None
  {
    var s := LossGenesis();
    hide Keys; hide GetIn;
    TwoKeys(s, "cal", "in_flight");
    TwoKeys(s, "cal", "nonces");
    TwoKeys(s, "ptra", "balances");
    TwoKeys(s, "treasury", "collected_fees_window");
    assert NONCES == ["cal", "nonces"] && IN_FLIGHT == ["cal", "in_flight"] && BALANCES == ["ptra", "balances"];
  }

  lemma LossRepresents()
    ensures Represents(LossGenesis(), LossLedger())
  {
    hide LossGenesis; hide Entry; hide GetIn; hide IN_FLIGHT; hide BALANCES; hide NONCES; hide FEES;
    LossProtected();
  }

  lemma LossSound()
    ensures Sound(LossLedger().flights) && Supply(LossLedger()) <= UINT256_MAX
    ensures "a" !in LossLedger().nonces && !Busy(LossLedger(), "a") && At(LossLedger().balances, "a") == 10100000
    ensures forall ch :: ch !in LossLedger().flights
  {
    BalancePut(Ledger(map[], 0, map[], map[]), "a", 10100000);
    assert map[]["a" := 10100000] == LossLedger().balances;
    assert Escrows(map[]) == map[];
  }

  /** A run from this genesis: one submission passes every gate and guard, and the live net asset value drops
      from one to zero. */
  lemma NavLost(node: Config)
    requires node.port == Rust
    ensures hide *; var r := RunBlocks(node, Init(LossGenesis()),
        [TickBlock(0, [Submission(SampleCal("a"), SampleTrace(LossGenesis(), [LossEffect(1)]), Atomic)])]);
      && V.IsBounded(LossGenesis()) && GetIn(LossGenesis(), NAV) == Some(Int(1))
      && r.Ok? && GetIn(r.value.live.state, NAV) == Some(Int(0)) && !Guarded(LossGenesis(), r.value.live.state)
  {
    hide *;
    var s, l, w := LossGenesis(), LossLedger(), Init(LossGenesis());
    var cal, trace := SampleCal("a"), SampleTrace(s, [LossEffect(1)]);
    var sub := Submission(cal, trace, Atomic);
    LossReads();
    LossRepresents();
    LossSound();
    LossKeyed();
    SmallAmounts();
    SampleFields("a");
    SampleTraceIs(s, [LossEffect(1)]);
    LossCommits(s, 1, 1);
    StillPasses(s, [LossEffect(1)]);
    LossBytes(1);
    ReadyIs(node, w, l, "a");
    HashIs(node, "a");
    NowIs(trace);
    var ch := SampleHash(node, "a");
    var w1, w2 := SampleEnters(node, w, l, "a", trace);
    Staging.PricesSame(s, w2.state);
    SampleContext("a", ch, w2.state, trace);
    SampleRuns(V.BuildContext(cal, ch, w2.state, trace), s, [LossEffect(1)]);
    IngressUnfolds(node, w, ch, "a");
    SubmissionLies(node, w, l, cal, trace, w2, 1);
    OneSubmission(node, w, sub);
  }

  /** A block of one submission at the tick at hand. */
  lemma OneSubmission(node: Config, w: Live, sub: Submission)
    requires w.tick == 0
    ensures hide *; var r, j := RunBlocks(node, w, [TickBlock(0, [sub])]), Submit(node, w, sub);
      (r.Ok? <==> j.Ok?) && (r.Ok? ==> r.value.live == j.value.0)
  {
    hide Submit; hide GlobalRoot; hide EventsOf; hide Push;
    var blocks := [TickBlock(0, [sub])];
    assert blocks[..0] == [] && [sub][..0] == [];
    assert RunBlocks(node, w, []) == Ok(Progress(w, [], []));
    assert Advance(node, w, 0) == Ok((w, []));
    assert SubmitAll(node, w, []) == Ok((w, []));
    assert SubmitAll(node, w, [sub]).Ok? <==> Submit(node, w, sub).Ok?;
    assert ApplyTick(node, w, blocks[0]).Ok? <==> SubmitAll(node, w, [sub]).Ok?;
  }
}
