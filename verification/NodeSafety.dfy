/** Safety over whole programs: at every submission boundary each agent has at most one CAL in
    flight, waiting at VALIDATED, and no CAL finalizes twice. */
module NodeSafety {
  import opened Wrappers
  import opened JsonTree
  import opened Events
  import opened Reducer
  import opened Ports
  import opened Ledgers
  import opened LedgerStep
  import opened Runs
  import opened Acceptance
  import opened Node
  import Conservation
  import Deltas
  import Gas
  import JcsRoundTrip
  import JcsText
  import Merkle
  import Staging
  import V = Validator

  // --- the node's folds are runs of the reducer ---

  lemma {:induction false} PushAllRuns(node: Config, w: Live, evs: seq<Event>)
    ensures hide *; var r := PushAll(node, w, evs);
      r.Ok? ==> Materialize(node.port, w.state, evs) == Ok(r.value.0.state) && r.value.0.tick == w.tick
    decreases |evs|
  {
    hide Apply;
    if evs != [] {
      PushAllRuns(node, w, evs[..|evs| - 1]);
    }
  }

  // --- how events move their own CAL on the ledger ---

  lemma CloseMoves(l: Ledger, ev: Event, ch: string)
    requires Step(l, ev).Ok? && Closes(ev) && ev.ch == ch
    ensures ch in l.flights
    ensures var m := Step(l, ev).value;
      m.flights == l.flights - {ch}
        && forall a :: At(m.nonces, a) == At(l.nonces, a) + if a == l.flights[ch].agent then 1 else 0
  {
    FlightsKept(l, ev);
    forall a
      ensures At(Step(l, ev).value.nonces, a) ==
        At(l.nonces, a) + if ev.ch in l.flights && l.flights[ev.ch].agent == a then 1 else 0
    {
      NonceMoves(l, ev, a);
    }
    NonceMoves(l, ev, "");
    hide Step;
  }

  lemma StayMoves(l: Ledger, ev: Event, ch: string)
    requires hide *;
      Step(l, ev).Ok? && (ev.CalSigned? || ev.CalValidated? || ev.CalExecuted? || ev.CalSettled?) && ev.ch == ch
    ensures ch in l.flights && ch in Step(l, ev).value.flights
    ensures var m := Step(l, ev).value;
      && m.flights == l.flights[ch := m.flights[ch]] && m.flights[ch].agent == l.flights[ch].agent
      && m.nonces == l.nonces
      && (ev.CalValidated? ==> m.flights[ch].stage == VALIDATED)
      && (ev.CalSigned? ==> m.flights[ch].stage == SIGNED)
  {
  }

  /** The CAL ch has left, and with it one nonce of its agent is used up. */
  ghost predicate Gone(l: Ledger, m: Ledger, ch: string, agent: string) {
    && m.flights == l.flights - {ch}
    && forall a :: At(m.nonces, a) == At(l.nonces, a) + if a == agent then 1 else 0
  }

  lemma TwoSteps(s: Json, l: Ledger, log: seq<Event>)
    requires hide *; Represents(s, l) && Sound(l.flights) && SafeLog(log) && Materialize(Rust, s, log).Ok? && log != []
    ensures var n := |log| - 1;
      && Materialize(Rust, s, log[..n]).Ok?
      && Step(LedgerAfter(l, log[..n]), log[n]) == Ok(LedgerAfter(l, log))
  {
    RunKeeps(s, l, log);
    hide Step; hide Apply;
  }

  lemma OneStep(s: Json, l: Ledger, ev: Event)
    requires Represents(s, l) && Sound(l.flights) && SafeEvent(ev) && Materialize(Rust, s, [ev]).Ok?
    ensures Step(l, ev) == Ok(LedgerAfter(l, [ev]))
  {
    assert [ev][..0] == [];
    hide Represents; hide Sound; hide Step; hide Apply; hide SafeEvent;
    TwoSteps(s, l, [ev]);
  }

  lemma TailSafe(c: V.Context, tail: seq<Event>, v: V.Verdict)
    requires TailShape(c, tail, v) && SafeTrace(c.trace)
    ensures SafeLog(tail)
  {
    StepsSafe(c, 0, []);
    hide V.RunSteps; hide SafeDelta;
  }

  /** Only the entry of ch differs, and that keeps its agent. */
  ghost predicate Stays(l: Ledger, m: Ledger, ch: string) {
    && ch in l.flights && ch in m.flights && m.flights == l.flights[ch := m.flights[ch]]
    && m.flights[ch].agent == l.flights[ch].agent && m.nonces == l.nonces
  }

  lemma StaysThenGone(l: Ledger, k: Ledger, m: Ledger, ch: string)
    requires Stays(l, k, ch) && Gone(k, m, ch, k.flights[ch].agent)
    ensures Gone(l, m, ch, l.flights[ch].agent)
  {
    DropAgain(l.flights, ch, k.flights[ch]);
  }

  lemma StaysTwice(l: Ledger, k: Ledger, m: Ledger, ch: string)
    requires Stays(l, k, ch) && Stays(k, m, ch)
    ensures Stays(l, m, ch)
  {
    assert l.flights[ch := k.flights[ch]][ch := m.flights[ch]] == l.flights[ch := m.flights[ch]];
  }

  lemma StepCloses(l: Ledger, ev: Event, m: Ledger, ch: string)
    requires Step(l, ev) == Ok(m) && Closes(ev) && ev.ch == ch
    ensures ch in l.flights && Gone(l, m, ch, l.flights[ch].agent)
  {
    CloseMoves(l, ev, ch);
    hide Step;
  }

  lemma StepStays(l: Ledger, ev: Event, m: Ledger, ch: string)
    requires Step(l, ev) == Ok(m) && (ev.CalSigned? || ev.CalValidated? || ev.CalExecuted? || ev.CalSettled?)
      && ev.ch == ch
    ensures Stays(l, m, ch)
  {
    StayMoves(l, ev, ch);
    hide Step;
  }

  /** Whatever phase B emits, once accepted, closes its CAL. */
  lemma TailMoves(s: Json, l: Ledger, c: V.Context, tail: seq<Event>, v: V.Verdict)
    requires hide *; Represents(s, l) && Sound(l.flights) && TailShape(c, tail, v) && SafeTrace(c.trace)
    requires Materialize(Rust, s, tail).Ok?
    ensures c.ch in l.flights && Gone(l, LedgerAfter(l, tail), c.ch, l.flights[c.ch].agent)
  {
    hide *;
    TailSafe(c, tail, v);
    SafePrefixes(tail);
    TailKinds(c, tail, v);
    var first, ch, m := [tail[0]], c.ch, LedgerAfter(l, tail);
    if |tail| == 1 {
      assert tail == first;
      OneStep(s, l, tail[0]);
      StepCloses(l, tail[0], m, ch);
    } else if |tail| == 2 {
      assert tail[..1] == first;
      TwoSteps(s, l, tail);
      OneStep(s, l, tail[0]);
      var k := LedgerAfter(l, first);
      StepStays(l, tail[0], k, ch);
      StaysIn(l, k, ch);
      StepCloses(k, tail[1], m, ch);
      StaysThenGone(l, k, m, ch);
    } else {
      var two := tail[..2];
      assert two[..1] == first && two[1] == tail[1] && |two| == 2;
      TwoSteps(s, l, tail);
      TwoSteps(s, l, two);
      OneStep(s, l, tail[0]);
      var k, k2 := LedgerAfter(l, first), LedgerAfter(l, two);
      StepStays(l, tail[0], k, ch);
      StepStays(k, tail[1], k2, ch);
      StaysTwice(l, k, k2, ch);
      StaysIn(l, k2, ch);
      StepCloses(k2, tail[2], m, ch);
      StaysThenGone(l, k2, m, ch);
    }
  }

  lemma SafePrefixes(log: seq<Event>)
    requires SafeLog(log)
    ensures forall i :: 0 <= i <= |log| ==> SafeLog(log[..i])
    ensures log != [] ==> SafeEvent(log[0])
  {
    hide SafeEvent;
  }

  lemma StaysIn(l: Ledger, m: Ledger, ch: string)
    requires Stays(l, m, ch)
    ensures ch in l.flights && ch in m.flights
  {
  }

  lemma TailKinds(c: V.Context, tail: seq<Event>, v: V.Verdict)
    requires TailShape(c, tail, v)
    ensures 1 <= |tail| <= 3
    ensures Closes(tail[|tail| - 1]) && tail[|tail| - 1].ch == c.ch
    ensures forall i :: 0 <= i < |tail| - 1 ==> (tail[i].CalExecuted? || tail[i].CalSettled?) && tail[i].ch == c.ch
  {
    hide Committed;
  }

  // --- what holds at a submission boundary ---

  function CalNonce(cal: Json): nat {
    Gas.AsBig(cal.Get("nonce"), 0)
  }

  /** Every CAL in flight waits at VALIDATED. */
  predicate Boundary(l: Ledger) {
    forall ch :: ch in l.flights ==> l.flights[ch].stage == VALIDATED
  }

  /** Every CAL in flight is one of the submitted ones, validated on the nonce its agent is at. */
  ghost predicate Backed(node: Config, l: Ledger, cals: set<Json>) {
    forall ch :: ch in l.flights ==> BackedBy(node, l, cals, ch)
  }

  ghost predicate BackedBy(node: Config, l: Ledger, cals: set<Json>, ch: string)
    requires ch in l.flights
  {
    exists cal :: cal in cals && cal.Obj? && CalHash(node, cal) == ch &&
      Gas.AgentId(cal) == Some(l.flights[ch].agent) && CalNonce(cal) == At(l.nonces, l.flights[ch].agent) + 1
  }

  /** The CAL hash tells the submitted CALs apart, up to their signatures. */
  ghost predicate Separated(node: Config, cals: set<Json>) {
    forall a, b :: a in cals && b in cals && a.Obj? && b.Obj? && CalHash(node, a) == CalHash(node, b)
      ==> Unsigned(a) == Unsigned(b)
  }

  /** What would break that is a collision of the hash. */
  lemma CalHashBinds(node: Config, a: Json, b: Json) returns (x: string, y: string)
    requires a.Obj? && b.Obj? && CalHash(node, a) == CalHash(node, b)
    ensures Unsigned(a) == Unsigned(b) || Merkle.Collides(node.sha, x, y)
  {
    hide JcsText.Print;
    var p, q := JcsText.Print(Unsigned(a)), JcsText.Print(Unsigned(b));
    Merkle.DomainBinds(node.sha, Merkle.CAL_V1, p, q);
    x, y := Merkle.CAL_V1 + p, Merkle.CAL_V1 + q;
    if p == q {
      JcsRoundTrip.PrintInjective(Unsigned(a), Unsigned(b));
    }
  }

  lemma UnsignedFields(a: Json, b: Json)
    requires a.Obj? && b.Obj? && Unsigned(a) == Unsigned(b)
    ensures Gas.AgentId(a) == Gas.AgentId(b) && CalNonce(a) == CalNonce(b)
  {
    assert "agent_id"[0] == 'a' && "nonce"[0] == 'n' && "signatures"[0] == 's';
    assert forall k :: k != "signatures" ==> a.Get(k) == Obj(a.fields - {"signatures"}).Get(k);
    assert forall k :: k != "signatures" ==> b.Get(k) == Obj(b.fields - {"signatures"}).Get(k);
    hide Gas.AsBig;
  }

  ghost predicate AtBoundary(node: Config, w: Live, l: Ledger, cals: set<Json>) {
    Represents(w.state, l) && Sound(l.flights) && Boundary(l) && Backed(node, l, cals) && node.port == Rust
  }

  /** After a CAL has gone, the others are backed as before: their agents are other agents. */
  lemma GoneKeepsBacked(node: Config, l: Ledger, m: Ledger, cals: set<Json>, ch: string, agent: string)
    requires Gone(l, m, ch, agent)
    requires forall c :: c in l.flights && c != ch ==>
      l.flights[c].agent != agent && l.flights[c].stage == VALIDATED && BackedBy(node, l, cals, c)
    ensures Boundary(m) && Backed(node, m, cals)
  {
    hide CalHash; hide Gas.AgentId; hide CalNonce;
    forall c | c in m.flights ensures m.flights[c].stage == VALIDATED && BackedBy(node, m, cals, c) {
      assert c in l.flights && c != ch && m.flights[c] == l.flights[c];
      var cal :| cal in cals && cal.Obj? && CalHash(node, cal) == c &&
        Gas.AgentId(cal) == Some(l.flights[c].agent) && CalNonce(cal) == At(l.nonces, l.flights[c].agent) + 1;
    }
  }

  // --- one submission ---

  /** From one boundary to the next; a finalized CAL used up exactly the next nonce of its agent. */
  ghost predicate Reaches(node: Config, l: Ledger, w1: Live, l1: Ledger, cals: set<Json>, cal: Json,
      terminal: Option<V.Terminal>) {
    hide *;
    && AtBoundary(node, w1, l1, cals)
    && (forall a :: At(l.nonces, a) <= At(l1.nonces, a))
    && (terminal == Some(V.FINALIZED) ==>
        && Gas.AgentId(cal).Some?
        && CalNonce(cal) == At(l.nonces, Gas.AgentId(cal).value) + 1
        && At(l1.nonces, Gas.AgentId(cal).value) == CalNonce(cal))
  }

  lemma RunStep(node: Config, w: Live, l: Ledger, evs: seq<Event>)
    requires hide *; node.port == Rust && Represents(w.state, l) && Sound(l.flights) && SafeLog(evs)
    requires PushAll(node, w, evs).Ok?
    ensures var w1, m := PushAll(node, w, evs).value.0, LedgerAfter(l, evs);
      && Materialize(Rust, w.state, evs) == Ok(w1.state)
      && Represents(w1.state, m) && Sound(m.flights) && node.port == Rust
      && Conservation.Supply(m) == Conservation.Supply(l)
  {
    hide Represents; hide Sound; hide Apply; hide Step; hide PushAll; hide SafeLog; hide LedgerAfter; hide Materialize;
    hide Conservation.Supply;
    PushAllRuns(node, w, evs);
    RunKeeps(w.state, l, evs);
  }

  lemma DriveCases(node: Config, w: Live, ch: string, agent: string, before: seq<Event>, roots: seq<Merkle.Digest>,
    events: seq<Event>, terminal: Option<V.Terminal>, reason: Option<V.Reason>)
    ensures hide *; var r := Drive(node, w, ch, agent, before, roots, events, terminal, reason);
      r.Ok? ==>
        PushAll(node, w, events).Ok? && r.value.0 == PushAll(node, w, events).value.0 && r.value.1.terminal == terminal
  {
    hide PushAll;
  }

  /** A CAL that is backed is resumed on the nonce it was validated on. */
  lemma ResumedNonce(node: Config, l: Ledger, cals: set<Json>, cal: Json, ch: string)
    requires ch in l.flights && BackedBy(node, l, cals, ch) && Separated(node, cals)
    requires cal in cals && cal.Obj? && CalHash(node, cal) == ch
    ensures Gas.AgentId(cal) == Some(l.flights[ch].agent) && CalNonce(cal) == At(l.nonces, l.flights[ch].agent) + 1
  {
    var other :| other in cals && other.Obj? && CalHash(node, other) == ch &&
      Gas.AgentId(other) == Some(l.flights[ch].agent) && CalNonce(other) == At(l.nonces, l.flights[ch].agent) + 1;
    UnsignedFields(cal, other);
    hide CalHash; hide Unsigned; hide CalNonce; hide Gas.AgentId;
  }

  lemma GoneReaches(node: Config, l: Ledger, w1: Live, m: Ledger, cals: set<Json>, ch: string, agent: string,
    cal: Json, terminal: Option<V.Terminal>)
    requires hide *; Represents(w1.state, m) && Sound(m.flights) && node.port == Rust && Gone(l, m, ch, agent)
    requires forall c :: c in l.flights && c != ch ==>
      l.flights[c].agent != agent && l.flights[c].stage == VALIDATED && BackedBy(node, l, cals, c)
    requires terminal == Some(V.FINALIZED)
      ==> Gas.AgentId(cal) == Some(agent) && CalNonce(cal) == At(l.nonces, agent) + 1
    ensures Reaches(node, l, w1, m, cals, cal, terminal)
  {
    GoneKeepsBacked(node, l, m, cals, ch, agent);
    hide Represents; hide Sound; hide Backed; hide BackedBy; hide Boundary; hide Gas.AgentId; hide CalNonce; 
  }

  lemma OthersBacked(node: Config, w: Live, l: Ledger, cals: set<Json>, ch: string, agent: string)
    requires hide *; AtBoundary(node, w, l, cals)
    requires ch in l.flights ==> l.flights[ch].agent == agent
    requires ch !in l.flights ==> !Busy(l, agent)
    ensures forall c :: c in l.flights && c != ch ==>
      l.flights[c].agent != agent && l.flights[c].stage == VALIDATED && BackedBy(node, l, cals, c)
  {
    hide Represents; hide BackedBy; hide SoundFlight;
  }

  lemma ResumeReaches(node: Config, w: Live, l: Ledger, cals: set<Json>, sub: Submission, agent: string)
      returns (m: Ledger)
    requires hide *; AtBoundary(node, w, l, cals) && Separated(node, cals) && SafeTrace(sub.trace)
    requires sub.cal in cals && sub.cal.Obj? && sub.mode.Resume?
    requires Judge(node, w, sub, CalHash(node, sub.cal), agent, [], []).Ok?
    ensures var (w1, res) := Judge(node, w, sub, CalHash(node, sub.cal), agent, [], []).value;
      Reaches(node, l, w1, m, cals, sub.cal, res.terminal)
  {
    hide *;
    var ch := CalHash(node, sub.cal);
    ResumeJudged(node, w, sub, ch, agent);
    var trace := sub.trace.(currentTick := w.tick);
    var c := V.BuildContext(sub.cal, ch, w.state, trace);
    var v := V.PhaseB(c, []).value;
    var (w1, res) := Judge(node, w, sub, ch, agent, [], []).value;
    BoundaryFacts(node, w, l, cals);
    ContextFields(sub.cal, ch, w.state, trace);
    TraceKept(sub.trace, w.tick);
    PhaseBShape(c, []);
    assert v.events[0..] == v.events;
    TailSafe(c, v.events, v);
    RunStep(node, w, l, v.events);
    TailMoves(w.state, l, c, v.events, v);
    var f := l.flights[ch];
    m := LedgerAfter(l, v.events);
    OthersBacked(node, w, l, cals, ch, f.agent);
    BackedHere(node, w, l, cals, ch);
    ResumedNonce(node, l, cals, sub.cal, ch);
    GoneReaches(node, l, w1, m, cals, ch, f.agent, sub.cal, res.terminal);
  }

  lemma BoundaryFacts(node: Config, w: Live, l: Ledger, cals: set<Json>)
    requires AtBoundary(node, w, l, cals)
    ensures Represents(w.state, l) && Sound(l.flights) && Boundary(l) && Backed(node, l, cals) && node.port == Rust
  {
  }

  lemma BackedHere(node: Config, w: Live, l: Ledger, cals: set<Json>, ch: string)
    requires hide *; AtBoundary(node, w, l, cals) && ch in l.flights
    ensures BackedBy(node, l, cals, ch)
  {
    hide BackedBy; hide Represents; hide Sound;
  }

  lemma TraceKept(trace: V.Trace, tick: nat)
    requires SafeTrace(trace)
    ensures SafeTrace(trace.(currentTick := tick))
  {
    hide SafeDeltas;
  }

  lemma ResumeJudged(node: Config, w: Live, sub: Submission, ch: string, agent: string)
    requires hide *; sub.mode.Resume? && Judge(node, w, sub, ch, agent, [], []).Ok?
    ensures var c := V.BuildContext(sub.cal, ch, w.state, sub.trace.(currentTick := w.tick));
      && V.PhaseB(c, []).Ok?
      && var v := V.PhaseB(c, []).value;
      && PushAll(node, w, v.events).Ok?
      && var (w1, res) := Judge(node, w, sub, ch, agent, [], []).value;
      && w1 == PushAll(node, w, v.events).value.0 && res.terminal == Some(v.terminal)
  {
    hide V.PhaseB; hide V.BuildContext; hide Drive; hide PushAll;
    var c := V.BuildContext(sub.cal, ch, w.state, sub.trace.(currentTick := w.tick));
    var r := V.PhaseB(c, []);
    if r.Ok? {
      DriveCases(node, w, ch, agent, [], [], r.value.events, Some(r.value.terminal), r.value.reason);
    }
  }

  // --- a fresh submission: created, signed, then validated ---

  /** The ledger once ingress has taken the CAL in. */
  function TakenIn(l: Ledger, ch: string, agent: string): Ledger {
    l.(flights := l.flights[ch := Flight(agent, SIGNED, 0, 0, [])])
  }

  lemma CreatedTaken(l: Ledger, ch: string, agent: string)
    requires Step(l, CalCreated(ch, agent)).Ok?
    ensures ch !in l.flights && !Busy(l, agent)
    ensures var l1 := Step(l, CalCreated(ch, agent)).value;
      Step(l1, CalSigned(ch)) == Ok(TakenIn(l, ch, agent))
  {
    var f := Flight(agent, CREATED, 0, 0, []);
    assert l.flights[ch := f][ch := f.(stage := SIGNED)] == l.flights[ch := f.(stage := SIGNED)];
    hide Busy;
  }

  lemma ApplyStep(s: Json, l: Ledger, ev: Event)
    requires hide *; Represents(s, l) && Sound(l.flights) && SafeEvent(ev) && (ev.CalCreated? || ev.CalSigned?)
    ensures Apply(s, ev).Ok? <==> Step(l, ev).Ok?
    ensures Apply(s, ev).Ok? ==>
      && Represents(Apply(s, ev).value, Step(l, ev).value) && Sound(Step(l, ev).value.flights)
      && SameOutside(s, Apply(s, ev).value)
  {
    hide Represents; hide Sound; hide Apply; hide Step; hide SameOutside; hide Deltas.Commit;
    Refines(s, l, ev);
    if Step(l, ev).Ok? { StepKeepsSound(l, ev); }
  }

  lemma PushCases(node: Config, w: Live, ev: Event)
    requires hide *; node.port == Rust
    requires ev.CalCreated? || ev.CalSigned?
    ensures Push(node, w, ev).Ok? <==> Apply(w.state, ev).Ok?
    ensures Push(node, w, ev).Ok?
      ==> Push(node, w, ev).value.state == Apply(w.state, ev).value && Push(node, w, ev).value.tick == w.tick
  {
    hide FindAt; hide SetIn; hide GetIn; hide MoveStage; hide AgentBusy; hide Entry; hide IN_FLIGHT;
  }

  /** Once cal.created is accepted, cal.signed is. */
  lemma TakesIn(node: Config, w: Live, l: Ledger, ch: string, agent: string)
    requires hide *; node.port == Rust && Represents(w.state, l) && Sound(l.flights)
    requires Push(node, w, CalCreated(ch, agent)).Ok?
    ensures var w1 := Push(node, w, CalCreated(ch, agent)).value;
      && Push(node, w1, CalSigned(ch)).Ok?
      && var w2 := Push(node, w1, CalSigned(ch)).value;
      && Represents(w2.state, TakenIn(l, ch, agent)) && Sound(TakenIn(l, ch, agent).flights)
      && ch !in l.flights && !Busy(l, agent) && w2.tick == w.tick && SameOutside(w.state, w2.state)
  {
    hide *;
    var created, signed := CalCreated(ch, agent), CalSigned(ch);
    assert created.CalCreated? && signed.CalSigned?;
    IngressEvents(ch, agent);
    PushCases(node, w, created);
    ApplyStep(w.state, l, created);
    CreatedTaken(l, ch, agent);
    var w1, l1 := Push(node, w, created).value, Step(l, created).value;
    PushCases(node, w1, signed);
    ApplyStep(w1.state, l1, signed);
    SameOutsideTransitive(w.state, w1.state, Push(node, w1, signed).value.state);
  }

  lemma IngressEvents(ch: string, agent: string)
    ensures SafeEvent(CalCreated(ch, agent)) && SafeEvent(CalSigned(ch))
  {
  }

  lemma GoneFresh(l: Ledger, m: Ledger, ch: string, agent: string)
    requires ch !in l.flights && Gone(TakenIn(l, ch, agent), m, ch, agent)
    ensures Gone(l, m, ch, agent)
  {
    assert l.flights[ch := Flight(agent, SIGNED, 0, 0, [])] - {ch} == l.flights;
    assert l.flights - {ch} == l.flights;
  }

  lemma TakenFlight(l: Ledger, ch: string, agent: string)
    ensures ch in TakenIn(l, ch, agent).flights
    ensures TakenIn(l, ch, agent).flights[ch].agent == agent && TakenIn(l, ch, agent).nonces == l.nonces
  {
  }

  /** The nonce gate: only the next nonce of the agent passes phase A. */
  lemma PassedNonce(c: V.Context)
    requires V.PhaseA(c) == Ok(None)
    ensures c.nonce == Nonce(c.snapshot, c.agent) + 1
  {
    hide V.SignatureGate; hide V.EvalExpr; hide Gas.CanValidate; hide Nonce; hide V.MCP_SCHEMA_HASH; hide V.StrOr;
    hide V.PreFail; hide V.PreExpire;
  }

  lemma NonceRead(s: Json, l: Ledger, a: string)
    requires Represents(s, l)
    ensures Nonce(s, a) == At(l.nonces, a)
  {
    hide Represents;
    PutNonce(s, l, a);
  }

  lemma ContextNonce(cal: Json, ch: string, s: Json, trace: V.Trace)
    ensures V.BuildContext(cal, ch, s, trace).nonce == CalNonce(cal)
  {
    hide Gas.FlatFee; hide Gas.MaxGas; hide V.StrOr; hide V.OwnerCount; hide V.IsBounded; hide V.OwnerGated;
    hide Gas.OwnerAuthUnits;
    hide Gas.AsBig;
  }

  lemma AgentOfContext(cal: Json, ch: string, s: Json, trace: V.Trace, agent: string)
    requires Gas.AgentId(cal) == Some(agent)
    ensures V.BuildContext(cal, ch, s, trace).agent == agent
  {
    ContextFields(cal, ch, s, trace);
    AgentRead(cal);
    hide V.BuildContext; hide Gas.AgentId; hide V.StrOr;
  }

  /** A CAL that stops in phase A leaves at once. */
  lemma StoppedMoves(s: Json, l: Ledger, c: V.Context, v: V.Verdict)
    requires hide *; Represents(s, l) && Sound(l.flights) && V.PhaseA(c) == Ok(Some(v))
    requires c.agent == V.StrOr(c.cal.Get("agent_id"), "")
    requires Materialize(Rust, s, v.events).Ok?
    ensures c.ch in l.flights && Gone(l, LedgerAfter(l, v.events), c.ch, l.flights[c.ch].agent)
    ensures v.terminal != V.FINALIZED
    ensures SafeLog(v.events)
  {
    hide *;
    StoppedShape(c, v);
    assert v.events == [v.events[0]];
    OneStep(s, l, v.events[0]);
    StepCloses(l, v.events[0], LedgerAfter(l, v.events), c.ch);
  }

  lemma StoppedShape(c: V.Context, v: V.Verdict)
    requires V.PhaseA(c) == Ok(Some(v)) && c.agent == V.StrOr(c.cal.Get("agent_id"), "")
    ensures |v.events| == 1 && Closes(v.events[0]) && v.events[0].ch == c.ch && v.terminal != V.FINALIZED
    ensures SafeEvent(v.events[0]) && SafeLog(v.events)
  {
    hide V.PhaseA; hide V.StrOr;
    PhaseAShape(c);
  }

  /** A CAL validated and driven on leaves at the end. */
  lemma DrivenMoves(s: Json, l: Ledger, c: V.Context, v: V.Verdict)
    requires hide *; Represents(s, l) && Sound(l.flights) && SafeTrace(c.trace)
    requires V.PhaseB(c, [V.ValidatedEvent(c)]) == Ok(v) && Materialize(Rust, s, v.events).Ok?
    ensures c.ch in l.flights && Gone(l, LedgerAfter(l, v.events), c.ch, l.flights[c.ch].agent)
    ensures SafeLog(v.events)
  {
    hide *;
    DrivenShape(c, v);
    var first, tail := V.ValidatedEvent(c), v.events[1..];
    assert v.events == [first] + tail;
    FoldFirst(s, l, first, tail);
    var s1, k := Materialize(Rust, s, [first]).value, LedgerAfter(l, [first]);
    OneStep(s, l, first);
    StepStays(l, first, k, c.ch);
    TailMoves(s1, k, c, tail, v);
    StaysIn(l, k, c.ch);
    StaysThenGone(l, k, LedgerAfter(k, tail), c.ch);
  }

  lemma DrivenShape(c: V.Context, v: V.Verdict)
    requires hide *; V.PhaseB(c, [V.ValidatedEvent(c)]) == Ok(v) && SafeTrace(c.trace)
    ensures |v.events| >= 1 && v.events[0] == V.ValidatedEvent(c) && TailShape(c, v.events[1..], v)
    ensures V.ValidatedEvent(c).CalValidated? && V.ValidatedEvent(c).ch == c.ch && SafeEvent(V.ValidatedEvent(c))
    ensures SafeLog(v.events) && SafeLog(v.events[1..])
  {
    hide V.PhaseB; hide TailShape; hide SafeTrace; hide V.IdNotes;
    PhaseBShape(c, [V.ValidatedEvent(c)]);
    assert v.events[..1][0] == v.events[0];
    TailSafe(c, v.events[1..], v);
    SafeCons(V.ValidatedEvent(c), v.events[1..]);
    assert v.events == [v.events[0]] + v.events[1..];
  }

  lemma SafeCons(ev: Event, log: seq<Event>)
    requires SafeEvent(ev) && SafeLog(log)
    ensures SafeLog([ev] + log)
  {
    hide SafeEvent;
  }

  lemma FoldFirst(s: Json, l: Ledger, first: Event, tail: seq<Event>)
    requires hide *;
      Represents(s, l) && Sound(l.flights) && SafeEvent(first) && Materialize(Rust, s, [first] + tail).Ok?
    ensures Materialize(Rust, s, [first]).Ok?
    ensures var s1, k := Materialize(Rust, s, [first]).value, LedgerAfter(l, [first]);
      && Represents(s1, k) && Sound(k.flights) && Materialize(Rust, s1, tail).Ok?
      && LedgerAfter(l, [first] + tail) == LedgerAfter(k, tail)
  {
    hide Represents; hide Sound; hide Apply; hide Step; hide SafeEvent;
    assert ([first] + tail)[..1] == [first];
    if Materialize(Rust, s, [first]).Err? {
      RejectedForGood(Rust, s, [first] + tail, 1);
    }
    FoldSplit(Rust, s, [first], tail);
    LedgerSplit(l, [first], tail);
    RunKeeps(s, l, [first]);
  }

  // --- from boundary to boundary ---

  lemma FreshReaches(node: Config, w: Live, w2: Live, l: Ledger, m: Ledger, cals: set<Json>, cal: Json, ch: string,
      agent: string,
    w1: Live, terminal: Option<V.Terminal>)
    requires AtBoundary(node, w, l, cals) && ch !in l.flights && !Busy(l, agent)
    requires Gone(TakenIn(l, ch, agent), m, ch, agent) && Represents(w1.state, m) && Sound(m.flights)
      && node.port == Rust
    requires terminal == Some(V.FINALIZED)
      ==> Gas.AgentId(cal) == Some(agent) && CalNonce(cal) == At(l.nonces, agent) + 1
    ensures Reaches(node, l, w1, m, cals, cal, terminal)
  {
    hide *;
    GoneFresh(l, m, ch, agent);
    OthersBacked(node, w, l, cals, ch, agent);
    GoneReaches(node, l, w1, m, cals, ch, agent, cal, terminal);
  }

  lemma JudgedAtomic(node: Config, w2: Live, sub: Submission, ch: string, agent: string, before: seq<Event>,
      roots: seq<Merkle.Digest>)
    requires hide *; sub.mode.Atomic? && Judge(node, w2, sub, ch, agent, before, roots).Ok?
    ensures var c := V.BuildContext(sub.cal, ch, w2.state, sub.trace.(currentTick := w2.tick));
      var (w1, res) := Judge(node, w2, sub, ch, agent, before, roots).value;
      && V.PhaseA(c).Ok?
      && (V.PhaseA(c).value.None? ==> V.PhaseB(c, [V.ValidatedEvent(c)]).Ok?)
      && var v := if V.PhaseA(c).value.Some? then V.PhaseA(c).value.value else V.PhaseB(c, [V.ValidatedEvent(c)]).value;
      && PushAll(node, w2, v.events).Ok? && w1 == PushAll(node, w2, v.events).value.0
      && res.terminal == Some(v.terminal)
  {
    hide V.PhaseA; hide V.PhaseB; hide V.BuildContext; hide Drive; hide PushAll; hide V.ValidatedEvent;
    var c := V.BuildContext(sub.cal, ch, w2.state, sub.trace.(currentTick := w2.tick));
    var r := V.Validate(sub.cal, ch, w2.state, sub.trace.(currentTick := w2.tick));
    if r.Ok? {
      DriveCases(node, w2, ch, agent, before, roots, r.value.events, Some(r.value.terminal), r.value.reason);
    }
  }

  lemma AtomicReaches(node: Config, w: Live, w2: Live, l: Ledger, cals: set<Json>, sub: Submission, ch: string,
      agent: string,
    before: seq<Event>, roots: seq<Merkle.Digest>) returns (m: Ledger)
    requires hide *; AtBoundary(node, w, l, cals) && SafeTrace(sub.trace) && ch !in l.flights
    requires !Busy(l, agent)
    requires Represents(w2.state, TakenIn(l, ch, agent)) && Sound(TakenIn(l, ch, agent).flights)
    requires sub.mode.Atomic? && Gas.AgentId(sub.cal) == Some(agent)
    requires Judge(node, w2, sub, ch, agent, before, roots).Ok?
    ensures var (w1, res) := Judge(node, w2, sub, ch, agent, before, roots).value;
      Reaches(node, l, w1, m, cals, sub.cal, res.terminal)
  {
    hide *;
    var trace, l2 := sub.trace.(currentTick := w2.tick), TakenIn(l, ch, agent);
    var c := V.BuildContext(sub.cal, ch, w2.state, trace);
    JudgedAtomic(node, w2, sub, ch, agent, before, roots);
    var (w1, res) := Judge(node, w2, sub, ch, agent, before, roots).value;
    ContextFields(sub.cal, ch, w2.state, trace);
    TraceKept(sub.trace, w2.tick);
    TakenFlight(l, ch, agent);
    var v := if V.PhaseA(c).value.Some? then V.PhaseA(c).value.value else V.PhaseB(c, [V.ValidatedEvent(c)]).value;
    m := LedgerAfter(l2, v.events);
    BoundaryFacts(node, w, l, cals);
    if V.PhaseA(c).value.Some? {
      StoppedShape(c, v);
      RunStep(node, w2, l2, v.events);
      StoppedMoves(w2.state, l2, c, v);
    } else {
      DrivenShape(c, v);
      RunStep(node, w2, l2, v.events);
      DrivenMoves(w2.state, l2, c, v);
      PassedNonce(c);
      ContextNonce(sub.cal, ch, w2.state, trace);
      AgentOfContext(sub.cal, ch, w2.state, trace, agent);
      NonceRead(w2.state, l2, agent);
    }
    FreshReaches(node, w, w2, l, m, cals, sub.cal, ch, agent, w1, res.terminal);
  }

  lemma JudgedStaged(node: Config, w2: Live, sub: Submission, ch: string, agent: string, before: seq<Event>,
      roots: seq<Merkle.Digest>)
    requires hide *; sub.mode.ValidateOnly? && Judge(node, w2, sub, ch, agent, before, roots).Ok?
    ensures var c := V.BuildContext(sub.cal, ch, w2.state, sub.trace.(currentTick := w2.tick));
      var (w1, res) := Judge(node, w2, sub, ch, agent, before, roots).value;
      && V.PhaseA(c).Ok?
      && var evs := if V.PhaseA(c).value.Some? then V.PhaseA(c).value.value.events else [V.ValidatedEvent(c)];
      && PushAll(node, w2, evs).Ok? && w1 == PushAll(node, w2, evs).value.0
      && res.terminal == if V.PhaseA(c).value.Some? then Some(V.PhaseA(c).value.value.terminal) else None
  {
    hide V.PhaseB;
    hide V.PhaseA; hide V.BuildContext; hide Drive; hide PushAll; hide V.ValidatedEvent;
    var r := V.ValidateToValidated(sub.cal, ch, w2.state, sub.trace.(currentTick := w2.tick));
    if r.Ok? {
      var t := r.value.terminal;
      DriveCases(node, w2, ch, agent, before, roots, r.value.events,
        if t.Some? then Some(t.value.terminal) else None, if t.Some? then t.value.reason else None);
    }
  }

  /** Stage 1 leaves the CAL waiting, backed by itself. */
  lemma WaitingReaches(node: Config, w: Live, w1: Live, l: Ledger, m: Ledger, cals: set<Json>, cal: Json, ch: string,
      agent: string)
    requires AtBoundary(node, w, l, cals) && ch !in l.flights && !Busy(l, agent)
    requires Stays(TakenIn(l, ch, agent), m, ch) && m.flights[ch].stage == VALIDATED && Represents(w1.state, m)
    requires Sound(m.flights) && node.port == Rust
    requires cal in cals && cal.Obj? && CalHash(node, cal) == ch && Gas.AgentId(cal) == Some(agent)
    requires CalNonce(cal) == At(l.nonces, agent) + 1
    ensures Reaches(node, l, w1, m, cals, cal, None)
  {
    hide *;
    OthersBacked(node, w, l, cals, ch, agent);
    WaitingFlights(l, m, ch, agent);
    forall c | c in m.flights ensures m.flights[c].stage == VALIDATED && BackedBy(node, m, cals, c) {
      if c != ch {
        BackedMoves(node, l, m, cals, c);
      } else {
        BackedFresh(node, m, cals, cal, ch);
      }
    }
    ReachesWaiting(node, l, w1, m, cals, cal);
  }

  lemma WaitingFlights(l: Ledger, m: Ledger, ch: string, agent: string)
    requires Stays(TakenIn(l, ch, agent), m, ch)
    ensures m.nonces == l.nonces && ch in m.flights && m.flights[ch].agent == agent
    ensures forall c :: c != ch ==> (c in m.flights <==> c in l.flights)
    ensures forall c :: c in m.flights && c != ch ==> m.flights[c] == l.flights[c]
  {
  }

  lemma BackedMoves(node: Config, l: Ledger, m: Ledger, cals: set<Json>, c: string)
    requires c in l.flights && c in m.flights && m.flights[c] == l.flights[c] && m.nonces == l.nonces
    requires BackedBy(node, l, cals, c)
    ensures BackedBy(node, m, cals, c)
  {
    hide CalHash; hide Gas.AgentId; hide CalNonce;
  }

  lemma BackedFresh(node: Config, m: Ledger, cals: set<Json>, cal: Json, ch: string)
    requires cal in cals && cal.Obj? && CalHash(node, cal) == ch && ch in m.flights
    requires Gas.AgentId(cal) == Some(m.flights[ch].agent) && CalNonce(cal) == At(m.nonces, m.flights[ch].agent) + 1
    ensures BackedBy(node, m, cals, ch)
  {
    hide CalHash; hide Gas.AgentId; hide CalNonce;
  }

  lemma ReachesWaiting(node: Config, l: Ledger, w1: Live, m: Ledger, cals: set<Json>, cal: Json)
    requires hide *; Represents(w1.state, m) && Sound(m.flights) && node.port == Rust && m.nonces == l.nonces
    requires forall c :: c in m.flights ==> m.flights[c].stage == VALIDATED && BackedBy(node, m, cals, c)
    ensures Reaches(node, l, w1, m, cals, cal, None)
  {
    hide Represents; hide Sound; hide BackedBy; hide Gas.AgentId; hide CalNonce; 
  }

  lemma StagedReaches(node: Config, w: Live, w2: Live, l: Ledger, cals: set<Json>, sub: Submission, ch: string,
      agent: string,
    before: seq<Event>, roots: seq<Merkle.Digest>) returns (m: Ledger)
    requires hide *; AtBoundary(node, w, l, cals) && ch !in l.flights && !Busy(l, agent)
    requires Represents(w2.state, TakenIn(l, ch, agent)) && Sound(TakenIn(l, ch, agent).flights)
    requires sub.mode.ValidateOnly? && Gas.AgentId(sub.cal) == Some(agent)
    requires Judge(node, w2, sub, ch, agent, before, roots).Ok?
    requires sub.cal in cals && sub.cal.Obj? && CalHash(node, sub.cal) == ch
    ensures var (w1, res) := Judge(node, w2, sub, ch, agent, before, roots).value;
      Reaches(node, l, w1, m, cals, sub.cal, res.terminal)
  {
    hide *;
    var trace, l2 := sub.trace.(currentTick := w2.tick), TakenIn(l, ch, agent);
    var c := V.BuildContext(sub.cal, ch, w2.state, trace);
    JudgedStaged(node, w2, sub, ch, agent, before, roots);
    var (w1, res) := Judge(node, w2, sub, ch, agent, before, roots).value;
    ContextFields(sub.cal, ch, w2.state, trace);
    TakenFlight(l, ch, agent);
    var evs := if V.PhaseA(c).value.Some? then V.PhaseA(c).value.value.events else [V.ValidatedEvent(c)];
    m := LedgerAfter(l2, evs);
    BoundaryFacts(node, w, l, cals);
    if V.PhaseA(c).value.Some? {
      StoppedShape(c, V.PhaseA(c).value.value);
      RunStep(node, w2, l2, evs);
      StoppedMoves(w2.state, l2, c, V.PhaseA(c).value.value);
      FreshReaches(node, w, w2, l, m, cals, sub.cal, ch, agent, w1, res.terminal);
    } else {
      ValidatedSafe(c);
      RunStep(node, w2, l2, evs);
      ValidatedMoves(w2.state, l2, c);
      PassedNonce(c);
      ContextNonce(sub.cal, ch, w2.state, trace);
      AgentOfContext(sub.cal, ch, w2.state, trace, agent);
      NonceRead(w2.state, l2, agent);
      WaitingReaches(node, w, w1, l, m, cals, sub.cal, ch, agent);
    }
  }

  lemma ValidatedSafe(c: V.Context)
    ensures SafeLog([V.ValidatedEvent(c)])
  {
    hide V.IdNotes;
  }

  lemma ValidatedMoves(s: Json, l: Ledger, c: V.Context)
    requires Represents(s, l) && Sound(l.flights) && Materialize(Rust, s, [V.ValidatedEvent(c)]).Ok?
    ensures var m := LedgerAfter(l, [V.ValidatedEvent(c)]);
      Stays(l, m, c.ch) && m.flights[c.ch].stage == VALIDATED && SafeLog([V.ValidatedEvent(c)])
  {
    var ev := V.ValidatedEvent(c);
    hide Represents; hide Sound; hide Materialize; hide Step; hide LedgerAfter; hide V.IdNotes;
    OneStep(s, l, ev);
    StayMoves(l, ev, c.ch);
  }

  // --- no integration defect ---

  lemma {:induction false} PushAllAccepts(node: Config, w: Live, evs: seq<Event>)
    ensures PushAll(node, w, evs).Ok? <==> Materialize(node.port, w.state, evs).Ok?
    decreases |evs|
  {
    hide Apply;
    if evs != [] {
      PushAllRuns(node, w, evs[..|evs| - 1]);
      PushAllAccepts(node, w, evs[..|evs| - 1]);
    }
  }

  lemma TakenSupply(l: Ledger, ch: string, agent: string)
    requires ch !in l.flights
    ensures Conservation.Supply(TakenIn(l, ch, agent)) == Conservation.Supply(l)
    ensures TakenIn(l, ch, agent).flights[ch].stage == SIGNED
  {
    Conservation.FlightPut(l, ch, Flight(agent, SIGNED, 0, 0, []));
    hide Conservation.Supply;
  }

  lemma AtomicJudged(node: Config, w2: Live, sub: Submission, ch: string, agent: string, before: seq<Event>,
      roots: seq<Merkle.Digest>)
    requires hide *; sub.mode.Atomic?
    ensures var r := V.Validate(sub.cal, ch, w2.state, sub.trace.(currentTick := w2.tick));
      var j := Judge(node, w2, sub, ch, agent, before, roots);
      && (r.Err? ==> j == Err(VALIDATE_ERROR(r.error)))
      && (r.Ok? && PushAll(node, w2, r.value.events).Ok? ==> j.Ok?)
      && (r.Ok? && PushAll(node, w2, r.value.events).Err?
        ==> j == Err(APPLY_FAILED(PushAll(node, w2, r.value.events).error)))
  {
    hide V.PhaseA; hide V.PhaseB;
    hide V.Validate; hide PushAll;
    var r := V.Validate(sub.cal, ch, w2.state, sub.trace.(currentTick := w2.tick));
  }

  lemma CommitsAlike(s: Json, t: Json, cal: Json, ch: string, trace: V.Trace, terminal: V.Terminal)
    requires SameOutside(s, t) && SafeTrace(trace)
    ensures Commits(t, V.BuildContext(cal, ch, t, trace), terminal)
      <==> Commits(s, V.BuildContext(cal, ch, s, trace), terminal)
  {
    hide V.BuildContext; hide Deltas.Commit; hide V.RunSteps; hide SameOutside; hide SafeTrace; hide SafeDeltas;
    var c := V.BuildContext(cal, ch, s, trace);
    ContextFields(cal, ch, s, trace);
    Staging.ContextSame(cal, ch, s, t, trace);
    Staging.RunStepsSame(c, t, 0, []);
    CommitsMoved(s, t, c, terminal);
  }

  /** The live state once ingress has taken the CAL in, if it does. */
  function AfterIngress(node: Config, w: Live, ch: string, agent: string): Option<Live> {
    match Push(node, w, CalCreated(ch, agent))
    case Err(_) => None
    case Ok(w1) => match Push(node, w1, CalSigned(ch)) case Err(_) => None case Ok(w2) => Some(w2)
  }

  /** Ingress takes the CAL in, the validator finalizes it, and its effects do not commit. */
  predicate EffectsFail(node: Config, w: Live, sub: Submission) {
    hide *;
    sub.cal.Obj? && Gas.AgentId(sub.cal).Some? &&
    var ch, trace := CalHash(node, sub.cal), sub.trace.(currentTick := w.tick);
    match AfterIngress(node, w, ch, Gas.AgentId(sub.cal).value)
    case None => false
    case Some(w2) =>
      var r := V.Validate(sub.cal, ch, w2.state, trace);
      r.Ok? && !Commits(w.state, V.BuildContext(sub.cal, ch, w.state, trace), r.value.terminal)
  }

  lemma IngressUnfolds(node: Config, w: Live, ch: string, agent: string)
    ensures hide *; AfterIngress(node, w, ch, agent) ==
      if Push(node, w, CalCreated(ch, agent)).Err? then None
      else
        var w1 := Push(node, w, CalCreated(ch, agent)).value;
        if Push(node, w1, CalSigned(ch)).Err? then None else Some(Push(node, w1, CalSigned(ch)).value)
  {
    hide Push;
  }

  lemma EffectsFailUnfolds(node: Config, w: Live, sub: Submission, ch: string, agent: string)
    requires hide *; sub.cal.Obj? && ch == CalHash(node, sub.cal) && Gas.AgentId(sub.cal) == Some(agent)
    ensures EffectsFail(node, w, sub) <==>
      AfterIngress(node, w, ch, agent).Some? &&
      var trace := sub.trace.(currentTick := w.tick);
      var r := V.Validate(sub.cal, ch, AfterIngress(node, w, ch, agent).value.state, trace);
      r.Ok? && !Commits(w.state, V.BuildContext(sub.cal, ch, w.state, trace), r.value.terminal)
  {
    hide CalHash; hide AfterIngress; hide V.Validate; hide V.BuildContext; hide Commits; hide Gas.AgentId;
  }

  lemma ValidateSafe(cal: Json, ch: string, s: Json, trace: V.Trace)
    requires hide *; V.Validate(cal, ch, s, trace).Ok? && SafeTrace(trace)
    ensures SafeLog(V.Validate(cal, ch, s, trace).value.events)
  {
    hide *;
    var c, v := V.BuildContext(cal, ch, s, trace), V.Validate(cal, ch, s, trace).value;
    ContextFields(cal, ch, s, trace);
    ValidateUnfolds(cal, ch, s, trace);
    if V.PhaseA(c).value.Some? { StoppedShape(c, v); } else { DrivenShape(c, v); }
  }

  /** The events of a validation are all accepted exactly when the effects commit,. */
  lemma ValidatePushed(node: Config, w: Live, l: Ledger, cal: Json, ch: string, trace: V.Trace)
    requires hide *;
      node.port == Rust && Represents(w.state, l) && Sound(l.flights) && Conservation.Supply(l) <= Deltas.UINT256_MAX
    requires ch in l.flights && l.flights[ch].stage == SIGNED && l.flights[ch].agent == V.StrOr(cal.Get("agent_id"), "")
    requires SafeTrace(trace) && V.Validate(cal, ch, w.state, trace).Ok?
    ensures var v := V.Validate(cal, ch, w.state, trace).value;
      PushAll(node, w, v.events).Ok? <==> Commits(w.state, V.BuildContext(cal, ch, w.state, trace), v.terminal)
  {
    hide *;
    var v := V.Validate(cal, ch, w.state, trace).value;
    ValidateAccepted(w.state, l, cal, ch, trace);
    PushAllAccepts(node, w, v.events);
    ValidateSafe(cal, ch, w.state, trace);
  }

  /** When an atomic submission fails on an event that the reducer rejects, with the
      supply in range and safe effects, exactly when the validator finalizes a CAL whose effects do
      not commit. Every other error is a malformed CAL or a gas error. */
  lemma AtomicRejectedExactly(node: Config, w: Live, l: Ledger, sub: Submission)
    requires hide *;
      node.port == Rust && Represents(w.state, l) && Sound(l.flights) && Conservation.Supply(l) <= Deltas.UINT256_MAX
    requires sub.mode.Atomic? && SafeTrace(sub.trace)
    ensures Submit(node, w, sub).Err? && Submit(node, w, sub).error.APPLY_FAILED? <==> EffectsFail(node, w, sub)
  {
    hide *;
    SubmitFresh(node, w, sub);
    if sub.cal.Obj? && Gas.AgentId(sub.cal).Some? {
      var ch, agent := CalHash(node, sub.cal), Gas.AgentId(sub.cal).value;
      IngressCases(node, w, sub, ch, agent);
      IngressUnfolds(node, w, ch, agent);
      EffectsFailUnfolds(node, w, sub, ch, agent);
      var created, signed := CalCreated(ch, agent), CalSigned(ch);
      if Push(node, w, created).Ok? {
        TakesIn(node, w, l, ch, agent);
        var w1 := Push(node, w, created).value;
        var w2 := Push(node, w1, signed).value;
        var l2, trace := TakenIn(l, ch, agent), sub.trace.(currentTick := w.tick);
        TakenSupply(l, ch, agent);
        TakenFlight(l, ch, agent);
        AgentRead(sub.cal);
        AtomicJudged(node, w2, sub, ch, agent, [created, signed], [node.root(w1.state), node.root(w2.state)]);
        TraceKept(sub.trace, w.tick);
        var r := V.Validate(sub.cal, ch, w2.state, trace);
        if r.Ok? {
          CommitsAlike(w.state, w2.state, sub.cal, ch, trace, r.value.terminal);
          ValidatePushed(node, w2, l2, sub.cal, ch, trace);
        }
      }
    } else if EffectsFail(node, w, sub) {
      EffectsFailNeeds(node, w, sub);
    }
  }

  lemma EffectsFailNeeds(node: Config, w: Live, sub: Submission)
    requires EffectsFail(node, w, sub)
    ensures sub.cal.Obj? && Gas.AgentId(sub.cal).Some?
  {
    hide CalHash; hide AfterIngress; hide V.Validate; hide V.BuildContext; hide Commits; hide Gas.AgentId;
  }

  lemma SubmitFresh(node: Config, w: Live, sub: Submission)
    requires hide *; !sub.mode.Resume?
    ensures Submit(node, w, sub) ==
      if !sub.cal.Obj? then Err(NOT_OBJECT)
      else if Gas.AgentId(sub.cal).None? then Err(BAD_CAL)
      else Ingress(node, w, sub, CalHash(node, sub.cal), Gas.AgentId(sub.cal).value)
  {
    hide Judge;
    hide Ingress; hide CalHash; hide Gas.AgentId;
  }

  // --- whole programs ---

  lemma IngressReaches(node: Config, w: Live, l: Ledger, cals: set<Json>, sub: Submission, ch: string, agent: string)
      returns (m: Ledger)
    requires hide *; AtBoundary(node, w, l, cals) && SafeTrace(sub.trace) && sub.cal in cals
    requires sub.cal.Obj?
    requires !sub.mode.Resume? && Gas.AgentId(sub.cal) == Some(agent) && CalHash(node, sub.cal) == ch
    requires Ingress(node, w, sub, ch, agent).Ok?
    ensures var (w1, res) := Ingress(node, w, sub, ch, agent).value;
      Reaches(node, l, w1, m, cals, sub.cal, res.terminal)
  {
    IngressCases(node, w, sub, ch, agent);
    hide *;
    BoundaryFacts(node, w, l, cals);
    var created, signed := CalCreated(ch, agent), CalSigned(ch);
    if Push(node, w, created).Ok? {
      TakesIn(node, w, l, ch, agent);
      var w1 := Push(node, w, created).value;
      var w2 := Push(node, w1, signed).value;
      var before, roots := [created, signed], [node.root(w1.state), node.root(w2.state)];
      if sub.mode == Atomic {
        m := AtomicReaches(node, w, w2, l, cals, sub, ch, agent, before, roots);
      } else {
        m := StagedReaches(node, w, w2, l, cals, sub, ch, agent, before, roots);
      }
    } else {
      m := l;
      ReachesNothing(node, w, l, cals, sub.cal);
    }
  }

  lemma IngressCases(node: Config, w: Live, sub: Submission, ch: string, agent: string)
    ensures hide *; var created, signed := CalCreated(ch, agent), CalSigned(ch);
      && (Push(node, w, created).Err? ==>
          Ingress(node, w, sub, ch, agent).Ok? && Ingress(node, w, sub, ch, agent).value.0 == w &&
          Ingress(node, w, sub, ch, agent).value.1.terminal == None)
      && (Push(node, w, created).Ok? ==>
          var w1 := Push(node, w, created).value;
          Push(node, w1, signed).Ok? ==>
            var w2 := Push(node, w1, signed).value;
            Ingress(node, w, sub, ch, agent) ==
              Judge(node, w2, sub, ch, agent, [created, signed], [node.root(w1.state), node.root(w2.state)]))
    ensures !sub.mode.Resume? ==> sub.mode == Atomic || sub.mode.ValidateOnly?
    ensures sub.mode == Atomic ==> sub.mode.Atomic?
  {
    hide Push; hide Judge;
  }

  lemma ReachesNothing(node: Config, w: Live, l: Ledger, cals: set<Json>, cal: Json)
    requires AtBoundary(node, w, l, cals)
    ensures Reaches(node, l, w, l, cals, cal, None)
  {
    hide AtBoundary;
  }

  /** Where the hash tells the CALs apart, every accepted submission leads from a boundary to a boundary. */
  lemma SeparatedReaches(node: Config, w: Live, l: Ledger, cals: set<Json>, sub: Submission) returns (m: Ledger)
    requires hide *; AtBoundary(node, w, l, cals) && Separated(node, cals) && SafeTrace(sub.trace) && sub.cal in cals
    requires Submit(node, w, sub).Ok?
    ensures var (w1, res) := Submit(node, w, sub).value;
      Reaches(node, l, w1, m, cals, sub.cal, res.terminal)
  {
    hide Ingress; hide Judge; hide CalHash; hide AtBoundary; hide Reaches; hide Separated; hide SafeTrace;
    hide Gas.AgentId;
    var ch, agent := CalHash(node, sub.cal), Gas.AgentId(sub.cal).value;
    if sub.mode.Resume? {
      m := ResumeReaches(node, w, l, cals, sub, agent);
    } else {
      m := IngressReaches(node, w, l, cals, sub, ch, agent);
    }
  }

  predicate SafeSubs(subs: seq<Submission>, cals: set<Json>) {
    forall i :: 0 <= i < |subs| ==> SafeTrace(subs[i].trace) && subs[i].cal in cals
  }

  /** The finalized CALs of a list of submissions, in order. */
  function FinalizedCals(subs: seq<Submission>, results: seq<SubmissionResult>): seq<Json>
    requires |subs| == |results|
  {
    if subs == [] then []
    else
      var n := |subs| - 1;
      FinalizedCals(subs[..n], results[..n]) + if results[n].terminal == Some(V.FINALIZED) then [subs[n].cal] else []
  }

  /** Finalized CALs of one agent carry strictly increasing nonces, none beyond the agent's own. */
  ghost predicate Ordered(l: Ledger, done: seq<Json>) {
    && (forall i :: 0 <= i < |done| ==>
        Gas.AgentId(done[i]).Some? && CalNonce(done[i]) <= At(l.nonces, Gas.AgentId(done[i]).value))
    && forall i, j :: 0 <= i < j < |done| && Gas.AgentId(done[i]) == Gas.AgentId(done[j]) ==>
      CalNonce(done[i]) < CalNonce(done[j])
  }

  lemma OrderedPush(node: Config, l: Ledger, w1: Live, m: Ledger, cals: set<Json>, cal: Json,
      terminal: Option<V.Terminal>, done: seq<Json>)
    requires Ordered(l, done) && Reaches(node, l, w1, m, cals, cal, terminal)
    ensures Ordered(m, done + if terminal == Some(V.FINALIZED) then [cal] else [])
  {
    hide AtBoundary; hide Gas.AgentId; hide CalNonce;
  }

  lemma {:induction false} SubmitAllReaches(node: Config, w: Live, l: Ledger, cals: set<Json>, subs: seq<Submission>,
      done: seq<Json>)
    returns (m: Ledger)
    requires hide *; AtBoundary(node, w, l, cals) && Separated(node, cals) && SafeSubs(subs, cals)
    requires Ordered(l, done)
    requires SubmitAll(node, w, subs).Ok?
    ensures var (w1, results) := SubmitAll(node, w, subs).value;
      |results| == |subs| && AtBoundary(node, w1, m, cals) && Ordered(m, done + FinalizedCals(subs, results))
    decreases |subs|
  {
    hide Submit; hide AtBoundary; hide Reaches; hide Separated; hide SafeTrace; hide Ordered;
    if subs == [] {
      m := l;
      assert done + [] == done;
    } else {
      var n := |subs| - 1;
      var k := SubmitAllReaches(node, w, l, cals, subs[..n], done);
      var (w1, results) := SubmitAll(node, w, subs[..n]).value;
      m := SeparatedReaches(node, w1, k, cals, subs[n]);
      var (w2, result) := Submit(node, w1, subs[n]).value;
      var before := FinalizedCals(subs[..n], results);
      OrderedPush(node, k, w2, m, cals, subs[n].cal, result.terminal, done + before);
      ReachesBoundary(node, k, w2, m, cals, subs[n].cal, result.terminal);
      assert (results + [result])[..n] == results;
      var more := if result.terminal == Some(V.FINALIZED) then [subs[n].cal] else [];
      assert done + before + more == done + (before + more);
    }
  }

  lemma ReachesBoundary(node: Config, l: Ledger, w1: Live, m: Ledger, cals: set<Json>, cal: Json,
      terminal: Option<V.Terminal>)
    requires Reaches(node, l, w1, m, cals, cal, terminal)
    ensures AtBoundary(node, w1, m, cals)
  {
    hide AtBoundary;
  }

  lemma AdvanceKeeps(node: Config, w: Live, l: Ledger, cals: set<Json>, tick: nat)
    requires hide *; AtBoundary(node, w, l, cals) && Advance(node, w, tick).Ok?
    ensures AtBoundary(node, Advance(node, w, tick).value.0, l, cals)
  {
    hide Represents; hide Sound; hide Boundary; hide Backed; hide Apply; hide Deltas.Commit;
    hide SameOutside;
    Refines(w.state, l, TickAdvanced(tick));
  }

  /** The submissions of all blocks, and what became of them. */
  function AllSubs(blocks: seq<TickBlock>): seq<Submission> {
    if blocks == [] then [] else AllSubs(blocks[..|blocks| - 1]) + blocks[|blocks| - 1].submissions
  }

  function AllResults(ticks: seq<TickResult>): seq<SubmissionResult> {
    if ticks == [] then [] else AllResults(ticks[..|ticks| - 1]) + ticks[|ticks| - 1].submissions
  }

  lemma {:induction false} FinalizedJoin(a: seq<Submission>, ra: seq<SubmissionResult>, b: seq<Submission>,
      rb: seq<SubmissionResult>)
    requires |a| == |ra| && |b| == |rb|
    ensures FinalizedCals(a + b, ra + rb) == FinalizedCals(a, ra) + FinalizedCals(b, rb)
    decreases |b|
  {
    if b == [] {
      assert a + b == a && ra + rb == ra;
    } else {
      var n := |b| - 1;
      assert (a + b)[..|a + b| - 1] == a + b[..n] && (ra + rb)[..|a + b| - 1] == ra + rb[..n];
      assert (a + b)[|a + b| - 1] == b[n] && (ra + rb)[|a + b| - 1] == rb[n];
      FinalizedJoin(a, ra, b[..n], rb[..n]);
    }
  }

  lemma {:induction false} RunReaches(node: Config, start: Live, l: Ledger, cals: set<Json>, blocks: seq<TickBlock>)
      returns (m: Ledger)
    requires hide *; AtBoundary(node, start, l, cals) && Separated(node, cals)
    requires SafeSubs(AllSubs(blocks), cals)
    requires RunBlocks(node, start, blocks).Ok?
    ensures var p := RunBlocks(node, start, blocks).value;
      && AtBoundary(node, p.live, m, cals) && |AllResults(p.ticks)| == |AllSubs(blocks)|
      && Ordered(m, FinalizedCals(AllSubs(blocks), AllResults(p.ticks)))
    decreases |blocks|
  {
    hide SubmitAll; hide Advance; hide AtBoundary; hide Separated; hide SafeTrace; hide Ordered; hide GlobalRoot;
    hide FinalizedCals;
    if blocks == [] {
      m := l;
      NothingDone(l);
    } else {
      var n := |blocks| - 1;
      var p := RunBlocks(node, start, blocks[..n]).value;
      SafeSplit(blocks, cals);
      var k := RunReaches(node, start, l, cals, blocks[..n]);
      AdvanceKeeps(node, p.live, k, cals, blocks[n].tick);
      var (w1, _) := Advance(node, p.live, blocks[n].tick).value;
      var done := FinalizedCals(AllSubs(blocks[..n]), AllResults(p.ticks));
      m := SubmitAllReaches(node, w1, k, cals, blocks[n].submissions, done);
      var (w2, results) := SubmitAll(node, w1, blocks[n].submissions).value;
      FinalizedJoin(AllSubs(blocks[..n]), AllResults(p.ticks), blocks[n].submissions, results);
      ResultsPush(p.ticks, ApplyTick(node, p.live, blocks[n]).value.result);
    }
  }

  lemma ResultsPush(ticks: seq<TickResult>, t: TickResult)
    ensures AllResults(ticks + [t]) == AllResults(ticks) + t.submissions
  {
    assert (ticks + [t])[..|ticks|] == ticks;
  }

  lemma NothingDone(l: Ledger)
    ensures Ordered(l, FinalizedCals([], [])) && AllResults([]) == [] && AllSubs([]) == []
  {
  }

  lemma SafeSplit(blocks: seq<TickBlock>, cals: set<Json>)
    requires blocks != [] && SafeSubs(AllSubs(blocks), cals)
    ensures SafeSubs(AllSubs(blocks[..|blocks| - 1]), cals) && SafeSubs(blocks[|blocks| - 1].submissions, cals)
  {
    SafeParts(AllSubs(blocks[..|blocks| - 1]), blocks[|blocks| - 1].submissions, cals);
    hide SafeSubs;
  }

  lemma SafeParts(a: seq<Submission>, b: seq<Submission>, cals: set<Json>)
    requires SafeSubs(a + b, cals)
    ensures SafeSubs(a, cals) && SafeSubs(b, cals)
  {
    hide SafeTrace;
    assert forall i :: 0 <= i < |a| ==> a[i] == (a + b)[i];
    assert forall i :: 0 <= i < |b| ==> b[i] == (a + b)[|a| + i];
  }

  /** The CALs that a program submits. */
  function Submitted(blocks: seq<TickBlock>): set<Json> {
    set sub | sub in AllSubs(blocks) :: sub.cal
  }

  predicate SafeTraces(subs: seq<Submission>) {
    forall i :: 0 <= i < |subs| ==> SafeTrace(subs[i].trace)
  }

  /** All submissions of the program carry safe effects. */
  predicate SafeProgram(blocks: seq<TickBlock>) {
    SafeTraces(AllSubs(blocks))
  }

  lemma SubsKnown(blocks: seq<TickBlock>)
    requires SafeProgram(blocks)
    ensures SafeSubs(AllSubs(blocks), Submitted(blocks))
  {
    hide SafeTrace; hide AllSubs;
    forall i | 0 <= i < |AllSubs(blocks)| ensures AllSubs(blocks)[i].cal in Submitted(blocks) {
      assert AllSubs(blocks)[i] in AllSubs(blocks);
    }
  }

  lemma NotSeparated(node: Config, cals: set<Json>) returns (x: string, y: string)
    requires !Separated(node, cals)
    ensures Merkle.Collides(node.sha, x, y)
  {
    hide CalHash; hide Unsigned;
    var a, b :| a in cals && b in cals && a.Obj? && b.Obj? && CalHash(node, a) == CalHash(node, b)
      && Unsigned(a) != Unsigned(b);
    x, y := CalHashBinds(node, a, b);
  }

  /** Every accepted submission, whatever its mode, leads from a boundary to a boundary; or two of the
      CALs known by then are a collision of the hash. */
  lemma SubmitReaches(node: Config, w: Live, l: Ledger, cals: set<Json>, sub: Submission)
    returns (m: Ledger, x: string, y: string)
    requires hide *; AtBoundary(node, w, l, cals) && SafeTrace(sub.trace) && sub.cal in cals
    requires Submit(node, w, sub).Ok?
    ensures Merkle.Collides(node.sha, x, y) ||
      Reaches(node, l, Submit(node, w, sub).value.0, m, cals, sub.cal, Submit(node, w, sub).value.1.terminal)
  {
    hide *;
    m, x, y := l, "", "";
    if Separated(node, cals) {
      m := SeparatedReaches(node, w, l, cals, sub);
    } else {
      x, y := NotSeparated(node, cals);
    }
  }

  /** No CAL finalizes twice. Over any run from a state with nothing in flight, whose effects are safe, the
      state ends at a boundary, the finalized CALs of each agent carry strictly increasing nonces, and all finalized
      CAL hashes differ; or two submitted CALs are a collision of the hash, which the proof returns. */
  lemma NoDoubleFinalization(node: Config, genesis: Json, l: Ledger, blocks: seq<TickBlock>)
    returns (m: Ledger, x: string, y: string)
    requires hide *; Represents(genesis, l) && l.flights == map[] && node.port == Rust
    requires SafeProgram(blocks)
    requires RunBlocks(node, Init(genesis), blocks).Ok?
    ensures var p := RunBlocks(node, Init(genesis), blocks).value;
      || Merkle.Collides(node.sha, x, y)
      || (&& Represents(p.live.state, m) && Sound(m.flights) && Boundary(m)
          && |AllResults(p.ticks)| == |AllSubs(blocks)|
          && var done := FinalizedCals(AllSubs(blocks), AllResults(p.ticks));
          && Ordered(m, done)
          && forall i, j :: 0 <= i < j < |done| && done[i].Obj? && done[j].Obj? ==>
            CalHash(node, done[i]) != CalHash(node, done[j]))
  {
    hide *;
    var cals := Submitted(blocks);
    m, x, y := l, "", "";
    if !Separated(node, cals) {
      x, y := NotSeparated(node, cals);
    } else {
      SubsKnown(blocks);
      StartsAtBoundary(node, genesis, l, cals);
      var p := RunBlocks(node, Init(genesis), blocks).value;
      m := RunReaches(node, Init(genesis), l, cals, blocks);
      BoundaryFacts(node, p.live, m, cals);
      var done := FinalizedCals(AllSubs(blocks), AllResults(p.ticks));
      FinalizedKnown(AllSubs(blocks), AllResults(p.ticks), cals);
      forall i, j | 0 <= i < j < |done| && done[i].Obj? && done[j].Obj?
          ensures CalHash(node, done[i]) != CalHash(node, done[j]) {
        HashesDiffer(node, m, done, cals, i, j);
      }
    }
  }

  lemma HashesDiffer(node: Config, m: Ledger, done: seq<Json>, cals: set<Json>, i: nat, j: nat)
    requires Ordered(m, done) && Separated(node, cals) && i < j < |done| && done[i].Obj? && done[j].Obj?
    requires done[i] in cals && done[j] in cals
    ensures CalHash(node, done[i]) != CalHash(node, done[j])
  {
    hide CalHash; hide Gas.AgentId; hide CalNonce; hide Unsigned;
    if CalHash(node, done[i]) == CalHash(node, done[j]) {
      UnsignedFields(done[i], done[j]);
    }
  }

  lemma StartsAtBoundary(node: Config, genesis: Json, l: Ledger, cals: set<Json>)
    requires Represents(genesis, l) && l.flights == map[] && node.port == Rust
    ensures AtBoundary(node, Init(genesis), l, cals)
  {
    hide Represents; hide BackedBy; 
  }

  lemma {:induction false} FinalizedKnown(subs: seq<Submission>, results: seq<SubmissionResult>, cals: set<Json>)
    requires |subs| == |results| && SafeSubs(subs, cals)
    ensures forall i :: 0 <= i < |FinalizedCals(subs, results)| ==> FinalizedCals(subs, results)[i] in cals
    decreases |subs|
  {
    hide SafeTrace;
    if subs != [] {
      FinalizedKnown(subs[..|subs| - 1], results[..|subs| - 1], cals);
    }
  }
}
