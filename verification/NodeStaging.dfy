/** Staged equals atomic at the node: a validate-only submission resumed at once is one atomic one. */
module NodeStaging {
  import opened Wrappers
  import opened JsonTree
  import opened Events
  import opened Reducer
  import opened Ports
  import opened Ledgers
  import opened LedgerStep
  import opened Runs
  import opened Acceptance
  import opened Staging
  import opened Node
  import Gas
  import Merkle
  import NodeSafety
  import V = Validator

  /** Folding in two parts is folding in one, roots and errors included. */
  lemma {:induction false} PushAllSplit(node: Config, w: Live, a: seq<Event>, b: seq<Event>)
    requires hide *; PushAll(node, w, a).Ok?
    ensures var (w1, roots) := PushAll(node, w, a).value;
      match PushAll(node, w1, b)
      case Err(code) => PushAll(node, w, a + b) == Err(code)
      case Ok((w2, more)) => PushAll(node, w, a + b) == Ok((w2, roots + more))
    decreases |b|
  {
    hide Push;
    var (w1, roots) := PushAll(node, w, a).value;
    if b == [] {
      assert a + b == a && roots + [] == roots;
    } else {
      var n := |b| - 1;
      assert (a + b)[..|a + b| - 1] == a + b[..n] && (a + b)[|a + b| - 1] == b[n];
      PushAllSplit(node, w, a, b[..n]);
      var r := PushAll(node, w1, b[..n]);
      if r.Ok? && Push(node, r.value.0, b[n]).Ok? {
        var w2 := Push(node, r.value.0, b[n]).value;
        assert roots + r.value.1 + [node.root(w2.state)] == roots + (r.value.1 + [node.root(w2.state)]);
      }
    }
  }

  /** What the two submissions together amount to. */
  ghost predicate JoinsTo(first: SubmissionResult, second: Result<(Live, SubmissionResult), NodeError>,
    atomic: Result<(Live, SubmissionResult), NodeError>)
  {
    match second
    case Err(e) => atomic == Err(e)
    case Ok((w2, r2)) =>
      atomic == Ok((w2,
        SubmissionResult(first.ch, first.agent, r2.terminal, r2.reason, first.events + r2.events,
        first.roots + r2.roots, None)))
  }

  lemma DriveJoins(node: Config, w: Live, ch: string, agent: string, before: seq<Event>, roots: seq<Merkle.Digest>,
    first: seq<Event>, rest: seq<Event>, terminal: Option<V.Terminal>, reason: Option<V.Reason>)
    requires hide *; PushAll(node, w, first).Ok?
    ensures var (w1, more) := PushAll(node, w, first).value;
      var one := SubmissionResult(ch, agent, None, None, before + first, roots + more, None);
      JoinsTo(one, Drive(node, w1, ch, agent, [], [], rest, terminal, reason),
        Drive(node, w, ch, agent, before, roots, first + rest, terminal, reason))
  {
    hide PushAll;
    PushAllSplit(node, w, first, rest);
    var (w1, more) := PushAll(node, w, first).value;
    var r := PushAll(node, w1, rest);
    assert before + (first + rest) == before + first + ([] + rest);
    if r.Ok? {
      assert roots + (more + r.value.1) == roots + more + ([] + r.value.1);
    }
  }

  lemma JudgeJoins(node: Config, w: Live, l: Ledger, cal: Json, trace: V.Trace, ch: string, agent: string,
      before: seq<Event>, roots: seq<Merkle.Digest>)
    requires hide *; node.port == Rust && Represents(w.state, l) && Sound(l.flights)
    requires ch in l.flights && l.flights[ch].stage == SIGNED && l.flights[ch].agent == V.StrOr(cal.Get("agent_id"), "")
    requires Judge(node, w, Submission(cal, trace, ValidateOnly), ch, agent, before, roots).Ok?
    requires Judge(node, w, Submission(cal, trace, ValidateOnly), ch, agent, before, roots).value.1.terminal.None?
    ensures var (w1, r1) := Judge(node, w, Submission(cal, trace, ValidateOnly), ch, agent, before, roots).value;
      && JoinsTo(r1, Judge(node, w1, Submission(cal, trace, Resume), ch, agent, [], []),
          Judge(node, w, Submission(cal, trace, Atomic), ch, agent, before, roots))
      && r1.ch == ch && r1.agent == agent
  {
    hide V.Validate; hide V.ValidateToValidated; hide V.ResumeFromValidated; hide Drive; hide JoinsTo;
    hide Represents; hide Sound;
    hide PushAll; hide V.StrOr; hide Materialize;
    var now := trace.(currentTick := w.tick);
    var one := V.ValidateToValidated(cal, ch, w.state, now).value;
    assert one.terminal.None? by { StagedTerminal(node, w, cal, trace, ch, agent, before, roots); }
    StagedIsAtomic(w.state, l, cal, ch, now);
    FirstEvent(w.state, l, cal, ch, now);
    DriveUnfolds(node, w, ch, agent, before, roots, one.events, None, None);
    NodeSafety.PushAllRuns(node, w, one.events);
    var w1 := PushAll(node, w, one.events).value.0;
    var r := V.ResumeFromValidated(cal, ch, w1.state, now);
    if r.Ok? {
      DriveJoins(node, w, ch, agent, before, roots, one.events, r.value.events, Some(r.value.terminal), r.value.reason);
    } else {
      JoinsErr();
    }
  }

  lemma FirstEvent(s: Json, l: Ledger, cal: Json, ch: string, trace: V.Trace)
    requires hide *; Represents(s, l) && Sound(l.flights)
    requires ch in l.flights && l.flights[ch].stage == SIGNED && l.flights[ch].agent == V.StrOr(cal.Get("agent_id"), "")
    requires V.ValidateToValidated(cal, ch, s, trace).Ok?
    requires V.ValidateToValidated(cal, ch, s, trace).value.terminal.None?
    ensures var evs := V.ValidateToValidated(cal, ch, s, trace).value.events;
      |evs| == 1 && evs[0].CalValidated? && evs == [evs[0]]
  {
    hide *;
    StageOneAccepted(s, l, cal, ch, trace);
    ValidatedKind(V.BuildContext(cal, ch, s, trace));
  }

  lemma ValidatedKind(c: V.Context)
    ensures V.ValidatedEvent(c).CalValidated?
  {
  }

  lemma JoinsErr()
    ensures forall one, e :: JoinsTo(one, Err(e), Err(e))
  {
  }

  lemma StagedTerminal(node: Config, w: Live, cal: Json, trace: V.Trace, ch: string, agent: string, before: seq<Event>,
      roots: seq<Merkle.Digest>)
    requires hide *; Judge(node, w, Submission(cal, trace, ValidateOnly), ch, agent, before, roots).Ok?
    requires Judge(node, w, Submission(cal, trace, ValidateOnly), ch, agent, before, roots).value.1.terminal.None?
    ensures V.ValidateToValidated(cal, ch, w.state, trace.(currentTick := w.tick)).Ok?
    ensures V.ValidateToValidated(cal, ch, w.state, trace.(currentTick := w.tick)).value.terminal.None?
  {
    hide V.PhaseA; hide V.PhaseB; hide V.BuildContext;
    hide V.ValidateToValidated; hide PushAll;
  }

  lemma DriveUnfolds(node: Config, w: Live, ch: string, agent: string, before: seq<Event>, roots: seq<Merkle.Digest>,
    events: seq<Event>, terminal: Option<V.Terminal>, reason: Option<V.Reason>)
    ensures var r := Drive(node, w, ch, agent, before, roots, events, terminal, reason);
      match PushAll(node, w, events)
      case Err(code) => r == Err(APPLY_FAILED(code))
      case Ok((w1, more)) =>
        r == Ok((w1, SubmissionResult(ch, agent, terminal, reason, before + events, roots + more, None)))
  {
    hide PushAll;
  }

  lemma IngressJoins(node: Config, w: Live, l: Ledger, cal: Json, trace: V.Trace, ch: string, agent: string)
    requires hide *; node.port == Rust && Represents(w.state, l) && Sound(l.flights) && Gas.AgentId(cal) == Some(agent)
    requires Ingress(node, w, Submission(cal, trace, ValidateOnly), ch, agent).Ok?
    requires var r1 := Ingress(node, w, Submission(cal, trace, ValidateOnly), ch, agent).value.1;
      r1.terminal.None? && r1.ingressError.None?
    ensures var (w1, r1) := Ingress(node, w, Submission(cal, trace, ValidateOnly), ch, agent).value;
      JoinsTo(r1, Judge(node, w1, Submission(cal, trace, Resume), ch, agent, [], []),
        Ingress(node, w, Submission(cal, trace, Atomic), ch, agent))
  {
    hide *;
    var staged, atomic := Submission(cal, trace, ValidateOnly), Submission(cal, trace, Atomic);
    IngressRefusal(node, w, staged, ch, agent);
    NodeSafety.IngressCases(node, w, staged, ch, agent);
    NodeSafety.IngressCases(node, w, atomic, ch, agent);
    var created, signed := CalCreated(ch, agent), CalSigned(ch);
    NodeSafety.TakesIn(node, w, l, ch, agent);
    NodeSafety.TakenFlight(l, ch, agent);
    TakenSigned(l, ch, agent);
    AgentRead(cal);
    var w1 := Push(node, w, created).value;
    var w2 := Push(node, w1, signed).value;
    JudgeJoins(node, w2, NodeSafety.TakenIn(l, ch, agent), cal, trace, ch, agent, [created, signed],
      [node.root(w1.state), node.root(w2.state)]);
  }

  lemma IngressRefusal(node: Config, w: Live, sub: Submission, ch: string, agent: string)
    requires hide *; Ingress(node, w, sub, ch, agent).Ok? && Ingress(node, w, sub, ch, agent).value.1.ingressError.None?
    ensures Push(node, w, CalCreated(ch, agent)).Ok?
  {
    hide Push; hide Judge;
  }

  lemma TakenSigned(l: Ledger, ch: string, agent: string)
    ensures ch in NodeSafety.TakenIn(l, ch, agent).flights
    ensures NodeSafety.TakenIn(l, ch, agent).flights[ch].stage == SIGNED
  {
  }

  /** Staged equals atomic: when a validate-only submission leaves its CAL at VALIDATED, resuming it
      next with the same trace ends in the live state, the events, the roots and the verdict of one
      atomic submission, or fails with the same error. */
  lemma StagedSubmissions(node: Config, w: Live, l: Ledger, cal: Json, trace: V.Trace)
    requires hide *; node.port == Rust && Represents(w.state, l) && Sound(l.flights)
    requires Submit(node, w, Submission(cal, trace, ValidateOnly)).Ok?
    requires var r1 := Submit(node, w, Submission(cal, trace, ValidateOnly)).value.1;
      r1.terminal.None? && r1.ingressError.None?
    ensures var (w1, r1) := Submit(node, w, Submission(cal, trace, ValidateOnly)).value;
      JoinsTo(r1, Submit(node, w1, Submission(cal, trace, Resume)), Submit(node, w, Submission(cal, trace, Atomic)))
  {
    hide Ingress; hide Judge; hide CalHash; hide Gas.AgentId; hide Represents; hide Sound; hide JoinsTo;
    IngressJoins(node, w, l, cal, trace, CalHash(node, cal), Gas.AgentId(cal).value);
  }
}
