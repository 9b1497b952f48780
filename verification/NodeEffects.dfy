/** What a program does to the state outside balances, fees, nonces and in-flight entries: in order, its
    ticks and the recorded effects of the submissions that finalized, and nothing else. */
module NodeEffects {
  import opened Wrappers
  import opened JsonTree
  import opened Events
  import opened Reducer
  import opened Ports
  import opened Ledgers
  import opened LedgerStep
  import opened Runs
  import opened Acceptance
  import opened Node
  import opened NodeSafety
  import opened NodeLog
  import Gas
  import Gates
  import Merkle
  import NodeResume
  import Replay
  import V = Validator

  // --- what a program asks for ---

  /** The effects that the trace of a submission records for the steps of its CAL. */
  function StepEffects(sub: Submission): seq<Json> {
    var n := |Gas.Items(sub.cal.Get("steps"))|;
    if n <= |sub.trace.steps| then Gates.EffectsUpTo(sub.trace, n) else []
  }

  function SubOps(sub: Submission, result: SubmissionResult): seq<Op> {
    if result.terminal == Some(V.FINALIZED) then [Effects(StepEffects(sub))] else []
  }

  function SubsOps(subs: seq<Submission>, results: seq<SubmissionResult>): seq<Op>
    requires |subs| == |results|
  {
    if subs == [] then []
    else
      var n := |subs| - 1;
      SubsOps(subs[..n], results[..n]) + SubOps(subs[n], results[n])
  }

  /** A block ticks if its tick is later than the one before. */
  function BlockOps(before: nat, block: TickBlock, results: seq<SubmissionResult>): seq<Op>
    requires |block.submissions| == |results|
  {
    (if block.tick > before then [Tick(block.tick)] else []) + SubsOps(block.submissions, results)
  }

  function TickBefore(start: nat, ticks: seq<TickResult>, k: nat): nat
    requires k <= |ticks|
  {
    if k == 0 then start else ticks[k - 1].tick
  }

  /** The results belong to the blocks, one for each submission. */
  predicate Belong(blocks: seq<TickBlock>, ticks: seq<TickResult>) {
    |blocks| == |ticks| && forall k :: 0 <= k < |blocks| ==> |blocks[k].submissions| == |ticks[k].submissions|
  }

  function ProgramOps(start: nat, blocks: seq<TickBlock>, ticks: seq<TickResult>): seq<Op>
    requires Belong(blocks, ticks)
  {
    if blocks == [] then []
    else
      var n := |blocks| - 1;
      ProgramOps(start, blocks[..n], ticks[..n]) + BlockOps(TickBefore(start, ticks, n), blocks[n],
        ticks[n].submissions)
  }

  // --- the operations of a log ---

  lemma {:induction false} OpsSplit(l: Ledger, a: seq<Event>, b: seq<Event>)
    ensures Ops(l, a + b) == Ops(l, a) + Ops(LedgerAfter(l, a), b)
    decreases |b|
  {
    hide OpsOf; hide LedgerAfter;
    if b == [] {
      assert a + b == a;
    } else {
      var n := |b| - 1;
      assert (a + b)[..|a + b| - 1] == a + b[..n] && (a + b)[|a + b| - 1] == b[n];
      OpsSplit(l, a, b[..n]);
      LedgerSplit(l, a, b[..n]);
    }
  }

  lemma OneOp(l: Ledger, ev: Event)
    ensures Ops(l, [ev]) == OpsOf(l, ev)
  {
    assert [ev][..0] == [];
    hide OpsOf;
  }

  lemma NoOps(l: Ledger)
    ensures Ops(l, []) == [] && LedgerAfter(l, []) == l
  {
  }

  /** Only finalizing, feeds and ticks operate on the outside. */
  lemma {:induction false} QuietLog(l: Ledger, log: seq<Event>)
    requires hide *; forall i :: 0 <= i < |log| ==> !TouchesOutside(log[i])
    ensures Ops(l, log) == []
    decreases |log|
  {
    if log != [] {
      QuietLog(l, log[..|log| - 1]);
      hide LedgerAfter;
    }
  }

  /** Executed, settled, finalized: the effects that were executed. */
  lemma FinalOps(l: Ledger, ch: string, tail: seq<Event>, ds: seq<Json>)
    requires hide *; |tail| == 3 && tail[0].CalExecuted? && tail[0].ch == ch && tail[0].effects == Some(ds)
    requires tail[1] == CalSettled(ch) && tail[2].CalFinalized? && tail[2].ch == ch
    requires Step(l, tail[0]).Ok? && Step(Step(l, tail[0]).value, tail[1]).Ok?
    ensures Ops(l, tail) == [Effects(ds)]
  {
    var l1 := Step(l, tail[0]).value;
    var l2 := Step(l1, tail[1]).value;
    assert l1.flights[ch].staged == ds && ch in l2.flights && l2.flights[ch].staged == ds;
    hide Step;
    ThreeOps(l, l1, l2, tail);
  }

  lemma ThreeOps(l: Ledger, l1: Ledger, l2: Ledger, tail: seq<Event>)
    requires hide *; |tail| == 3 && Step(l, tail[0]) == Ok(l1) && Step(l1, tail[1]) == Ok(l2)
    ensures Ops(l, tail) == OpsOf(l, tail[0]) + OpsOf(l1, tail[1]) + OpsOf(l2, tail[2])
  {
    hide Step; hide OpsOf;
    assert tail[..2][..1] == tail[..1] && tail[..1][..0] == [];
    assert LedgerAfter(l, tail[..1]) == l1;
    assert LedgerAfter(l, tail[..2]) == l2;
    assert Ops(l, tail[..1]) == OpsOf(l, tail[0]);
    assert Ops(l, tail[..2]) == OpsOf(l, tail[0]) + OpsOf(l1, tail[1]);
  }

  // --- one verdict ---

  lemma FinalEffects(c: V.Context, before: seq<Event>)
    requires hide *; V.PhaseB(c, before).Ok? && V.PhaseB(c, before).value.terminal == V.FINALIZED
    ensures |V.Steps(c)| <= |c.trace.steps| && Committed(c) == Gates.EffectsUpTo(c.trace, |V.Steps(c)|)
  {
    hide *;
    Gates.FinalizedExactly(c, before);
  }

  lemma StepEffectsAre(c: V.Context, sub: Submission, tick: nat)
    requires c.cal == sub.cal && c.trace == sub.trace.(currentTick := tick)
    requires |V.Steps(c)| <= |c.trace.steps|
    ensures StepEffects(sub) == Gates.EffectsUpTo(c.trace, |V.Steps(c)|)
  {
    SameEffects(sub.trace, tick, |V.Steps(c)|);
    hide Gates.EffectsUpTo;
  }

  lemma {:induction false} SameEffects(trace: V.Trace, tick: nat, n: nat)
    requires n <= |trace.steps|
    ensures Gates.EffectsUpTo(trace.(currentTick := tick), n) == Gates.EffectsUpTo(trace, n)
    decreases n
  {
    if n > 0 { SameEffects(trace, tick, n - 1); }
  }

  lemma QuietTail(c: V.Context, tail: seq<Event>, v: V.Verdict)
    requires hide *; TailShape(c, tail, v) && v.terminal != V.FINALIZED
    ensures forall i :: 0 <= i < |tail| ==> !TouchesOutside(tail[i])
  {
    hide Committed;
  }

  /** The operations of the events after VALIDATED. */
  lemma TailOps(s: Json, l: Ledger, c: V.Context, tail: seq<Event>, v: V.Verdict)
    requires hide *; Represents(s, l) && Sound(l.flights) && SafeLog(tail) && TailShape(c, tail, v)
    requires Materialize(Rust, s, tail).Ok?
    ensures Ops(l, tail) == if v.terminal == V.FINALIZED then [Effects(Committed(c))] else []
  {
    hide Represents; hide Sound; hide SafeLog; hide Materialize; hide Committed; hide Ops; hide Step; hide LedgerAfter;
    if v.terminal == V.FINALIZED {
      StepsTaken(s, l, tail);
      FinalOps(l, c.ch, tail, Committed(c));
    } else {
      QuietTail(c, tail, v);
      QuietLog(l, tail);
    }
  }

  lemma StepsTaken(s: Json, l: Ledger, tail: seq<Event>)
    requires hide *;
      Represents(s, l) && Sound(l.flights) && SafeLog(tail) && |tail| == 3 && Materialize(Rust, s, tail).Ok?
    ensures Step(l, tail[0]).Ok? && Step(Step(l, tail[0]).value, tail[1]).Ok?
  {
    hide Represents; hide Sound; hide Step; hide Apply; hide SafeEvent;
    TwoSteps(s, l, tail);
    assert tail[..2] == tail[..|tail| - 1];
    TwoSteps(s, l, tail[..2]);
    assert tail[..2][..1] == tail[..1];
    TwoSteps(s, l, tail[..1]);
    assert tail[..1][..0] == [];
    assert tail[..1][0] == tail[0] && tail[..2][1] == tail[1];
    assert LedgerAfter(l, []) == l;
  }

  // --- one submission ---

  /** From a state that represents l to one that represents the ledger of these events, which operate so. */
  ghost predicate Operates(l: Ledger, evs: seq<Event>, w1: Live, ops: seq<Op>) {
    && Ops(l, evs) == ops && Represents(w1.state, LedgerAfter(l, evs)) && Sound(LedgerAfter(l, evs).flights)
  }

  lemma OperatesIs(l: Ledger, evs: seq<Event>, w1: Live, ops: seq<Op>)
    ensures Operates(l, evs, w1, ops) <==>
      Ops(l, evs) == ops && Represents(w1.state, LedgerAfter(l, evs)) && Sound(LedgerAfter(l, evs).flights)
  {
    hide Represents; hide Sound; hide Ops; hide LedgerAfter;
  }

  lemma OperatesJoin(l: Ledger, a: seq<Event>, w1: Live, x: seq<Op>, b: seq<Event>, w2: Live, y: seq<Op>)
    requires Operates(l, a, w1, x) && Operates(LedgerAfter(l, a), b, w2, y)
    ensures Operates(l, a + b, w2, x + y)
  {
    hide *;
    OperatesIs(l, a, w1, x);
    OperatesIs(LedgerAfter(l, a), b, w2, y);
    OperatesIs(l, a + b, w2, x + y);
    OpsSplit(l, a, b);
    LedgerSplit(l, a, b);
  }

  lemma VerdictOps(node: Config, w: Live, l: Ledger, sub: Submission, ch: string, v: V.Verdict)
    requires hide *; node.port == Rust && Represents(w.state, l) && Sound(l.flights) && SafeTrace(sub.trace)
    requires V.Validate(sub.cal, ch, w.state, sub.trace.(currentTick := w.tick)) == Ok(v)
      && PushAll(node, w, v.events).Ok?
    ensures Operates(l, v.events, PushAll(node, w, v.events).value.0,
      if v.terminal == V.FINALIZED then [Effects(StepEffects(sub))] else [])
  {
    hide *;
    var trace := sub.trace.(currentTick := w.tick);
    var c := V.BuildContext(sub.cal, ch, w.state, trace);
    ContextFields(sub.cal, ch, w.state, trace);
    ValidateUnfolds(sub.cal, ch, w.state, trace);
    TraceKept(sub.trace, w.tick);
    OperatesIs(l, v.events, PushAll(node, w, v.events).value.0,
      if v.terminal == V.FINALIZED then [Effects(StepEffects(sub))] else []);
    if V.PhaseA(c).value.Some? {
      StoppedShape(c, v);
      RunStep(node, w, l, v.events);
      assert v.events == [v.events[0]];
      ClosingQuiet(w.state, l, c, v);
    } else {
      DrivenShape(c, v);
      RunStep(node, w, l, v.events);
      var first, tail := V.ValidatedEvent(c), v.events[1..];
      assert v.events == [first] + tail;
      FoldFirst(w.state, l, first, tail);
      var s1, k := Materialize(Rust, w.state, [first]).value, LedgerAfter(l, [first]);
      OpsSplit(l, [first], tail);
      MoveQuiet(l, first);
      TailOps(s1, k, c, tail, v);
      if v.terminal == V.FINALIZED {
        FinalEffects(c, [first]);
        StepEffectsAre(c, sub, w.tick);
      }
    }
  }

  lemma MoveQuiet(l: Ledger, ev: Event)
    requires ev.CalValidated? || ev.CalCreated? || ev.CalSigned?
    ensures Ops(l, [ev]) == []
  {
    QuietLog(l, [ev]);
    hide Ops;
  }

  lemma ClosingQuiet(s: Json, l: Ledger, c: V.Context, v: V.Verdict)
    requires hide *; V.PhaseA(c) == Ok(Some(v)) && c.agent == V.StrOr(c.cal.Get("agent_id"), "")
    ensures Ops(l, v.events) == [] && v.terminal != V.FINALIZED
  {
    hide *;
    StoppedShape(c, v);
    PhaseAShape(c);
    QuietDrop(v.events[0]);
    assert v.events == [v.events[0]];
    QuietLog(l, v.events);
  }

  lemma QuietDrop(ev: Event)
    ensures ev.CalFailed? || ev.CalExpired? ==> !TouchesOutside(ev)
  {
  }

  lemma ResumeOps(node: Config, w: Live, l: Ledger, sub: Submission, ch: string, v: V.Verdict)
    requires hide *; node.port == Rust && Represents(w.state, l) && Sound(l.flights) && SafeTrace(sub.trace)
    requires V.ResumeFromValidated(sub.cal, ch, w.state, sub.trace.(currentTick := w.tick)) == Ok(v)
    requires PushAll(node, w, v.events).Ok?
    ensures Operates(l, v.events, PushAll(node, w, v.events).value.0,
      if v.terminal == V.FINALIZED then [Effects(StepEffects(sub))] else [])
  {
    hide *;
    var trace := sub.trace.(currentTick := w.tick);
    var c := V.BuildContext(sub.cal, ch, w.state, trace);
    ContextFields(sub.cal, ch, w.state, trace);
    ResumeIs(sub.cal, ch, w.state, trace);
    TraceKept(sub.trace, w.tick);
    PhaseBShape(c, []);
    assert v.events[0..] == v.events;
    TailSafe(c, v.events, v);
    RunStep(node, w, l, v.events);
    TailOps(w.state, l, c, v.events, v);
    if v.terminal == V.FINALIZED {
      FinalEffects(c, []);
      StepEffectsAre(c, sub, w.tick);
    }
    OperatesIs(l, v.events, PushAll(node, w, v.events).value.0,
      if v.terminal == V.FINALIZED then [Effects(StepEffects(sub))] else []);
  }

  lemma StageOps(node: Config, w: Live, l: Ledger, cal: Json, ch: string, trace: V.Trace, one: V.ToValidated)
    requires hide *; node.port == Rust && Represents(w.state, l) && Sound(l.flights)
    requires V.ValidateToValidated(cal, ch, w.state, trace) == Ok(one) && PushAll(node, w, one.events).Ok?
    ensures Operates(l, one.events, PushAll(node, w, one.events).value.0, [])
    ensures one.terminal.Some? ==> one.terminal.value.terminal != V.FINALIZED
  {
    hide *;
    var c := V.BuildContext(cal, ch, w.state, trace);
    ContextFields(cal, ch, w.state, trace);
    StageUnfolds(cal, ch, w.state, trace);
    if one.terminal.Some? {
      StoppedShape(c, one.terminal.value);
      ClosingQuiet(w.state, l, c, one.terminal.value);
    } else {
      ValidatedSafe(c);
      NodeResume.ValidatedIs(c);
      MoveQuiet(l, V.ValidatedEvent(c));
    }
    RunStep(node, w, l, one.events);
    OperatesIs(l, one.events, PushAll(node, w, one.events).value.0, []);
  }

  lemma JudgeOps(node: Config, w: Live, l: Ledger, sub: Submission, ch: string, agent: string, before: seq<Event>,
      roots: seq<Merkle.Digest>) returns (evs: seq<Event>)
    requires hide *; node.port == Rust && Represents(w.state, l) && Sound(l.flights) && SafeTrace(sub.trace)
    requires Judge(node, w, sub, ch, agent, before, roots).Ok?
    ensures var (w1, res) := Judge(node, w, sub, ch, agent, before, roots).value;
      res.events == before + evs && Operates(l, evs, w1, SubOps(sub, res))
  {
    hide Drive; hide V.Validate; hide V.ResumeFromValidated; hide V.ValidateToValidated; hide Represents; hide Sound;
    hide SafeTrace; hide Operates; hide PushAll; hide StepEffects;
    var trace := sub.trace.(currentTick := w.tick);
    match sub.mode {
      case Atomic =>
        var v := V.Validate(sub.cal, ch, w.state, trace).value;
        evs := v.events;
        DriveEvents(node, w, ch, agent, before, roots, evs, Some(v.terminal), v.reason);
        DriveCases(node, w, ch, agent, before, roots, evs, Some(v.terminal), v.reason);
        VerdictOps(node, w, l, sub, ch, v);
      case Resume =>
        var v := V.ResumeFromValidated(sub.cal, ch, w.state, trace).value;
        evs := v.events;
        DriveEvents(node, w, ch, agent, before, roots, evs, Some(v.terminal), v.reason);
        DriveCases(node, w, ch, agent, before, roots, evs, Some(v.terminal), v.reason);
        ResumeOps(node, w, l, sub, ch, v);
      case ValidateOnly =>
        var one := V.ValidateToValidated(sub.cal, ch, w.state, trace).value;
        var t := one.terminal;
        evs := one.events;
        DriveEvents(node, w, ch, agent, before, roots, evs,
          if t.Some? then Some(t.value.terminal) else None, if t.Some? then t.value.reason else None);
        DriveCases(node, w, ch, agent, before, roots, evs,
          if t.Some? then Some(t.value.terminal) else None, if t.Some? then t.value.reason else None);
        StageOps(node, w, l, sub.cal, ch, trace, one);
    }
  }

  lemma IngressOps(node: Config, w: Live, l: Ledger, sub: Submission, ch: string, agent: string)
    requires hide *; node.port == Rust && Represents(w.state, l) && Sound(l.flights) && SafeTrace(sub.trace)
    requires Ingress(node, w, sub, ch, agent).Ok?
    ensures var (w1, res) := Ingress(node, w, sub, ch, agent).value; Operates(l, res.events, w1, SubOps(sub, res))
  {
    hide *;
    var created, signed := CalCreated(ch, agent), CalSigned(ch);
    IngressCases(node, w, sub, ch, agent);
    if Push(node, w, created).Ok? {
      TakesIn(node, w, l, ch, agent);
      var w1 := Push(node, w, created).value;
      var w2 := Push(node, w1, signed).value;
      TakenLog(node, w, l, ch, agent);
      OperatesIs(l, [created, signed], w2, []);
      var evs := JudgeOps(node, w2, TakenIn(l, ch, agent), sub, ch, agent, [created, signed],
        [node.root(w1.state), node.root(w2.state)]);
      var (w3, res) := Ingress(node, w, sub, ch, agent).value;
      OperatesJoin(l, [created, signed], w2, [], evs, w3, SubOps(sub, res));
      assert [] + SubOps(sub, res) == SubOps(sub, res);
    } else {
      RefusedOps(node, w, sub, ch, agent);
      NoOps(l);
      OperatesIs(l, [], w, []);
    }
  }

  lemma RefusedOps(node: Config, w: Live, sub: Submission, ch: string, agent: string)
    requires hide *; Push(node, w, CalCreated(ch, agent)).Err?
    ensures Ingress(node, w, sub, ch, agent).Ok?
    ensures var (w1, res) := Ingress(node, w, sub, ch, agent).value;
      w1 == w && res.events == [] && SubOps(sub, res) == []
  {
    hide Push; hide Judge; hide StepEffects;
  }

  lemma TakenLog(node: Config, w: Live, l: Ledger, ch: string, agent: string)
    requires hide *; node.port == Rust && Represents(w.state, l) && Sound(l.flights)
    requires Push(node, w, CalCreated(ch, agent)).Ok?
    ensures LedgerAfter(l, [CalCreated(ch, agent), CalSigned(ch)]) == TakenIn(l, ch, agent)
    ensures Ops(l, [CalCreated(ch, agent), CalSigned(ch)]) == []
  {
    hide *;
    var created, signed := CalCreated(ch, agent), CalSigned(ch);
    IngressEvents(ch, agent);
    PushCases(node, w, created);
    ApplyStep(w.state, l, created);
    CreatedTaken(l, ch, agent);
    TwoAfter(l, created, signed);
    QuietMoves(ch, agent);
    QuietLog(l, [created, signed]);
  }

  lemma QuietMoves(ch: string, agent: string)
    ensures !TouchesOutside(CalCreated(ch, agent)) && !TouchesOutside(CalSigned(ch))
  {
  }

  lemma TwoAfter(l: Ledger, a: Event, b: Event)
    requires Step(l, a).Ok? && Step(Step(l, a).value, b).Ok?
    ensures LedgerAfter(l, [a, b]) == Step(Step(l, a).value, b).value
  {
    hide Step;
    assert [a, b][..1] == [a] && [a][..0] == [];
    assert LedgerAfter(l, [a]) == Step(l, a).value;
  }

  lemma SubmitOps(node: Config, w: Live, l: Ledger, sub: Submission)
    requires hide *; node.port == Rust && Represents(w.state, l) && Sound(l.flights) && SafeTrace(sub.trace)
    requires Submit(node, w, sub).Ok?
    ensures var (w1, res) := Submit(node, w, sub).value; Operates(l, res.events, w1, SubOps(sub, res))
  {
    hide Ingress; hide Judge; hide Operates; hide CalHash; hide Gas.AgentId; hide Represents; hide Sound;
    hide SafeTrace; hide SubOps;
    var ch, agent := CalHash(node, sub.cal), Gas.AgentId(sub.cal).value;
    if sub.mode.Resume? {
      var evs := JudgeOps(node, w, l, sub, ch, agent, [], []);
      assert [] + evs == evs;
    } else {
      IngressOps(node, w, l, sub, ch, agent);
    }
  }

  // --- a program ---

  lemma {:induction false} SubmitAllOps(node: Config, w: Live, l: Ledger, subs: seq<Submission>)
    requires hide *; node.port == Rust && Represents(w.state, l) && Sound(l.flights) && SafeTraces(subs)
    requires SubmitAll(node, w, subs).Ok?
    ensures var (w1, results) := SubmitAll(node, w, subs).value;
      |results| == |subs| && Operates(l, EventsOf(results), w1, SubsOps(subs, results))
    decreases |subs|
  {
    hide Submit; hide Operates; hide Represents; hide Sound; hide SafeTrace; hide SubOps; hide EventsOf; hide Ops;
    hide LedgerAfter;
    NoEvents();
    NoOps(l);
    OperatesIs(l, [], w, []);
    if subs != [] {
      var n := |subs| - 1;
      SubmitAllOps(node, w, l, subs[..n]);
      var (w1, results) := SubmitAll(node, w, subs[..n]).value;
      var before := EventsOf(results);
      OperatesIs(l, before, w1, SubsOps(subs[..n], results));
      SubmitOps(node, w1, LedgerAfter(l, before), subs[n]);
      var (w2, res) := Submit(node, w1, subs[n]).value;
      EventsPush(results, res);
      OperatesJoin(l, before, w1, SubsOps(subs[..n], results), res.events, w2, SubOps(subs[n], res));
      assert (results + [res])[..n] == results;
    }
  }

  lemma AdvanceOps(node: Config, w: Live, l: Ledger, tick: nat)
    requires hide *; node.port == Rust && Represents(w.state, l) && Sound(l.flights) && Advance(node, w, tick).Ok?
    ensures var (w1, advanced) := Advance(node, w, tick).value;
      Operates(l, advanced, w1, if tick > w.tick then [Tick(tick)] else []) && w1.tick == tick
  {
    hide Apply; hide Operates; hide Represents; hide Sound; hide Ops; hide Step; hide LedgerAfter;
    NoOps(l);
    OperatesIs(l, [], w, []);
    if tick > w.tick {
      var ev := TickAdvanced(tick);
      var w1 := Advance(node, w, tick).value.0;
      OneOp(l, ev);
      Refines(w.state, l, ev);
      TickStep(l, ev);
      OperatesIs(l, [ev], w1, [Tick(tick)]);
    }
  }

  lemma TickStep(l: Ledger, ev: Event)
    requires hide *; ev.TickAdvanced?
    ensures Step(l, ev) == Ok(l) && LedgerAfter(l, [ev]) == l && OpsOf(l, ev) == [Tick(ev.newTick)]
  {
    assert [ev][..0] == [];
  }

  lemma TickOps(node: Config, w: Live, l: Ledger, block: TickBlock)
    requires hide *; node.port == Rust && Represents(w.state, l) && Sound(l.flights) && SafeTraces(block.submissions)
    requires ApplyTick(node, w, block).Ok?
    ensures var step := ApplyTick(node, w, block).value;
      && |step.result.submissions| == |block.submissions|
      && Operates(l, step.events, step.next, BlockOps(w.tick, block, step.result.submissions))
      && step.next.tick == step.result.tick
  {
    hide Advance; hide SubmitAll; hide Operates; hide Represents; hide Sound; hide SafeTraces; hide SubsOps;
    hide EventsOf; hide GlobalRoot; hide LedgerAfter; hide Ops;
    AdvanceOps(node, w, l, block.tick);
    var (w1, advanced) := Advance(node, w, block.tick).value;
    var ticks := if block.tick > w.tick then [Tick(block.tick)] else [];
    OperatesIs(l, advanced, w1, ticks);
    SubmitAllOps(node, w1, LedgerAfter(l, advanced), block.submissions);
    var (w2, results) := SubmitAll(node, w1, block.submissions).value;
    OperatesJoin(l, advanced, w1, ticks, EventsOf(results), w2, SubsOps(block.submissions, results));
  }

  lemma {:induction false} RunOps(node: Config, start: Live, l: Ledger, blocks: seq<TickBlock>)
    requires hide *; node.port == Rust && Represents(start.state, l) && Sound(l.flights) && SafeProgram(blocks)
    requires RunBlocks(node, start, blocks).Ok?
    ensures var p := RunBlocks(node, start, blocks).value;
      && Belong(blocks, p.ticks) && p.live.tick == TickBefore(start.tick, p.ticks, |p.ticks|)
      && Operates(l, p.log, p.live, ProgramOps(start.tick, blocks, p.ticks))
    decreases |blocks|
  {
    hide ApplyTick; hide Operates; hide Represents; hide Sound; hide SafeProgram; hide SafeTraces; hide BlockOps;
    hide LedgerAfter; hide Ops;
    if blocks == [] {
      NoOps(l);
      OperatesIs(l, [], start, []);
    } else {
      var n := |blocks| - 1;
      ProgramSplit(blocks);
      RunOps(node, start, l, blocks[..n]);
      var p := RunBlocks(node, start, blocks[..n]).value;
      var ops := ProgramOps(start.tick, blocks[..n], p.ticks);
      OperatesIs(l, p.log, p.live, ops);
      TickOps(node, p.live, LedgerAfter(l, p.log), blocks[n]);
      var step := ApplyTick(node, p.live, blocks[n]).value;
      OperatesJoin(l, p.log, p.live, ops, step.events, step.next,
        BlockOps(p.live.tick, blocks[n], step.result.submissions));
      assert (p.ticks + [step.result])[..n] == p.ticks;
    }
  }

  /** All or nothing, over whole programs: outside balances, fees, nonces and in-flight entries, a run ends in
      genesis with the ticks of its blocks and, for each submission that finalized, the effects that its
      trace records for the steps of its CAL, in the order of the program; and all of them commit. */
  lemma OnlyFinalizedSubmissions(node: Config, genesis: Json, l: Ledger, blocks: seq<TickBlock>)
    requires hide *; node.port == Rust && Represents(genesis, l) && Sound(l.flights) && SafeProgram(blocks)
    requires RunBlocks(node, Init(genesis), blocks).Ok?
    ensures var p := RunBlocks(node, Init(genesis), blocks).value;
      && Belong(blocks, p.ticks)
      && var end := PerformAll(genesis, ProgramOps(Init(genesis).tick, blocks, p.ticks));
      && end.Ok? && SameOutside(end.value, p.live.state)
  {
    hide *;
    StartsAt(genesis);
    var p := RunBlocks(node, Init(genesis), blocks).value;
    RunOps(node, Init(genesis), l, blocks);
    OperatesIs(l, p.log, p.live, ProgramOps(Init(genesis).tick, blocks, p.ticks));
    Replay.RunFolds(node, genesis, blocks);
    NodeResume.ConsistentState(node, genesis, p.log, p.live);
    RunEvents(node, Init(genesis), blocks);
    NodeEventsSafe(p.log);
    OnlyFinalizedEffects(genesis, l, p.log);
  }

  lemma StartsAt(genesis: Json)
    ensures Init(genesis).state == genesis
  {
  }
}
