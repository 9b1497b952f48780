/** The node over the two ports of the reducer, with one validator: from a plain genesis, with plain effects
    and the supply in range, every program runs alike. */
module NodePorts {
  import opened Wrappers
  import opened JsonTree
  import opened Events
  import opened Deltas
  import opened Reducer
  import opened Ports
  import opened Ledgers
  import opened LedgerStep
  import opened Runs
  import TsReducer
  import opened Parity
  import opened Plain
  import opened Acceptance
  import opened Node
  import opened NodeSafety
  import opened NodeLog
  import Conservation
  import Gas
  import Merkle
  import NodeResume
  import Replay
  import V = Validator

  /** The same node over the Rust reducer. */
  function Checked(node: Config): Config {
    node.(port := Rust)
  }

  /** Equal results; of two rejections by the reducer only the code may differ. */
  predicate Alike<T(==)>(r: Result<T, NodeError>, u: Result<T, NodeError>) {
    r == u || (r.Err? && u.Err? && r.error.APPLY_FAILED? && u.error.APPLY_FAILED?)
  }

  /** A plain live state that represents a ledger with the supply in range. */
  ghost predicate PlainLive(w: Live, l: Ledger) {
    && Represents(w.state, l) && Sound(l.flights) && Conservation.Supply(l) <= UINT256_MAX
    && PlainState(w.state) && PlainStaged(l)
  }

  ghost predicate PlainTrace(trace: V.Trace) {
    SafeTrace(trace) && forall i :: 0 <= i < |trace.steps| ==> PlainDeltas(trace.steps[i].effects)
  }

  ghost predicate PlainSubs(subs: seq<Submission>) {
    forall i :: 0 <= i < |subs| ==> PlainTrace(subs[i].trace)
  }

  ghost predicate PlainProgram(blocks: seq<TickBlock>) {
    PlainSubs(AllSubs(blocks))
  }

  // --- the events of a plain trace ---

  lemma {:induction false} StepsPlain(c: V.Context, i: nat, committed: seq<Json>)
    requires PlainTrace(c.trace) && PlainDeltas(committed)
    ensures PlainDeltas(V.RunSteps(c, i, committed).1)
    decreases |V.Steps(c)| - i
  {
    hide PlainDelta; hide SafeTrace; hide V.PostConditions; hide V.Steps;
    if i < |V.Steps(c)| && i < |c.trace.steps| && c.trace.steps[i].ok {
      StepsPlain(c, i + 1, committed + c.trace.steps[i].effects);
    }
  }

  lemma TailPlain(c: V.Context, tail: seq<Event>, v: V.Verdict)
    requires TailShape(c, tail, v) && PlainTrace(c.trace)
    ensures PlainLog(tail)
  {
    hide V.RunSteps; hide PlainDelta; hide PlainTrace; hide PlainTree;
    NothingPlain();
    StepsPlain(c, 0, []);
  }

  lemma NothingPlain()
    ensures PlainDeltas([])
  {
  }

  lemma PlainJoin(a: seq<Event>, b: seq<Event>)
    requires PlainLog(a) && PlainLog(b)
    ensures PlainLog(a + b)
  {
    hide PlainEvent;
  }

  lemma MovePlainEvent(ev: Event)
    requires Closes(ev) || ev.CalValidated?
    ensures PlainLog([ev])
  {
  }

  lemma SafeOfPlain(trace: V.Trace, tick: nat)
    requires PlainTrace(trace)
    ensures SafeTrace(trace) && PlainTrace(trace.(currentTick := tick))
  {
    hide PlainDeltas; hide SafeDeltas;
  }

  lemma ValidatePlain(cal: Json, ch: string, s: Json, trace: V.Trace)
    requires hide *; V.Validate(cal, ch, s, trace).Ok? && PlainTrace(trace)
    ensures PlainLog(V.Validate(cal, ch, s, trace).value.events)
  {
    hide *;
    var c, v := V.BuildContext(cal, ch, s, trace), V.Validate(cal, ch, s, trace).value;
    ContextFields(cal, ch, s, trace);
    ValidateUnfolds(cal, ch, s, trace);
    SafeOfPlain(trace, 0);
    if V.PhaseA(c).value.Some? {
      StoppedShape(c, v);
      MovePlainEvent(v.events[0]);
      assert v.events == [v.events[0]];
    } else {
      DrivenShape(c, v);
      MovePlainEvent(V.ValidatedEvent(c));
      TailPlain(c, v.events[1..], v);
      PlainJoin([V.ValidatedEvent(c)], v.events[1..]);
      assert v.events == [V.ValidatedEvent(c)] + v.events[1..];
    }
  }

  lemma ResumePlain(cal: Json, ch: string, s: Json, trace: V.Trace)
    requires hide *; V.ResumeFromValidated(cal, ch, s, trace).Ok? && PlainTrace(trace)
    ensures PlainLog(V.ResumeFromValidated(cal, ch, s, trace).value.events)
  {
    hide *;
    var c := V.BuildContext(cal, ch, s, trace);
    ContextFields(cal, ch, s, trace);
    ResumeIs(cal, ch, s, trace);
    PhaseBShape(c, []);
    var v := V.PhaseB(c, []).value;
    assert v.events[0..] == v.events;
    TailPlain(c, v.events, v);
  }

  lemma StagePlain(cal: Json, ch: string, s: Json, trace: V.Trace)
    requires hide *; V.ValidateToValidated(cal, ch, s, trace).Ok?
    ensures PlainLog(V.ValidateToValidated(cal, ch, s, trace).value.events)
  {
    hide *;
    var c, one := V.BuildContext(cal, ch, s, trace), V.ValidateToValidated(cal, ch, s, trace).value;
    ContextFields(cal, ch, s, trace);
    StageUnfolds(cal, ch, s, trace);
    if one.terminal.Some? {
      StoppedShape(c, one.terminal.value);
      MovePlainEvent(one.events[0]);
      assert one.events == [one.events[0]];
    } else {
      ValidatedIsMove(c);
      MovePlainEvent(V.ValidatedEvent(c));
    }
  }

  lemma ValidatedIsMove(c: V.Context)
    ensures V.ValidatedEvent(c).CalValidated?
  {
    hide V.IdNotes;
  }

  // --- folding them ---

  lemma PlainLiveIs(w: Live, l: Ledger)
    ensures PlainLive(w, l) <==>
      && Represents(w.state, l) && Sound(l.flights) && Conservation.Supply(l) <= UINT256_MAX
      && PlainState(w.state) && PlainStaged(l)
  {
    hide Represents; hide Sound; hide PlainState; hide PlainStaged;
  }

  lemma FollowerIs(port: Port, s: Json, l: Ledger, log: seq<Event>)
    requires Conservation.Supply(l) <= UINT256_MAX && EvenRun(s, log)
    ensures Follower(port, s, l, log)
  {
    hide EvenRun;
  }

  lemma {:induction false} PushAllPorts(node: Config, w: Live, l: Ledger, evs: seq<Event>)
    requires hide *; PlainLive(w, l) && SafeLog(evs) && PlainLog(evs)
    ensures PushAll(node, w, evs).Ok? <==> PushAll(Checked(node), w, evs).Ok?
    ensures PushAll(node, w, evs).Ok? ==>
      PushAll(node, w, evs) == PushAll(Checked(node), w, evs)
        && PlainLive(PushAll(node, w, evs).value.0, LedgerAfter(l, evs))
    decreases |evs|
  {
    hide Represents; hide Sound; hide Apply; hide SafeEvent; hide PlainEvent; hide PlainState; hide PlainStaged;
    hide Materialize; hide LedgerAfter; hide EvenRun; hide Follower; hide Conservation.Supply; hide PlainLive;
    PlainLiveIs(w, l);
    PlainRun(w.state, l, evs);
    FollowerIs(node.port, w.state, l, evs);
    FoldPorts(node.port, w.state, l, evs);
    PushAllRuns(Checked(node), w, evs);
    PushAllRuns(node, w, evs);
    PushAllAccepts(node, w, evs);
    PushAllAccepts(Checked(node), w, evs);
    if Materialize(Rust, w.state, evs).Ok? {
      RunKeeps(w.state, l, evs);
      PlainLiveIs(PushAll(Checked(node), w, evs).value.0, LedgerAfter(l, evs));
    }
    if evs != [] {
      PushAllPorts(node, w, l, evs[..|evs| - 1]);
    } else {
      NoneApplied(l);
    }
  }

  lemma NoneApplied(l: Ledger)
    ensures LedgerAfter(l, []) == l
  {
  }

  lemma DrivePorts(node: Config, w: Live, l: Ledger, ch: string, agent: string, before: seq<Event>,
      roots: seq<Merkle.Digest>,
    events: seq<Event>, terminal: Option<V.Terminal>, reason: Option<V.Reason>) returns (m: Ledger)
    requires hide *; PlainLive(w, l) && KernelLog(events, ch) && PlainLog(events)
    ensures var r := Drive(node, w, ch, agent, before, roots, events, terminal, reason);
      && Alike(r, Drive(Checked(node), w, ch, agent, before, roots, events, terminal, reason))
      && (r.Ok? ==> PlainLive(r.value.0, m))
  {
    hide PushAll; hide PlainLive; hide KernelLog; hide Checked; hide PlainLog; hide LedgerAfter;
    KernelNodeEvents(events, ch);
    NodeEventsSafe(events);
    PushAllPorts(node, w, l, events);
    m := LedgerAfter(l, events);
  }

  lemma JudgePorts(node: Config, w: Live, l: Ledger, sub: Submission, ch: string, agent: string, before: seq<Event>,
      roots: seq<Merkle.Digest>) returns (m: Ledger)
    requires hide *; PlainLive(w, l) && PlainTrace(sub.trace)
    ensures var r := Judge(node, w, sub, ch, agent, before, roots);
      && Alike(r, Judge(Checked(node), w, sub, ch, agent, before, roots))
      && (r.Ok? ==> PlainLive(r.value.0, m))
  {
    hide Drive; hide V.Validate; hide V.ResumeFromValidated; hide V.ValidateToValidated; hide KernelLog; hide SafeTrace;
    hide PlainLive; hide Checked; hide PlainLog; hide PlainTrace;
    var trace := sub.trace.(currentTick := w.tick);
    SafeOfPlain(sub.trace, w.tick);
    TraceKept(sub.trace, w.tick);
    m := l;
    match sub.mode {
      case Atomic =>
        var v := V.Validate(sub.cal, ch, w.state, trace);
        if v.Ok? {
          ValidateKernel(sub.cal, ch, w.state, trace);
          ValidatePlain(sub.cal, ch, w.state, trace);
          m := DrivePorts(node, w, l, ch, agent, before, roots, v.value.events, Some(v.value.terminal), v.value.reason);
        }
      case Resume =>
        var v := V.ResumeFromValidated(sub.cal, ch, w.state, trace);
        if v.Ok? {
          ResumeKernel(sub.cal, ch, w.state, trace);
          ResumePlain(sub.cal, ch, w.state, trace);
          m := DrivePorts(node, w, l, ch, agent, before, roots, v.value.events, Some(v.value.terminal), v.value.reason);
        }
      case ValidateOnly =>
        var one := V.ValidateToValidated(sub.cal, ch, w.state, trace);
        if one.Ok? {
          StageKernel(sub.cal, ch, w.state, trace);
          StagePlain(sub.cal, ch, w.state, trace);
          var t := one.value.terminal;
          m := DrivePorts(node, w, l, ch, agent, before, roots, one.value.events,
            if t.Some? then Some(t.value.terminal) else None, if t.Some? then t.value.reason else None);
        }
    }
  }

  lemma NodePushes(port: Port, s: Json, l: Ledger, ev: Event)
    requires hide *; Represents(s, l) && Sound(l.flights) && Conservation.Supply(l) <= UINT256_MAX
    requires PlainState(s) && PlainStaged(l) && (ev.CalCreated? || ev.CalSigned? || ev.TickAdvanced?)
    ensures PortApply(port, s, ev) == Apply(s, ev)
    ensures Apply(s, ev).Ok? ==>
      && Step(l, ev).Ok? && Represents(Apply(s, ev).value, Step(l, ev).value) && Sound(Step(l, ev).value.flights)
      && Conservation.Supply(Step(l, ev).value) == Conservation.Supply(l)
      && PlainState(Apply(s, ev).value) && PlainStaged(Step(l, ev).value)
  {
    hide Represents; hide Sound; hide Apply; hide TsReducer.TsApply; hide Step; hide PlainState; hide PlainStaged;
    hide EvenMoney; hide EvenEvent; hide Conservation.Supply;
    PlainEventEven(s, l, ev);
    MovesOrTicks(s, l, ev);
    assert SafeEvent(ev) && PlainEvent(ev);
    if Apply(s, ev).Ok? {
      Refines(s, l, ev);
      StepKeepsSound(l, ev);
      Conservation.StepConserves(l, ev);
      PlainKept(s, l, ev);
      StagedKept(l, ev);
    }
  }

  lemma MovesOrTicks(s: Json, l: Ledger, ev: Event)
    requires hide *; Represents(s, l) && Sound(l.flights) && EvenMoney(s) && EvenEvent(s, ev)
    requires ev.CalCreated? || ev.CalSigned? || ev.TickAdvanced?
    ensures TsReducer.TsApply(s, ev) == Apply(s, ev)
  {
    hide *;
    if ev.TickAdvanced? { EventFollows(s, l, ev); } else { MovesAlike(s, l, ev); }
  }

  lemma PushPorts(node: Config, w: Live, l: Ledger, ev: Event) returns (m: Ledger)
    requires hide *; PlainLive(w, l) && (ev.CalCreated? || ev.CalSigned? || ev.TickAdvanced?)
    ensures Push(node, w, ev) == Push(Checked(node), w, ev)
    ensures Push(node, w, ev).Ok? ==> PlainLive(Push(node, w, ev).value, m)
  {
    hide Apply; hide PlainLive; hide Represents; hide Sound; hide Step; hide PlainState; hide PlainStaged;
    hide Conservation.Supply; hide PortApply;
    PlainLiveIs(w, l);
    NodePushes(node.port, w.state, l, ev);
    NodePushes(Rust, w.state, l, ev);
    m := l;
    if Push(node, w, ev).Ok? {
      m := Step(l, ev).value;
      PlainLiveIs(Push(node, w, ev).value, m);
    }
  }

  lemma HashPorts(node: Config, cal: Json)
    requires cal.Obj?
    ensures CalHash(node, cal) == CalHash(Checked(node), cal) && Checked(node).root == node.root
  {
  }

  lemma IngressPorts(node: Config, w: Live, l: Ledger, sub: Submission, ch: string, agent: string) returns (m: Ledger)
    requires hide *; PlainLive(w, l) && PlainTrace(sub.trace)
    ensures var r := Ingress(node, w, sub, ch, agent);
      && Alike(r, Ingress(Checked(node), w, sub, ch, agent))
      && (r.Ok? ==> PlainLive(r.value.0, m))
  {
    hide Push; hide Judge; hide PlainTrace; hide PlainLive;
    var created, signed := CalCreated(ch, agent), CalSigned(ch);
    assert Checked(node).root == node.root;
    m := l;
    var l1 := PushPorts(node, w, l, created);
    if Push(node, w, created).Ok? {
      var w1 := Push(node, w, created).value;
      m := l1;
      var l2 := PushPorts(node, w1, l1, signed);
      if Push(node, w1, signed).Ok? {
        var w2 := Push(node, w1, signed).value;
        m := JudgePorts(node, w2, l2, sub, ch, agent, [created, signed], [node.root(w1.state), node.root(w2.state)]);
      }
    }
  }

  /** One submission. */
  lemma SubmitPorts(node: Config, w: Live, l: Ledger, sub: Submission) returns (m: Ledger)
    requires hide *; PlainLive(w, l) && PlainTrace(sub.trace)
    ensures Alike(Submit(node, w, sub), Submit(Checked(node), w, sub))
    ensures Submit(node, w, sub).Ok? ==> PlainLive(Submit(node, w, sub).value.0, m)
  {
    hide Ingress; hide Judge; hide PlainTrace; hide PlainLive; hide CalHash; hide Gas.AgentId; hide Checked;
    m := l;
    if sub.cal.Obj? && Gas.AgentId(sub.cal).Some? {
      HashPorts(node, sub.cal);
      if sub.mode.Resume? {
        m := JudgePorts(node, w, l, sub, CalHash(node, sub.cal), Gas.AgentId(sub.cal).value, [], []);
      } else {
        m := IngressPorts(node, w, l, sub, CalHash(node, sub.cal), Gas.AgentId(sub.cal).value);
      }
    }
  }

  lemma {:induction false} SubmitAllPorts(node: Config, w: Live, l: Ledger, subs: seq<Submission>) returns (m: Ledger)
    requires hide *; PlainLive(w, l) && PlainSubs(subs)
    ensures Alike(SubmitAll(node, w, subs), SubmitAll(Checked(node), w, subs))
    ensures SubmitAll(node, w, subs).Ok? ==> PlainLive(SubmitAll(node, w, subs).value.0, m)
    decreases |subs|
  {
    hide Submit; hide PlainLive; hide PlainTrace; hide Checked;
    m := l;
    if subs != [] {
      var n := |subs| - 1;
      var k := SubmitAllPorts(node, w, l, subs[..n]);
      if SubmitAll(node, w, subs[..n]).Ok? {
        m := SubmitPorts(node, SubmitAll(node, w, subs[..n]).value.0, k, subs[n]);
      }
    }
  }

  lemma AdvancePorts(node: Config, w: Live, l: Ledger, tick: nat) returns (m: Ledger)
    requires hide *; PlainLive(w, l)
    ensures Advance(node, w, tick) == Advance(Checked(node), w, tick)
    ensures Advance(node, w, tick).Ok? ==> PlainLive(Advance(node, w, tick).value.0, m)
  {
    hide Push; hide Checked; hide PlainLive;
    m := l;
    if tick > w.tick {
      m := PushPorts(node, w, l, TickAdvanced(tick));
      if Push(node, w, TickAdvanced(tick)).Ok? { TickKept(Push(node, w, TickAdvanced(tick)).value, m, tick); }
    }
  }

  lemma TickKept(w: Live, l: Ledger, tick: nat)
    requires PlainLive(w, l)
    ensures PlainLive(w.(tick := tick), l)
  {
    hide Represents; hide Sound; hide PlainState; hide PlainStaged;
  }

  lemma RootsPorts(node: Config, w: Live)
    ensures GlobalRoot(Checked(node), w.state, w.eventCount, w.lastEventHash)
      == GlobalRoot(node, w.state, w.eventCount, w.lastEventHash)
    ensures Checked(node).root == node.root
  {
  }

  lemma TickAlike(node: Config, w: Live, l: Ledger, block: TickBlock) returns (m: Ledger)
    requires hide *; PlainLive(w, l) && PlainSubs(block.submissions)
    ensures Alike(ApplyTick(node, w, block), ApplyTick(Checked(node), w, block))
    ensures ApplyTick(node, w, block).Ok? ==> PlainLive(ApplyTick(node, w, block).value.next, m)
  {
    hide Advance; hide SubmitAll; hide PlainLive; hide PlainSubs; hide Checked; hide EventsOf; hide GlobalRoot;
    m := l;
    var k := AdvancePorts(node, w, l, block.tick);
    if Advance(node, w, block.tick).Ok? {
      var w1 := Advance(node, w, block.tick).value.0;
      m := SubmitAllPorts(node, w1, k, block.submissions);
      if SubmitAll(node, w1, block.submissions).Ok? {
        RootsPorts(node, SubmitAll(node, w1, block.submissions).value.0);
      }
    }
  }

  lemma PlainSplit(blocks: seq<TickBlock>)
    requires blocks != [] && PlainProgram(blocks)
    ensures PlainProgram(blocks[..|blocks| - 1]) && PlainSubs(blocks[|blocks| - 1].submissions)
  {
    hide PlainTrace;
    var a, b := AllSubs(blocks[..|blocks| - 1]), blocks[|blocks| - 1].submissions;
    assert forall i :: 0 <= i < |a| ==> a[i] == (a + b)[i];
    assert forall i :: 0 <= i < |b| ==> b[i] == (a + b)[|a| + i];
  }

  lemma {:induction false} ProgramPorts(node: Config, start: Live, l: Ledger, blocks: seq<TickBlock>)
      returns (m: Ledger)
    requires hide *; PlainLive(start, l) && PlainProgram(blocks)
    ensures Alike(RunBlocks(node, start, blocks), RunBlocks(Checked(node), start, blocks))
    ensures RunBlocks(node, start, blocks).Ok? ==> PlainLive(RunBlocks(node, start, blocks).value.live, m)
    decreases |blocks|
  {
    hide ApplyTick; hide PlainProgram; hide PlainSubs; hide Checked; hide PlainLive;
    m := l;
    if blocks != [] {
      var n := |blocks| - 1;
      PlainSplit(blocks);
      var k := ProgramPorts(node, start, l, blocks[..n]);
      if RunBlocks(node, start, blocks[..n]).Ok? {
        m := TickAlike(node, RunBlocks(node, start, blocks[..n]).value.live, k, blocks[n]);
      }
    }
  }

  /** Money over programs: every run of the Rust reducer with safe effects ends in a state that represents the
      ledger of its log, with the supply of genesis; the treasury has gained what it kept of the closed CALs. */
  lemma RunConserves(node: Config, genesis: Json, l: Ledger, blocks: seq<TickBlock>)
    requires hide *; node.port == Rust && Represents(genesis, l) && Sound(l.flights) && SafeProgram(blocks)
    requires RunBlocks(node, Init(genesis), blocks).Ok?
    ensures var p := RunBlocks(node, Init(genesis), blocks).value; var m := LedgerAfter(l, p.log);
      && Represents(p.live.state, m) && Sound(m.flights) && Conservation.Supply(m) == Conservation.Supply(l)
      && m.fees == l.fees + Retained(l, p.log)
  {
    hide *;
    var p := RunBlocks(node, Init(genesis), blocks).value;
    FeesCountRetained(l, p.log);
    Replay.RunFolds(node, genesis, blocks);
    NodeResume.ConsistentState(node, genesis, p.log, p.live);
    RunEvents(node, Init(genesis), blocks);
    NodeEventsSafe(p.log);
    RunKeeps(genesis, l, p.log);
  }

  lemma SafeOfPlainProgram(blocks: seq<TickBlock>)
    requires PlainProgram(blocks)
    ensures SafeProgram(blocks)
  {
    hide PlainDeltas; hide SafeTrace; hide AllSubs;
  }

  /** Both ports of the reducer, under one validator, run every plain program alike from a plain genesis that
      represents a ledger with the supply in range: the same states, events, roots and verdicts, and
      errors that differ at most in the code of a rejection. The state stays plain, and the supply never
      changes. */
  lemma RunPorts(node: Config, genesis: Json, l: Ledger, blocks: seq<TickBlock>)
    requires hide *; Represents(genesis, l) && Sound(l.flights) && Conservation.Supply(l) <= UINT256_MAX
    requires PlainState(genesis) && PlainStaged(l) && PlainProgram(blocks)
    ensures Alike(RunBlocks(node, Init(genesis), blocks), RunBlocks(Checked(node), Init(genesis), blocks))
    ensures RunBlocks(node, Init(genesis), blocks).Ok? ==>
      var p := RunBlocks(node, Init(genesis), blocks).value; var m := LedgerAfter(l, p.log);
      && Represents(p.live.state, m) && Sound(m.flights) && Conservation.Supply(m) == Conservation.Supply(l)
      && PlainState(p.live.state)
  {
    hide *;
    GenesisIs(genesis);
    PlainLiveIs(Init(genesis), l);
    var m := ProgramPorts(node, Init(genesis), l, blocks);
    AlikeOk(RunBlocks(node, Init(genesis), blocks), RunBlocks(Checked(node), Init(genesis), blocks));
    SafeOfPlainProgram(blocks);
    CheckedIs(node);
    if RunBlocks(node, Init(genesis), blocks).Ok? {
      PlainLiveIs(RunBlocks(node, Init(genesis), blocks).value.live, m);
      RunConserves(Checked(node), genesis, l, blocks);
    }
  }

  lemma AlikeOk<T>(r: Result<T, NodeError>, u: Result<T, NodeError>)
    requires Alike(r, u)
    ensures r.Ok? ==> r == u
    ensures r.Ok? <==> u.Ok?
    ensures r.Err? ==> (r.error.APPLY_FAILED? <==> u.error.APPLY_FAILED?)
  {
  }

  lemma CheckedIs(node: Config)
    ensures Checked(node).port == Rust && Checked(node).sha == node.sha && Checked(node).root == node.root
  {
  }

  lemma GenesisIs(genesis: Json)
    ensures Init(genesis).state == genesis
  {
  }
}
