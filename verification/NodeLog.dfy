/** What a node writes to its log: lifecycle events with safe effects, and ticks. */
module NodeLog {
  import opened Wrappers
  import opened JsonTree
  import opened Events
  import opened Reducer
  import opened Ledgers
  import opened LedgerStep
  import opened Runs
  import opened Acceptance
  import opened Node
  import opened NodeSafety
  import Gas
  import Lifecycle
  import Merkle
  import Staging
  import V = Validator

  /** An event of a lifecycle, whose effects, if it carries any, are safe. */
  predicate Kernel(ev: Event) {
    SafeEvent(ev) && Lifecycle.TypeOf(ev).Some?
  }

  predicate KernelOf(ev: Event, ch: string) {
    Kernel(ev) && ev.ch == ch
  }

  /** Events of one CAL. */
  ghost predicate KernelLog(evs: seq<Event>, ch: string) {
    forall i :: 0 <= i < |evs| ==> KernelOf(evs[i], ch)
  }

  /** What a run may log. */
  ghost predicate NodeEvents(evs: seq<Event>) {
    forall i :: 0 <= i < |evs| ==> Kernel(evs[i]) || evs[i].TickAdvanced?
  }

  lemma KernelJoin(a: seq<Event>, b: seq<Event>, ch: string)
    requires KernelLog(a, ch) && KernelLog(b, ch)
    ensures KernelLog(a + b, ch)
  {
    hide KernelOf;
  }

  lemma NodeEventsJoin(a: seq<Event>, b: seq<Event>)
    requires NodeEvents(a) && NodeEvents(b)
    ensures NodeEvents(a + b)
  {
    hide Kernel;
  }

  lemma NodeEventsSafe(evs: seq<Event>)
    requires NodeEvents(evs)
    ensures SafeLog(evs)
  {
  }

  lemma KernelNodeEvents(evs: seq<Event>, ch: string)
    requires KernelLog(evs, ch)
    ensures NodeEvents(evs)
    ensures forall other :: other != ch ==> Staging.Elsewhere(evs, other)
  {
    hide SafeEvent;
  }

  lemma Typed(ev: Event)
    requires ev.CalCreated? || ev.CalSigned? || ev.CalValidated? || ev.CalExecuted? || ev.CalSettled? || Closes(ev)
    requires SafeEvent(ev)
    ensures KernelOf(ev, ev.ch)
  {
  }

  lemma TailKernel(c: V.Context, tail: seq<Event>, v: V.Verdict)
    requires TailShape(c, tail, v) && SafeTrace(c.trace)
    ensures KernelLog(tail, c.ch)
  {
    hide *;
    TailSafe(c, tail, v);
    TailKinds(c, tail, v);
    SafeEach(tail);
    forall i | 0 <= i < |tail| ensures KernelOf(tail[i], c.ch) { Typed(tail[i]); }
    EachKernel(tail, c.ch);
  }

  lemma SafeEach(evs: seq<Event>)
    requires SafeLog(evs)
    ensures forall i :: 0 <= i < |evs| ==> SafeEvent(evs[i])
  {
    hide SafeEvent;
  }

  lemma EachKernel(evs: seq<Event>, ch: string)
    requires forall i :: 0 <= i < |evs| ==> KernelOf(evs[i], ch)
    ensures KernelLog(evs, ch)
  {
    hide KernelOf;
  }

  lemma OneKernel(ev: Event, ch: string)
    requires KernelOf(ev, ch)
    ensures KernelLog([ev], ch)
  {
    hide KernelOf;
  }

  lemma StoppedKernel(c: V.Context, v: V.Verdict)
    requires V.PhaseA(c) == Ok(Some(v)) && c.agent == V.StrOr(c.cal.Get("agent_id"), "")
    ensures KernelLog(v.events, c.ch)
  {
    hide *;
    StoppedShape(c, v);
    Typed(v.events[0]);
    OneKernel(v.events[0], c.ch);
    assert v.events == [v.events[0]];
  }

  lemma ValidatedKernel(c: V.Context)
    ensures KernelLog([V.ValidatedEvent(c)], c.ch)
  {
    hide V.IdNotes;
  }

  lemma DrivenKernel(c: V.Context, v: V.Verdict)
    requires V.PhaseB(c, [V.ValidatedEvent(c)]) == Ok(v) && SafeTrace(c.trace)
    ensures KernelLog(v.events, c.ch)
  {
    hide *;
    DrivenShape(c, v);
    ValidatedKernel(c);
    TailKernel(c, v.events[1..], v);
    KernelJoin([V.ValidatedEvent(c)], v.events[1..], c.ch);
    assert v.events == [V.ValidatedEvent(c)] + v.events[1..];
  }

  lemma ValidateKernel(cal: Json, ch: string, s: Json, trace: V.Trace)
    requires hide *; V.Validate(cal, ch, s, trace).Ok? && SafeTrace(trace)
    ensures KernelLog(V.Validate(cal, ch, s, trace).value.events, ch)
  {
    hide *;
    var c, v := V.BuildContext(cal, ch, s, trace), V.Validate(cal, ch, s, trace).value;
    ContextFields(cal, ch, s, trace);
    ValidateUnfolds(cal, ch, s, trace);
    if V.PhaseA(c).value.Some? { StoppedKernel(c, v); } else { DrivenKernel(c, v); }
  }

  lemma ResumeKernel(cal: Json, ch: string, s: Json, trace: V.Trace)
    requires hide *; V.ResumeFromValidated(cal, ch, s, trace).Ok? && SafeTrace(trace)
    ensures KernelLog(V.ResumeFromValidated(cal, ch, s, trace).value.events, ch)
  {
    hide *;
    var c := V.BuildContext(cal, ch, s, trace);
    ContextFields(cal, ch, s, trace);
    ResumeIs(cal, ch, s, trace);
    PhaseBShape(c, []);
    var v := V.PhaseB(c, []).value;
    assert v.events[0..] == v.events;
    TailKernel(c, v.events, v);
  }

  lemma ResumeIs(cal: Json, ch: string, s: Json, trace: V.Trace)
    ensures V.ResumeFromValidated(cal, ch, s, trace) == V.PhaseB(V.BuildContext(cal, ch, s, trace), [])
  {
    hide V.BuildContext; hide V.PhaseB;
  }

  lemma StageUnfolds(cal: Json, ch: string, s: Json, trace: V.Trace)
    requires hide *; V.ValidateToValidated(cal, ch, s, trace).Ok?
    ensures var c, one := V.BuildContext(cal, ch, s, trace), V.ValidateToValidated(cal, ch, s, trace).value;
      if one.terminal.Some? then V.PhaseA(c) == Ok(one.terminal) && one.events == one.terminal.value.events
      else one.events == [V.ValidatedEvent(c)]
  {
    hide V.PhaseA; hide V.BuildContext; hide V.ValidatedEvent;
  }

  lemma StageKernel(cal: Json, ch: string, s: Json, trace: V.Trace)
    requires hide *; V.ValidateToValidated(cal, ch, s, trace).Ok?
    ensures KernelLog(V.ValidateToValidated(cal, ch, s, trace).value.events, ch)
  {
    hide *;
    var c, one := V.BuildContext(cal, ch, s, trace), V.ValidateToValidated(cal, ch, s, trace).value;
    ContextFields(cal, ch, s, trace);
    StageUnfolds(cal, ch, s, trace);
    if one.terminal.Some? { StoppedKernel(c, one.terminal.value); } else { ValidatedKernel(c); }
  }

  // --- the events of a submission, a block and a run ---

  lemma DriveEvents(node: Config, w: Live, ch: string, agent: string, before: seq<Event>, roots: seq<Merkle.Digest>,
    events: seq<Event>, terminal: Option<V.Terminal>, reason: Option<V.Reason>)
    ensures hide *; var r := Drive(node, w, ch, agent, before, roots, events, terminal, reason);
      r.Ok? ==> r.value.1.events == before + events
  {
    hide PushAll;
  }

  lemma JudgeKernel(node: Config, w: Live, sub: Submission, ch: string, agent: string, before: seq<Event>,
      roots: seq<Merkle.Digest>)
    requires hide *; SafeTrace(sub.trace) && KernelLog(before, ch)
    ensures var r := Judge(node, w, sub, ch, agent, before, roots); r.Ok? ==> KernelLog(r.value.1.events, ch)
  {
    hide Drive; hide V.Validate; hide V.ResumeFromValidated; hide V.ValidateToValidated; hide KernelLog; hide SafeTrace;
    var trace := sub.trace.(currentTick := w.tick);
    TraceKept(sub.trace, w.tick);
    match sub.mode {
      case Atomic =>
        var v := V.Validate(sub.cal, ch, w.state, trace);
        if v.Ok? {
          DriveEvents(node, w, ch, agent, before, roots, v.value.events, Some(v.value.terminal), v.value.reason);
          ValidateKernel(sub.cal, ch, w.state, trace);
          KernelJoin(before, v.value.events, ch);
        }
      case Resume =>
        var v := V.ResumeFromValidated(sub.cal, ch, w.state, trace);
        if v.Ok? {
          DriveEvents(node, w, ch, agent, before, roots, v.value.events, Some(v.value.terminal), v.value.reason);
          ResumeKernel(sub.cal, ch, w.state, trace);
          KernelJoin(before, v.value.events, ch);
        }
      case ValidateOnly =>
        var one := V.ValidateToValidated(sub.cal, ch, w.state, trace);
        if one.Ok? {
          var t := one.value.terminal;
          DriveEvents(node, w, ch, agent, before, roots, one.value.events,
            if t.Some? then Some(t.value.terminal) else None, if t.Some? then t.value.reason else None);
          StageKernel(sub.cal, ch, w.state, trace);
          KernelJoin(before, one.value.events, ch);
        }
    }
  }

  lemma IngressLogs(ch: string, agent: string)
    ensures KernelLog([], ch) && KernelLog([CalCreated(ch, agent)], ch)
    ensures KernelLog([CalCreated(ch, agent), CalSigned(ch)], ch)
  {
  }

  lemma IngressKernel(node: Config, w: Live, sub: Submission, ch: string, agent: string)
    requires hide *; SafeTrace(sub.trace)
    ensures var r := Ingress(node, w, sub, ch, agent); r.Ok? ==> KernelLog(r.value.1.events, ch)
  {
    hide Push; hide Judge; hide KernelLog; hide SafeTrace;
    IngressLogs(ch, agent);
    var created, signed := CalCreated(ch, agent), CalSigned(ch);
    if Push(node, w, created).Ok? {
      var w1 := Push(node, w, created).value;
      if Push(node, w1, signed).Ok? {
        var w2 := Push(node, w1, signed).value;
        JudgeKernel(node, w2, sub, ch, agent, [created, signed], [node.root(w1.state), node.root(w2.state)]);
      }
    }
  }

  /** A submission records lifecycle events of its own CAL with safe effects only. */
  lemma SubmitKernel(node: Config, w: Live, sub: Submission)
    requires hide *; SafeTrace(sub.trace)
    ensures var r := Submit(node, w, sub); r.Ok? ==> sub.cal.Obj? && KernelLog(r.value.1.events, CalHash(node, sub.cal))
  {
    hide Ingress; hide Judge; hide KernelLog; hide SafeTrace; hide CalHash; hide Gas.AgentId;
    if sub.cal.Obj? { IngressLogs(CalHash(node, sub.cal), ""); }
    if sub.cal.Obj? && Gas.AgentId(sub.cal).Some? {
      IngressKernel(node, w, sub, CalHash(node, sub.cal), Gas.AgentId(sub.cal).value);
      JudgeKernel(node, w, sub, CalHash(node, sub.cal), Gas.AgentId(sub.cal).value, [], []);
    }
  }

  lemma {:induction false} SubmitAllEvents(node: Config, w: Live, subs: seq<Submission>)
    requires hide *; SafeTraces(subs)
    ensures var r := SubmitAll(node, w, subs); r.Ok? ==> NodeEvents(EventsOf(r.value.1))
    decreases |subs|
  {
    hide Submit; hide KernelLog; hide NodeEvents; hide SafeTrace; hide EventsOf; hide CalHash;
    NothingLogged();
    NoEvents();
    if subs != [] && SubmitAll(node, w, subs).Ok? {
      var n := |subs| - 1;
      SubmitAllEvents(node, w, subs[..n]);
      var (w1, results) := SubmitAll(node, w, subs[..n]).value;
      SubmitKernel(node, w1, subs[n]);
      var result := Submit(node, w1, subs[n]).value.1;
      EventsPush(results, result);
      KernelNodeEvents(result.events, CalHash(node, subs[n].cal));
      NodeEventsJoin(EventsOf(results), result.events);
    }
  }

  lemma NothingLogged()
    ensures NodeEvents([])
  {
  }

  lemma TickEvents(node: Config, w: Live, tick: nat)
    ensures hide *; var r := Advance(node, w, tick); r.Ok? ==> NodeEvents(r.value.1)
  {
    hide Push; hide Kernel;
  }

  /** A block logs its tick, if it is a new one, and what its submissions record. */
  lemma BlockEvents(node: Config, w: Live, block: TickBlock)
    requires hide *; SafeTraces(block.submissions)
    ensures var r := ApplyTick(node, w, block); r.Ok? ==> NodeEvents(r.value.events)
  {
    hide SubmitAll; hide EventsOf; hide Advance; hide NodeEvents; hide KernelLog; hide SafeTraces; hide GlobalRoot;
    TickEvents(node, w, block.tick);
    if ApplyTick(node, w, block).Ok? {
      var (w1, advanced) := Advance(node, w, block.tick).value;
      SubmitAllEvents(node, w1, block.submissions);
      var results := SubmitAll(node, w1, block.submissions).value.1;
      NodeEventsJoin(advanced, EventsOf(results));
    }
  }

  lemma ProgramSplit(blocks: seq<TickBlock>)
    requires blocks != [] && SafeProgram(blocks)
    ensures SafeProgram(blocks[..|blocks| - 1]) && SafeTraces(blocks[|blocks| - 1].submissions)
  {
    hide SafeTrace;
    var a, b := AllSubs(blocks[..|blocks| - 1]), blocks[|blocks| - 1].submissions;
    assert forall i :: 0 <= i < |a| ==> a[i] == (a + b)[i];
    assert forall i :: 0 <= i < |b| ==> b[i] == (a + b)[|a| + i];
  }

  /** The log of a run holds lifecycle events with safe effects and ticks, nothing else. */
  lemma {:induction false} RunEvents(node: Config, start: Live, blocks: seq<TickBlock>)
    requires hide *; SafeProgram(blocks)
    ensures var r := RunBlocks(node, start, blocks); r.Ok? ==> NodeEvents(r.value.log)
    decreases |blocks|
  {
    hide ApplyTick; hide SafeProgram; hide SafeTraces; hide Kernel;
    if blocks != [] && RunBlocks(node, start, blocks).Ok? {
      var n := |blocks| - 1;
      ProgramSplit(blocks);
      RunEvents(node, start, blocks[..n]);
      var p := RunBlocks(node, start, blocks[..n]).value;
      BlockEvents(node, p.live, blocks[n]);
      NodeEventsJoin(p.log, ApplyTick(node, p.live, blocks[n]).value.events);
    }
  }
}
