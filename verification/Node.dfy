/** The node: programs of tick blocks folded through validator and reducer over one live state. The
    state root and the event hash are parameters; a state is taken to always have a root. */
module Node {
  import opened Wrappers
  import opened JsonTree
  import opened Events
  import opened Reducer
  import opened Ports
  import opened Runs
  import Gas
  import JcsText
  import Merkle
  import V = Validator

  datatype Config = Config(port: Port, sha: Merkle.Hash, root: Json -> Merkle.Digest, eventHash: Event -> Merkle.Digest)

  datatype Mode = Atomic | ValidateOnly | Resume

  datatype Submission = Submission(cal: Json, trace: V.Trace, mode: Mode)
  datatype TickBlock = TickBlock(tick: nat, submissions: seq<Submission>)

  datatype NodeError =
    | NOT_OBJECT | BAD_CAL | TICK_REGRESSION | TICK_REJECTED(code: Code) | APPLY_FAILED(code: Code)
    | VALIDATE_ERROR(cause: Gas.GasError)

  /** terminal is None for a CAL refused at ingress and for one left at VALIDATED. */
  datatype SubmissionResult = SubmissionResult(
    ch: string, agent: string, terminal: Option<V.Terminal>, reason: Option<V.Reason>,
    events: seq<Event>, roots: seq<Merkle.Digest>, ingressError: Option<Code>)

  datatype TickResult = TickResult(tick: nat, submissions: seq<SubmissionResult>, stateRoot: Merkle.Digest,
    globalRoot: Merkle.Digest)

  /** What the node carries from tick to tick. */
  datatype Live = Live(state: Json, tick: nat, eventCount: nat, lastEventHash: Merkle.Digest)

  const ZERO32: Merkle.Digest := "\0\0\0\0\0\0\0\0\0\0\0\0\0\0\0\0\0\0\0\0\0\0\0\0\0\0\0\0\0\0\0\0"

  // --- hashes ---

  /** The node's root of this state is the STATE_ROOT that the kernel defines. */
  predicate Rooted(node: Config, s: Json) {
    Merkle.StateRootOf(node.sha, s) == Ok(node.root(s))
  }

  /** The CAL without its signatures. */
  function Unsigned(cal: Json): Json
    requires cal.Obj?
  {
    Obj(cal.fields - {"signatures"})
  }

  function CalHash(node: Config, cal: Json): Merkle.Digest
    requires cal.Obj?
  {
    Merkle.DomainHash(node.sha, Merkle.CAL_V1, JcsText.Print(Unsigned(cal)))
  }

  function EncodeUint64(n: nat): (bytes: string)
    ensures |bytes| == 8
  {
    [Byte(n, 0x100_0000_0000_0000), Byte(n, 0x1_0000_0000_0000), Byte(n, 0x100_0000_0000), Byte(n, 0x1_0000_0000),
     Byte(n, 0x100_0000), Byte(n, 0x1_0000), Byte(n, 0x100), Byte(n, 1)]
  }

  function Byte(n: nat, unit: nat): char
    requires unit > 0
  {
    (n / unit % 256) as char
  }

  /** The stream root over the one leaf of the global stream. */
  function GlobalRoot(node: Config, state: Json, eventCount: nat, lastEventHash: Merkle.Digest): Merkle.Digest {
    var last: string := if eventCount == 0 then ZERO32 else lastEventHash;
    Merkle.DomainHash(node.sha, Merkle.MERKLE_LEAF_V1,
      Merkle.EncodeUint16(|"global"|) + "global" + node.root(state) + last + EncodeUint64(eventCount))
  }

  /** The same root, rebuilt from a state and the whole log. */
  function LogRoot(node: Config, state: Json, log: seq<Event>): Merkle.Digest {
    GlobalRoot(node, state, |log|, if log == [] then ZERO32 else node.eventHash(log[|log| - 1]))
  }

  // --- folding events into the live state ---

  function Push(node: Config, w: Live, ev: Event): Result<Live, Code> {
    var s :- PortApply(node.port, w.state, ev);
    Ok(Live(s, w.tick, w.eventCount + 1, node.eventHash(ev)))
  }

  /** A list of events folded in order, with the root after each. */
  function PushAll(node: Config, w: Live, evs: seq<Event>): Result<(Live, seq<Merkle.Digest>), Code> {
    if evs == [] then Ok((w, []))
    else
      var n := |evs| - 1;
      var (w1, roots) :- PushAll(node, w, evs[..n]);
      var w2 :- Push(node, w1, evs[n]);
      Ok((w2, roots + [node.root(w2.state)]))
  }

  // --- one submission ---

  /** The events of the validator are folded; a rejection is an integration defect. */
  function Drive(node: Config, w: Live, ch: string, agent: string, before: seq<Event>, roots: seq<Merkle.Digest>,
    events: seq<Event>, terminal: Option<V.Terminal>, reason: Option<V.Reason>): Result<(Live, SubmissionResult),
      NodeError>
  {
    match PushAll(node, w, events)
    case Err(code) => Err(APPLY_FAILED(code))
    case Ok((w1, more)) => Ok((w1, SubmissionResult(ch, agent, terminal, reason, before + events, roots + more, None)))
  }

  function Lifted<T>(r: Result<T, Gas.GasError>): Result<T, NodeError> {
    match r case Ok(v) => Ok(v) case Err(e) => Err(VALIDATE_ERROR(e))
  }

  /** Validation once the CAL is at SIGNED, or at VALIDATED for a resume. */
  function Judge(node: Config, w: Live, sub: Submission, ch: string, agent: string, before: seq<Event>,
      roots: seq<Merkle.Digest>)
    : Result<(Live, SubmissionResult), NodeError>
  {
    hide V.Validate; hide V.ResumeFromValidated; hide V.ValidateToValidated; hide Drive;
    var trace := sub.trace.(currentTick := w.tick);
    match sub.mode
    case Atomic =>
      var v :- Lifted(V.Validate(sub.cal, ch, w.state, trace));
      Drive(node, w, ch, agent, before, roots, v.events, Some(v.terminal), v.reason)
    case Resume =>
      var v :- Lifted(V.ResumeFromValidated(sub.cal, ch, w.state, trace));
      Drive(node, w, ch, agent, before, roots, v.events, Some(v.terminal), v.reason)
    case ValidateOnly =>
      var one :- Lifted(V.ValidateToValidated(sub.cal, ch, w.state, trace));
      Drive(node, w, ch, agent, before, roots, one.events,
        if one.terminal.Some? then Some(one.terminal.value.terminal) else None,
        if one.terminal.Some? then one.terminal.value.reason else None)
  }

  /** Ingress: cal.created, cal.signed; a refusal there is a result, not an error. */
  function Ingress(node: Config, w: Live, sub: Submission, ch: string, agent: string)
    : Result<(Live, SubmissionResult), NodeError>
  {
    var created, signed := CalCreated(ch, agent), CalSigned(ch);
    match Push(node, w, created)
    case Err(code) => Ok((w, SubmissionResult(ch, agent, None, None, [], [], Some(code))))
    case Ok(w1) =>
      match Push(node, w1, signed)
      case Err(code) => Ok((w1, SubmissionResult(ch, agent, None, None, [created], [node.root(w1.state)], Some(code))))
      case Ok(w2) => Judge(node, w2, sub, ch, agent, [created, signed], [node.root(w1.state), node.root(w2.state)])
  }

  function Submit(node: Config, w: Live, sub: Submission): Result<(Live, SubmissionResult), NodeError> {
    hide *;
    if !sub.cal.Obj? then Err(NOT_OBJECT)
    else
      var ch := CalHash(node, sub.cal);
      match Gas.AgentId(sub.cal)
      case None => Err(BAD_CAL)
      case Some(agent) =>
        if sub.mode.Resume? then Judge(node, w, sub, ch, agent, [], []) else Ingress(node, w, sub, ch, agent)
  }

  function SubmitAll(node: Config, w: Live, subs: seq<Submission>): Result<(Live, seq<SubmissionResult>), NodeError> {
    hide Submit;
    if subs == [] then Ok((w, []))
    else
      var n := |subs| - 1;
      var (w1, results) :- SubmitAll(node, w, subs[..n]);
      var (w2, result) :- Submit(node, w1, subs[n]);
      Ok((w2, results + [result]))
  }

  // --- one tick, and a program of ticks ---

  function EventsOf(results: seq<SubmissionResult>): seq<Event> {
    if results == [] then [] else EventsOf(results[..|results| - 1]) + results[|results| - 1].events
  }

  function Advance(node: Config, w: Live, tick: nat): Result<(Live, seq<Event>), NodeError> {
    if tick < w.tick then Err(TICK_REGRESSION)
    else if tick == w.tick then Ok((w, []))
    else
      match Push(node, w, TickAdvanced(tick))
      case Err(code) => Err(TICK_REJECTED(code))
      case Ok(w1) => Ok((w1.(tick := tick), [TickAdvanced(tick)]))
  }

  datatype TickStep = TickStep(next: Live, result: TickResult, events: seq<Event>)

  function ApplyTick(node: Config, w: Live, block: TickBlock): Result<TickStep, NodeError> {
    hide Submit; hide Advance; hide GlobalRoot;
    var (w1, advanced) :- Advance(node, w, block.tick);
    var (w2, results) :- SubmitAll(node, w1, block.submissions);
    Ok(TickStep(w2,
      TickResult(w2.tick, results, node.root(w2.state), GlobalRoot(node, w2.state, w2.eventCount, w2.lastEventHash)),
      advanced + EventsOf(results)))
  }

  function Init(genesis: Json): Live {
    Live(genesis, NatOf(GetIn(genesis, TICK)), 0, ZERO32)
  }

  datatype Progress = Progress(live: Live, ticks: seq<TickResult>, log: seq<Event>)

  function RunBlocks(node: Config, start: Live, blocks: seq<TickBlock>): Result<Progress, NodeError> {
    hide ApplyTick;
    if blocks == [] then Ok(Progress(start, [], []))
    else
      var n := |blocks| - 1;
      var p :- RunBlocks(node, start, blocks[..n]);
      var step :- ApplyTick(node, p.live, blocks[n]);
      Ok(Progress(step.next, p.ticks + [step.result], p.log + step.events))
  }

  datatype Transcript = Transcript(genesis: Json, ticks: seq<TickResult>, eventLog: seq<Event>,
    finalStateRoot: Merkle.Digest)

  function Run(node: Config, genesis: Json, blocks: seq<TickBlock>): Result<Transcript, NodeError> {
    hide ApplyTick; hide Init;
    var p :- RunBlocks(node, Init(genesis), blocks);
    Ok(Transcript(genesis, p.ticks, p.log, node.root(p.live.state)))
  }

  // --- the loops of the node ---

  lemma {:induction false} PushFails(node: Config, w: Live, evs: seq<Event>, k: nat)
    requires hide *; k <= |evs| && PushAll(node, w, evs[..k]).Err?
    ensures PushAll(node, w, evs) == PushAll(node, w, evs[..k])
    decreases |evs|
  {
    if k < |evs| {
      assert evs[..|evs| - 1][..k] == evs[..k];
      PushFails(node, w, evs[..|evs| - 1], k);
    } else {
      assert evs[..k] == evs;
    }
  }

  method FoldEvents(node: Config, start: Live, evs: seq<Event>) returns (r: Result<(Live, seq<Merkle.Digest>), Code>)
    ensures r == PushAll(node, start, evs)
  {
    hide Apply;
    var w := start;
    var roots: seq<Merkle.Digest> := [];
    for i := 0 to |evs|
      invariant PushAll(node, start, evs[..i]) == Ok((w, roots))
    {
      assert evs[..i + 1][..i] == evs[..i];
      match PortApply(node.port, w.state, evs[i]) {
        case Err(code) =>
          PushFails(node, start, evs, i + 1);
          return Err(code);
        case Ok(s) =>
          w := Live(s, w.tick, w.eventCount + 1, node.eventHash(evs[i]));
          roots := roots + [node.root(s)];
      }
    }
    assert evs[..|evs|] == evs;
    return Ok((w, roots));
  }

  lemma {:induction false} SubmitFails(node: Config, w: Live, subs: seq<Submission>, k: nat)
    requires hide *; k <= |subs| && SubmitAll(node, w, subs[..k]).Err?
    ensures SubmitAll(node, w, subs) == SubmitAll(node, w, subs[..k])
    decreases |subs|
  {
    hide Submit;
    if k < |subs| {
      assert subs[..|subs| - 1][..k] == subs[..k];
      SubmitFails(node, w, subs[..|subs| - 1], k);
    } else {
      assert subs[..k] == subs;
    }
  }

  lemma SubmitStep(node: Config, w: Live, subs: seq<Submission>, i: nat)
    requires hide *; i < |subs| && SubmitAll(node, w, subs[..i]).Ok?
    ensures var (w1, results) := SubmitAll(node, w, subs[..i]).value;
      SubmitAll(node, w, subs[..i + 1]) ==
        match Submit(node, w1, subs[i]) case Err(e) => Err(e) case Ok((w2, result)) => Ok((w2, results + [result]))
  {
    hide Submit;
    assert subs[..i + 1][..i] == subs[..i];
  }

  lemma EventsPush(results: seq<SubmissionResult>, result: SubmissionResult)
    ensures EventsOf(results + [result]) == EventsOf(results) + result.events
  {
    assert (results + [result])[..|results|] == results;
  }

  /** The submissions of a block in order, their events collected on the way. */
  method SubmitLoop(node: Config, start: Live, subs: seq<Submission>)
    returns (r: Result<(Live, seq<SubmissionResult>), NodeError>, events: seq<Event>)
    ensures hide *; r == SubmitAll(node, start, subs)
    ensures r.Ok? ==> events == EventsOf(r.value.1)
  {
    hide Submit; hide EventsOf;
    var w := start;
    var results: seq<SubmissionResult> := [];
    events := [];
    assert EventsOf([]) == [] by { NoEvents(); }
    for i := 0 to |subs|
      invariant SubmitAll(node, start, subs[..i]) == Ok((w, results))
      invariant events == EventsOf(results)
    {
      SubmitStep(node, start, subs, i);
      match Submit(node, w, subs[i]) {
        case Err(e) =>
          SubmitFails(node, start, subs, i + 1);
          return Err(e), events;
        case Ok((w1, result)) =>
          EventsPush(results, result);
          events := events + result.events;
          w, results := w1, results + [result];
      }
    }
    assert subs[..|subs|] == subs;
    return Ok((w, results)), events;
  }

  lemma NoEvents()
    ensures EventsOf([]) == []
  {
  }

  /** One tick block: the tick first, then the submissions. */
  method TickLoop(node: Config, live: Live, block: TickBlock) returns (r: Result<TickStep, NodeError>)
    ensures r == ApplyTick(node, live, block)
  {
    hide Submit; hide Apply; hide GlobalRoot; hide SubmitAll; hide EventsOf;
    if block.tick < live.tick {
      return Err(TICK_REGRESSION);
    }
    var w := live;
    var advanced: seq<Event> := [];
    if block.tick > w.tick {
      match Push(node, w, TickAdvanced(block.tick)) {
        case Err(code) => return Err(TICK_REJECTED(code));
        case Ok(w1) => w := w1.(tick := block.tick);
      }
      advanced := [TickAdvanced(block.tick)];
    }
    var submitted, events := SubmitLoop(node, w, block.submissions);
    match submitted {
      case Err(e) => return Err(e);
      case Ok((w2, results)) =>
        var global := GlobalRoot(node, w2.state, w2.eventCount, w2.lastEventHash);
        return Ok(TickStep(w2, TickResult(w2.tick, results, node.root(w2.state), global), advanced + events));
    }
  }

  lemma {:induction false} RunFails(node: Config, start: Live, blocks: seq<TickBlock>, k: nat)
    requires hide *; k <= |blocks| && RunBlocks(node, start, blocks[..k]).Err?
    ensures RunBlocks(node, start, blocks) == RunBlocks(node, start, blocks[..k])
    decreases |blocks|
  {
    hide ApplyTick;
    if k < |blocks| {
      assert blocks[..|blocks| - 1][..k] == blocks[..k];
      RunFails(node, start, blocks[..|blocks| - 1], k);
    } else {
      assert blocks[..k] == blocks;
    }
  }

  method RunLoop(node: Config, genesis: Json, blocks: seq<TickBlock>) returns (r: Result<Transcript, NodeError>)
    ensures r == Run(node, genesis, blocks)
  {
    hide ApplyTick; hide Init;
    var live := Init(genesis);
    var ticks: seq<TickResult> := [];
    var log: seq<Event> := [];
    for i := 0 to |blocks|
      invariant RunBlocks(node, Init(genesis), blocks[..i]) == Ok(Progress(live, ticks, log))
    {
      assert blocks[..i + 1][..i] == blocks[..i];
      var step := TickLoop(node, live, blocks[i]);
      match step {
        case Err(e) =>
          RunFails(node, Init(genesis), blocks, i + 1);
          return Err(e);
        case Ok(s) =>
          live, ticks, log := s.next, ticks + [s.result], log + s.events;
      }
    }
    assert blocks[..|blocks|] == blocks;
    return Ok(Transcript(genesis, ticks, log, node.root(live.state)));
  }
}
