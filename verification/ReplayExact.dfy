/** Exactly which runs pass the replay check: those whose blocks all appended an event. A state never
    comes back along a log, so anything else would be a collision of the hash. */
module ReplayExact {
  import opened Wrappers
  import opened JsonTree
  import opened Events
  import opened Reducer
  import opened Ports
  import opened Ledgers
  import opened LedgerStep
  import opened Runs
  import opened Node
  import opened NodeLog
  import opened Replay
  import Acceptance
  import Gas
  import LogClock
  import Merkle
  import NodeSafety
  import V = Validator

  ghost predicate AllAppend(node: Config, genesis: Json, blocks: seq<TickBlock>) {
    hide *;
    forall k :: 0 <= k < |blocks| ==> Appends(node, genesis, blocks, k)
  }

  // --- when a block appends ---

  lemma BlockSplit(node: Config, genesis: Json, blocks: seq<TickBlock>, k: nat)
    requires hide *; RunBlocks(node, Init(genesis), blocks).Ok? && k < |blocks|
    ensures RunBlocks(node, Init(genesis), blocks[..k]).Ok?
    ensures var p, q := RunBlocks(node, Init(genesis), blocks).value, RunBlocks(node, Init(genesis), blocks[..k]).value;
      var r := ApplyTick(node, q.live, blocks[k]);
      && r.Ok? && |p.ticks| == |blocks| && p.ticks[k] == r.value.result
      && LogLength(node, genesis, blocks, k) == |q.log|
      && LogLength(node, genesis, blocks, k + 1) == |q.log| + |r.value.events| <= |p.log|
      && p.log[..|q.log| + |r.value.events|] == q.log + r.value.events
  {
    hide ApplyTick; hide Init;
    RunPrefix(node, Init(genesis), blocks, k);
    RunPrefix(node, Init(genesis), blocks, k + 1);
    assert blocks[..k + 1][..k] == blocks[..k];
    RunPrefix(node, Init(genesis), blocks[..k], k);
    var p, q1 := RunBlocks(node, Init(genesis), blocks).value, RunBlocks(node, Init(genesis), blocks[..k + 1]).value;
    RunPrefix(node, Init(genesis), blocks[..k + 1], k + 1);
    assert q1.ticks[k] == p.ticks[..|q1.ticks|][k];
  }

  /** The TypeScript port only counts an object as an entry. */
  predicate InFlight(port: Port, s: Json, ch: string) {
    var h := GetIn(s, IN_FLIGHT + [ch]);
    h.Some? && (port.TypeScript? ==> h.value.Obj?)
  }

  /** The submission is not refused at ingress: it resumes, or its CAL is not in flight and its agent is idle. */
  predicate Enters(node: Config, w: Live, sub: Submission) {
    && sub.cal.Obj? && Gas.AgentId(sub.cal).Some?
    && (sub.mode.Resume? ||
        (!InFlight(node.port, w.state, CalHash(node, sub.cal)) && !AgentBusy(w.state, Gas.AgentId(sub.cal).value)))
  }

  lemma CreatedEnters(node: Config, w: Live, ch: string, agent: string)
    ensures Push(node, w, CalCreated(ch, agent)).Ok? <==>
      !InFlight(node.port, w.state, ch) && !AgentBusy(w.state, agent)
  {
    hide GetIn; hide SetIn; hide Entry; hide AgentBusy; hide IN_FLIGHT;
  }

  lemma ResumeRecords(cal: Json, ch: string, s: Json, trace: V.Trace)
    requires hide *; V.ResumeFromValidated(cal, ch, s, trace).Ok?
    ensures V.ResumeFromValidated(cal, ch, s, trace).value.events != []
  {
    hide *;
    var c := V.BuildContext(cal, ch, s, trace);
    ResumeIs(cal, ch, s, trace);
    Acceptance.PhaseBShape(c, []);
    var v := V.PhaseB(c, []).value;
    assert v.events[0..] == v.events;
    NodeSafety.TailKinds(c, v.events, v);
  }

  lemma JudgeRecords(node: Config, w: Live, sub: Submission, ch: string, agent: string, before: seq<Event>,
      roots: seq<Merkle.Digest>)
    requires hide *; Judge(node, w, sub, ch, agent, before, roots).Ok? && (before != [] || sub.mode.Resume?)
    ensures Judge(node, w, sub, ch, agent, before, roots).value.1.events != []
  {
    hide Drive; hide V.Validate; hide V.ResumeFromValidated; hide V.ValidateToValidated;
    var trace := sub.trace.(currentTick := w.tick);
    match sub.mode {
      case Atomic =>
        var v := V.Validate(sub.cal, ch, w.state, trace).value;
        DriveEvents(node, w, ch, agent, before, roots, v.events, Some(v.terminal), v.reason);
      case Resume =>
        var v := V.ResumeFromValidated(sub.cal, ch, w.state, trace).value;
        ResumeRecords(sub.cal, ch, w.state, trace);
        DriveEvents(node, w, ch, agent, before, roots, v.events, Some(v.terminal), v.reason);
      case ValidateOnly =>
        var one := V.ValidateToValidated(sub.cal, ch, w.state, trace).value;
        var t := one.terminal;
        DriveEvents(node, w, ch, agent, before, roots, one.events,
          if t.Some? then Some(t.value.terminal) else None, if t.Some? then t.value.reason else None);
    }
  }

  lemma IngressRecords(node: Config, w: Live, sub: Submission, ch: string, agent: string)
    requires hide *; Ingress(node, w, sub, ch, agent).Ok?
    ensures var (w1, result) := Ingress(node, w, sub, ch, agent).value;
      if Push(node, w, CalCreated(ch, agent)).Ok? then result.events != [] else result.events == [] && w1 == w
  {
    hide Push; hide Judge;
    var created, signed := CalCreated(ch, agent), CalSigned(ch);
    if Push(node, w, created).Ok? {
      var w1 := Push(node, w, created).value;
      if Push(node, w1, signed).Ok? {
        var w2 := Push(node, w1, signed).value;
        JudgeRecords(node, w2, sub, ch, agent, [created, signed], [node.root(w1.state), node.root(w2.state)]);
      }
    }
  }

  /** A submission that enters records an event, and one that does not changes nothing. */
  lemma SubmitRecords(node: Config, w: Live, sub: Submission)
    requires hide *; Submit(node, w, sub).Ok?
    ensures var (w1, result) := Submit(node, w, sub).value;
      if Enters(node, w, sub) then result.events != [] else result.events == [] && w1 == w
  {
    hide Ingress; hide Judge; hide CalHash; hide Gas.AgentId; hide GetIn; hide AgentBusy; hide IN_FLIGHT;
    var ch, agent := CalHash(node, sub.cal), Gas.AgentId(sub.cal).value;
    if sub.mode.Resume? {
      JudgeRecords(node, w, sub, ch, agent, [], []);
    } else {
      IngressRecords(node, w, sub, ch, agent);
      CreatedEnters(node, w, ch, agent);
    }
  }

  ghost predicate SomeEnters(node: Config, w: Live, subs: seq<Submission>) {
    exists i :: 0 <= i < |subs| && Enters(node, w, subs[i])
  }

  lemma SomePush(node: Config, w: Live, subs: seq<Submission>)
    requires subs != []
    ensures SomeEnters(node, w, subs) <==> SomeEnters(node, w, subs[..|subs| - 1]) || Enters(node, w, subs[|subs| - 1])
  {
    hide Enters;
    var n := |subs| - 1;
    if i :| 0 <= i < n && Enters(node, w, subs[..n][i]) { assert Enters(node, w, subs[i]); }
    if i :| 0 <= i < |subs| && Enters(node, w, subs[i]) {
      if i < n { assert Enters(node, w, subs[..n][i]); }
    }
  }

  /** The submissions of a block record something exactly when one of them would enter at its start. */
  lemma {:induction false} SubmitAllRecords(node: Config, w: Live, subs: seq<Submission>)
    requires hide *; SubmitAll(node, w, subs).Ok?
    ensures var (w1, results) := SubmitAll(node, w, subs).value;
      if SomeEnters(node, w, subs) then EventsOf(results) != [] else EventsOf(results) == [] && w1 == w
    decreases |subs|
  {
    hide Submit; hide Enters; hide EventsOf; hide SomeEnters;
    NoEvents();
    if subs != [] {
      var n := |subs| - 1;
      SubmitAllRecords(node, w, subs[..n]);
      SomePush(node, w, subs);
      var (w1, results) := SubmitAll(node, w, subs[..n]).value;
      SubmitRecords(node, w1, subs[n]);
      EventsPush(results, Submit(node, w1, subs[n]).value.1);
    } else {
      NoneEnters(node, w);
    }
  }

  lemma NoneEnters(node: Config, w: Live)
    ensures !SomeEnters(node, w, [])
  {
  }

  lemma TickAppends(node: Config, w: Live, block: TickBlock)
    requires hide *; ApplyTick(node, w, block).Ok?
    ensures ApplyTick(node, w, block).value.events != [] <==>
      block.tick > w.tick || SomeEnters(node, w, block.submissions)
  {
    hide Push; hide SubmitAll; hide EventsOf; hide GlobalRoot; hide SomeEnters;
    if block.tick <= w.tick { SubmitAllRecords(node, w, block.submissions); }
  }

  /** A block appends exactly when its tick is later than that of the block before it, or of genesis,
      or one of its submissions enters at the state before the block. */
  lemma AppendsExactly(node: Config, genesis: Json, blocks: seq<TickBlock>, k: nat)
    requires hide *; RunBlocks(node, Init(genesis), blocks).Ok? && k < |blocks|
    ensures RunBlocks(node, Init(genesis), blocks[..k]).Ok?
    ensures Appends(node, genesis, blocks, k) <==>
      || Advances(genesis, blocks, k)
      || SomeEnters(node, RunBlocks(node, Init(genesis), blocks[..k]).value.live, blocks[k].submissions)
  {
    hide ApplyTick; hide RunBlocks; hide Init; hide StateAt; hide LogRoot; hide Consistent; hide SomeEnters;
    hide LogLength;
    BlockSplit(node, genesis, blocks, k);
    RunFolds(node, genesis, blocks[..k]);
    EmptyRun(node, Init(genesis));
    var q := RunBlocks(node, Init(genesis), blocks[..k]).value;
    TickAppends(node, q.live, blocks[k]);
    if k == 0 { assert blocks[..0] == []; } else { assert blocks[..k][k - 1] == blocks[k - 1]; }
  }

  lemma EmptyRun(node: Config, start: Live)
    ensures RunBlocks(node, start, []) == Ok(Progress(start, [], []))
  {
    hide ApplyTick;
  }

  // --- a run that verifies although some block appended nothing ---

  /** The checkpoint of block k is the root of the log up to its end. */
  lemma BlockRoot(node: Config, genesis: Json, blocks: seq<TickBlock>, k: nat)
    requires hide *; RunBlocks(node, Init(genesis), blocks).Ok? && k < |blocks|
    ensures var p, n := RunBlocks(node, Init(genesis), blocks).value, LogLength(node, genesis, blocks, k + 1);
      && LogLength(node, genesis, blocks, k) <= n <= |p.log| && |p.ticks| == |blocks|
      && p.ticks[k].stateRoot == node.root(StateAt(node, genesis, p.log[..n]))
  {
    hide ApplyTick; hide RunBlocks; hide Init; hide StateAt; hide LogRoot; hide Consistent; hide LogLength;
    BlockSplit(node, genesis, blocks, k);
    RunFolds(node, genesis, blocks[..k]);
    TickFolds(node, genesis, RunBlocks(node, Init(genesis), blocks[..k]).value.log,
      RunBlocks(node, Init(genesis), blocks[..k]).value.live, blocks[k]);
  }

  /** Two different prefixes of the log with one root. */
  predicate Repeats(node: Config, genesis: Json, log: seq<Event>, i: nat, j: nat) {
    hide *;
    i < j <= |log| && node.root(StateAt(node, genesis, log[..i])) == node.root(StateAt(node, genesis, log[..j]))
  }

  lemma FirstIsEmpty(node: Config, genesis: Json, blocks: seq<TickBlock>)
    ensures hide *; LogLength(node, genesis, blocks, 0) == 0
  {
    hide ApplyTick; hide Init;
    assert blocks[..0] == [];
  }

  /** Where the greedy scan finds the checkpoint of block k: the same root as at its end. */
  lemma FoundAt(node: Config, genesis: Json, blocks: seq<TickBlock>, idx: seq<nat>, k: nat)
    requires hide *; RunBlocks(node, Init(genesis), blocks).Ok? && k < |blocks|
    requires var p := RunBlocks(node, Init(genesis), blocks).value;
      Embeds(ScanRoots(node, genesis, p.log).roots, 0, Checkpoints(p.ticks), idx)
    ensures |idx| == |blocks|
    ensures var p, n := RunBlocks(node, Init(genesis), blocks).value, LogLength(node, genesis, blocks, k + 1);
      && idx[k] + 1 <= |p.log| && n <= |p.log|
      && node.root(StateAt(node, genesis, p.log[..idx[k] + 1])) == node.root(StateAt(node, genesis, p.log[..n]))
  {
    hide RunBlocks; hide Init; hide StateAt; hide ScanRoots; hide LogLength;
    RunScanned(node, genesis, blocks);
    BlockRoot(node, genesis, blocks, k);
  }

  lemma PickRepeat(node: Config, genesis: Json, log: seq<Event>, a: nat, b: nat) returns (i: nat, j: nat)
    requires hide *; a <= |log| && b <= |log| && a != b
    requires node.root(StateAt(node, genesis, log[..a])) == node.root(StateAt(node, genesis, log[..b]))
    ensures Repeats(node, genesis, log, i, j)
  {
    hide StateAt;
    i, j := if a < b then a else b, if a < b then b else a;
  }

  lemma VerifiedRepeats(node: Config, genesis: Json, blocks: seq<TickBlock>, k: nat) returns (i: nat, j: nat)
    requires hide ApplyTick; hide Init; hide ScanRoots; hide StateAt;
      Run(node, genesis, blocks).Ok? && VerifyReplay(node, Run(node, genesis, blocks).value)
    requires k < |blocks| && !Appends(node, genesis, blocks, k)
    ensures Repeats(node, genesis, RunBlocks(node, Init(genesis), blocks).value.log, i, j)
  {
    hide RunBlocks; hide Init; hide StateAt; hide ScanRoots; hide LogLength; hide Repeats; hide Greedy;
    hide Checkpoints;
    var p := RunBlocks(node, Init(genesis), blocks).value;
    var idx := GreedySound(ScanRoots(node, genesis, p.log).roots, 0, Checkpoints(p.ticks));
    FoundAt(node, genesis, blocks, idx, k);
    BlockRoot(node, genesis, blocks, k);
    FirstIsEmpty(node, genesis, blocks);
    var n := LogLength(node, genesis, blocks, k + 1);
    if idx[k] + 1 != n {
      i, j := PickRepeat(node, genesis, p.log, idx[k] + 1, n);
    } else {
      assert k > 0;
      FoundAt(node, genesis, blocks, idx, k - 1);
      assert idx[k - 1] < idx[k] by {
        EmbedsAscends(ScanRoots(node, genesis, p.log).roots, Checkpoints(p.ticks), idx, k - 1, k);
      }
      i, j := PickRepeat(node, genesis, p.log, idx[k - 1] + 1, LogLength(node, genesis, blocks, k));
    }
  }

  lemma EmbedsAscends(roots: seq<Merkle.Digest>, checkpoints: seq<Merkle.Digest>, idx: seq<nat>, i: nat, k: nat)
    requires Embeds(roots, 0, checkpoints, idx) && i < k < |idx|
    ensures idx[i] < idx[k]
  {
  }

  /** Whatever the root function: a run passes the check exactly when every block appended an event,
      unless two prefixes of its log have one root. */
  lemma VerifiesUnlessRepeated(node: Config, genesis: Json, blocks: seq<TickBlock>) returns (i: nat, j: nat)
    requires hide ApplyTick; hide Init; hide ScanRoots; hide StateAt; Run(node, genesis, blocks).Ok?
    ensures (VerifyReplay(node, Run(node, genesis, blocks).value) <==> AllAppend(node, genesis, blocks))
      || Repeats(node, genesis, RunBlocks(node, Init(genesis), blocks).value.log, i, j)
  {
    hide VerifyReplay; hide RunBlocks; hide Init; hide Appends; hide Repeats;
    i, j := 0, 0;
    if AllAppend(node, genesis, blocks) {
      RunVerifies(node, genesis, blocks);
    } else if VerifyReplay(node, Run(node, genesis, blocks).value) {
      var k :| 0 <= k < |blocks| && !Appends(node, genesis, blocks, k);
      i, j := VerifiedRepeats(node, genesis, blocks, k);
    }
  }

  // --- no state comes back ---

  ghost predicate RootedAlong(node: Config, genesis: Json, log: seq<Event>) {
    hide *;
    forall i :: 0 <= i <= |log| ==> Rooted(node, StateAt(node, genesis, log[..i]))
  }

  lemma StateAtRust(node: Config, genesis: Json, l: Ledger, log: seq<Event>, i: nat)
    requires hide *; Represents(genesis, l) && Sound(l.flights) && node.port == Rust && NodeEvents(log) && i <= |log|
    requires Materialize(node.port, genesis, log).Ok?
    ensures Materialize(Rust, genesis, log[..i]) == Ok(StateAt(node, genesis, log[..i]))
  {
    hide Represents; hide Sound; hide SafeEvent; hide Kernel; hide Materialize;
    NodeEventsSafe(log);
    if Materialize(node.port, genesis, log[..i]).Err? { RejectedForGood(node.port, genesis, log, i); }
  }

  /** Two prefixes of a node's log with one root are a collision of the hash. */
  lemma RepeatCollides(node: Config, genesis: Json, l: Ledger, log: seq<Event>, i: nat, j: nat)
      returns (x: string, y: string)
    requires Represents(genesis, l) && Sound(l.flights) && node.port == Rust && NodeEvents(log)
    requires Materialize(node.port, genesis, log).Ok? && RootedAlong(node, genesis, log)
    requires Repeats(node, genesis, log, i, j)
    ensures Merkle.Collides(node.sha, x, y)
  {
    hide *;
    RepeatsUnfold(node, genesis, log, i, j);
    StateAtRust(node, genesis, l, log, i);
    StateAtRust(node, genesis, l, log, j);
    StateAtRust(node, genesis, l, log, |log|);
    assert log[..|log|] == log;
    LogClock.StatesDiffer(genesis, l, log, i, j);
    x, y := Merkle.StateBinds(node.sha, StateAt(node, genesis, log[..i]), StateAt(node, genesis, log[..j]));
  }

  lemma RepeatsUnfold(node: Config, genesis: Json, log: seq<Event>, i: nat, j: nat)
    requires hide *; Repeats(node, genesis, log, i, j) && RootedAlong(node, genesis, log)
    ensures i < j <= |log|
    ensures var s, t := StateAt(node, genesis, log[..i]), StateAt(node, genesis, log[..j]);
      Merkle.StateRootOf(node.sha, s).Ok? && Merkle.StateRootOf(node.sha, s) == Merkle.StateRootOf(node.sha, t)
  {
    hide StateAt; hide Merkle.StateRootOf;
    assert Rooted(node, StateAt(node, genesis, log[..i])) && Rooted(node, StateAt(node, genesis, log[..j]));
  }

  /** A run whose effects are safe passes the replay check exactly when every block appended an event,
      or the proof returns a collision of the hash. */
  lemma VerifiesExactly(node: Config, genesis: Json, l: Ledger, blocks: seq<TickBlock>) returns (x: string, y: string)
    requires hide ApplyTick; hide Init; hide ScanRoots; hide StateAt;
      Represents(genesis, l) && Sound(l.flights) && node.port == Rust && NodeSafety.SafeProgram(blocks)
    requires Run(node, genesis, blocks).Ok?
    requires RootedAlong(node, genesis, RunBlocks(node, Init(genesis), blocks).value.log)
    ensures (VerifyReplay(node, Run(node, genesis, blocks).value) <==> AllAppend(node, genesis, blocks))
      || Merkle.Collides(node.sha, x, y)
  {
    hide *;
    x, y := "", "";
    var i, j := VerifiesUnlessRepeated(node, genesis, blocks);
    RanBlocks(node, genesis, blocks);
    var log := RunBlocks(node, Init(genesis), blocks).value.log;
    RunFolds(node, genesis, blocks);
    RunEvents(node, Init(genesis), blocks);
    ConsistentFolds(node, genesis, log, RunBlocks(node, Init(genesis), blocks).value.live);
    if Repeats(node, genesis, log, i, j) {
      x, y := RepeatCollides(node, genesis, l, log, i, j);
    }
  }

  lemma RanBlocks(node: Config, genesis: Json, blocks: seq<TickBlock>)
    requires Run(node, genesis, blocks).Ok?
    ensures RunBlocks(node, Init(genesis), blocks).Ok?
  {
    hide RunBlocks; hide Init;
  }

  lemma ConsistentFolds(node: Config, genesis: Json, log: seq<Event>, w: Live)
    requires Consistent(node, genesis, log, w)
    ensures Materialize(node.port, genesis, log) == Ok(w.state)
  {
    hide Materialize;
  }
}
