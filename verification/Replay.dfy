/** What the node carries is what its log says: folding, roots, recovery and the replay check. */
module Replay {
  import opened Wrappers
  import opened JsonTree
  import opened Events
  import opened Reducer
  import opened Ports
  import opened Runs
  import opened Node
  import Gas
  import I256
  import Merkle
  import V = Validator

  /** The live state is the log folded from genesis, with its length and the hash of its end. */
  ghost predicate Consistent(node: Config, genesis: Json, log: seq<Event>, w: Live) {
    hide *;
    && Materialize(node.port, genesis, log) == Ok(w.state)
    && w.eventCount == |log|
    && (log != [] ==> w.lastEventHash == node.eventHash(log[|log| - 1]))
  }

  function StateAt(node: Config, genesis: Json, log: seq<Event>): Json {
    match Materialize(node.port, genesis, log) case Ok(s) => s case Err(_) => Null
  }

  /** roots are the roots after each of the events that follow log. */
  ghost predicate RootsAlong(node: Config, genesis: Json, log: seq<Event>, evs: seq<Event>, roots: seq<Merkle.Digest>) {
    hide *;
    |roots| == |evs| && forall i :: 0 <= i < |evs| ==> roots[i] == node.root(StateAt(node, genesis, log + evs[..i + 1]))
  }

  lemma RootsPush(node: Config, genesis: Json, log: seq<Event>, evs: seq<Event>, roots: seq<Merkle.Digest>, ev: Event)
    requires RootsAlong(node, genesis, log, evs, roots)
    ensures RootsAlong(node, genesis, log, evs + [ev], roots + [node.root(StateAt(node, genesis, log + evs + [ev]))])
  {
    hide StateAt;
    var all := roots + [node.root(StateAt(node, genesis, log + evs + [ev]))];
    forall i | 0 <= i < |evs| ensures all[i] == node.root(StateAt(node, genesis, log + (evs + [ev])[..i + 1])) {
      assert (evs + [ev])[..i + 1] == evs[..i + 1];
    }
    assert (evs + [ev])[..|evs| + 1] == evs + [ev];
    assert log + (evs + [ev]) == log + evs + [ev];
  }

  lemma RootsJoin(node: Config, genesis: Json, log: seq<Event>, a: seq<Event>, b: seq<Event>, ra: seq<Merkle.Digest>,
      rb: seq<Merkle.Digest>)
    requires RootsAlong(node, genesis, log, a, ra) && RootsAlong(node, genesis, log + a, b, rb)
    ensures RootsAlong(node, genesis, log, a + b, ra + rb)
  {
    hide StateAt;
    forall i | 0 <= i < |a + b| ensures (ra + rb)[i] == node.root(StateAt(node, genesis, log + (a + b)[..i + 1])) {
      if i < |a| {
        assert (a + b)[..i + 1] == a[..i + 1];
      } else {
        assert log + (a + b)[..i + 1] == log + a + b[..i - |a| + 1];
      }
    }
  }

  lemma PushFolds(node: Config, genesis: Json, log: seq<Event>, w: Live, ev: Event)
    requires hide *; Consistent(node, genesis, log, w)
    ensures var r := Push(node, w, ev);
      r.Ok? ==>
        && Consistent(node, genesis, log + [ev], r.value) && r.value.tick == w.tick
        && StateAt(node, genesis, log + [ev]) == r.value.state
  {
    hide Apply;
    assert (log + [ev])[..|log|] == log;
  }

  lemma {:induction false} PushAllFolds(node: Config, genesis: Json, log: seq<Event>, w: Live, evs: seq<Event>)
    requires hide *; Consistent(node, genesis, log, w)
    ensures var r := PushAll(node, w, evs);
      r.Ok? ==>
        && Consistent(node, genesis, log + evs, r.value.0) && r.value.0.tick == w.tick
        && RootsAlong(node, genesis, log, evs, r.value.1)
    decreases |evs|
  {
    hide Apply; hide Consistent; hide Push; hide StateAt; hide RootsAlong;
    if evs == [] {
      assert log + evs == log;
      NoRoots(node, genesis, log);
    } else if PushAll(node, w, evs).Ok? {
      var n := |evs| - 1;
      PushAllFolds(node, genesis, log, w, evs[..n]);
      var (w1, roots) := PushAll(node, w, evs[..n]).value;
      PushFolds(node, genesis, log + evs[..n], w1, evs[n]);
      RootsPush(node, genesis, log, evs[..n], roots, evs[n]);
      assert evs[..n] + [evs[n]] == evs && log + evs[..n] + [evs[n]] == log + evs;
    }
  }

  lemma NoRoots(node: Config, genesis: Json, log: seq<Event>)
    ensures RootsAlong(node, genesis, log, [], [])
  {
  }

  // --- one submission, one tick, one run ---

  lemma DriveFolds(node: Config, genesis: Json, log: seq<Event>, w: Live, ch: string, agent: string, before: seq<Event>,
    roots: seq<Merkle.Digest>, events: seq<Event>, terminal: Option<V.Terminal>, reason: Option<V.Reason>)
    requires hide *; Consistent(node, genesis, log + before, w) && RootsAlong(node, genesis, log, before, roots)
    ensures var r := Drive(node, w, ch, agent, before, roots, events, terminal, reason);
      r.Ok? ==>
        && r.value.1.events == before + events
        && Consistent(node, genesis, log + r.value.1.events, r.value.0) && r.value.0.tick == w.tick
        && RootsAlong(node, genesis, log, r.value.1.events, r.value.1.roots)
  {
    hide PushAll; hide Consistent; hide RootsAlong;
    PushAllFolds(node, genesis, log + before, w, events);
    var r := PushAll(node, w, events);
    if r.Ok? {
      RootsJoin(node, genesis, log, before, events, roots, r.value.1);
      assert log + before + events == log + (before + events);
    }
  }

  lemma JudgeFolds(node: Config, genesis: Json, log: seq<Event>, w: Live, sub: Submission, ch: string, agent: string,
    before: seq<Event>, roots: seq<Merkle.Digest>)
    requires hide *; Consistent(node, genesis, log + before, w) && RootsAlong(node, genesis, log, before, roots)
    ensures var r := Judge(node, w, sub, ch, agent, before, roots);
      r.Ok? ==>
        && Consistent(node, genesis, log + r.value.1.events, r.value.0) && r.value.0.tick == w.tick
        && RootsAlong(node, genesis, log, r.value.1.events, r.value.1.roots)
  {
    hide Drive; hide Consistent; hide RootsAlong; hide V.Validate; hide V.ResumeFromValidated;
    hide V.ValidateToValidated;
    var trace := sub.trace.(currentTick := w.tick);
    match sub.mode {
      case Atomic =>
        var v := V.Validate(sub.cal, ch, w.state, trace);
        if v.Ok? {
          DriveFolds(node, genesis, log, w, ch, agent, before, roots, v.value.events, Some(v.value.terminal),
            v.value.reason);
        }
      case Resume =>
        var v := V.ResumeFromValidated(sub.cal, ch, w.state, trace);
        if v.Ok? {
          DriveFolds(node, genesis, log, w, ch, agent, before, roots, v.value.events, Some(v.value.terminal),
            v.value.reason);
        }
      case ValidateOnly =>
        var one := V.ValidateToValidated(sub.cal, ch, w.state, trace);
        if one.Ok? {
          var t := one.value.terminal;
          DriveFolds(node, genesis, log, w, ch, agent, before, roots, one.value.events,
            if t.Some? then Some(t.value.terminal) else None, if t.Some? then t.value.reason else None);
        }
    }
  }

  lemma OneRoot(node: Config, genesis: Json, log: seq<Event>, ev: Event)
    ensures RootsAlong(node, genesis, log, [ev], [node.root(StateAt(node, genesis, log + [ev]))])
  {
    hide StateAt;
    assert [ev][..1] == [ev];
  }

  lemma IngressFolds(node: Config, genesis: Json, log: seq<Event>, w: Live, sub: Submission, ch: string, agent: string)
    requires hide *; Consistent(node, genesis, log, w)
    ensures var r := Ingress(node, w, sub, ch, agent);
      r.Ok? ==>
        && Consistent(node, genesis, log + r.value.1.events, r.value.0) && r.value.0.tick == w.tick
        && RootsAlong(node, genesis, log, r.value.1.events, r.value.1.roots)
  {
    hide Push; hide Judge; hide Consistent; hide RootsAlong; hide StateAt;
    var created, signed := CalCreated(ch, agent), CalSigned(ch);
    assert log + [] == log;
    NoRoots(node, genesis, log);
    PushFolds(node, genesis, log, w, created);
    if Push(node, w, created).Ok? {
      var w1 := Push(node, w, created).value;
      OneRoot(node, genesis, log, created);
      PushFolds(node, genesis, log + [created], w1, signed);
      if Push(node, w1, signed).Ok? {
        var w2 := Push(node, w1, signed).value;
        RootsPush(node, genesis, log, [created], [node.root(w1.state)], signed);
        assert [created] + [signed] == [created, signed] && log + [created] + [signed] == log + [created, signed];
        assert [node.root(w1.state)] + [node.root(w2.state)] == [node.root(w1.state), node.root(w2.state)];
        JudgeFolds(node, genesis, log, w2, sub, ch, agent, [created, signed],
          [node.root(w1.state), node.root(w2.state)]);
      }
    }
  }

  /** A submission appends exactly its events, and records the root after each of them. */
  lemma SubmitFolds(node: Config, genesis: Json, log: seq<Event>, w: Live, sub: Submission)
    requires hide *; Consistent(node, genesis, log, w)
    ensures var r := Submit(node, w, sub);
      r.Ok? ==>
        && Consistent(node, genesis, log + r.value.1.events, r.value.0) && r.value.0.tick == w.tick
        && RootsAlong(node, genesis, log, r.value.1.events, r.value.1.roots)
  {
    hide Ingress; hide Judge; hide Consistent; hide RootsAlong; hide CalHash;
    if sub.cal.Obj? && Submit(node, w, sub).Ok? {
      var ch, agent := CalHash(node, sub.cal), Submit(node, w, sub).value.1.agent;
      assert log + [] == log;
      NoRoots(node, genesis, log);
      if Gas.AgentId(sub.cal).Some? {
        IngressFolds(node, genesis, log, w, sub, ch, Gas.AgentId(sub.cal).value);
        JudgeFolds(node, genesis, log, w, sub, ch, Gas.AgentId(sub.cal).value, [], []);
      }
    }
  }

  lemma {:induction false} SubmitAllFolds(node: Config, genesis: Json, log: seq<Event>, w: Live, subs: seq<Submission>)
    requires hide *; Consistent(node, genesis, log, w)
    ensures var r := SubmitAll(node, w, subs);
      r.Ok? ==> Consistent(node, genesis, log + EventsOf(r.value.1), r.value.0) && r.value.0.tick == w.tick
    decreases |subs|
  {
    hide Submit; hide Consistent; hide RootsAlong; hide EventsOf;
    NoEvents();
    assert log + [] == log;
    if subs != [] && SubmitAll(node, w, subs).Ok? {
      var n := |subs| - 1;
      SubmitAllFolds(node, genesis, log, w, subs[..n]);
      var (w1, results) := SubmitAll(node, w, subs[..n]).value;
      SubmitFolds(node, genesis, log + EventsOf(results), w1, subs[n]);
      var result := Submit(node, w1, subs[n]).value.1;
      EventsPush(results, result);
      assert log + EventsOf(results) + result.events == log + (EventsOf(results) + result.events);
    }
  }

  lemma AdvanceFolds(node: Config, genesis: Json, log: seq<Event>, w: Live, tick: nat)
    requires hide *; Consistent(node, genesis, log, w)
    ensures var r := Advance(node, w, tick);
      r.Ok? ==>
        && Consistent(node, genesis, log + r.value.1, r.value.0) && r.value.0.tick == tick
        && (tick > w.tick <==> r.value.1 != [])
  {
    hide Push; hide Apply; hide Materialize;
    assert log + [] == log;
    PushFolds(node, genesis, log, w, TickAdvanced(tick));
  }

  /** The carried scalars give the root that the log gives. */
  lemma RootFromLog(node: Config, genesis: Json, log: seq<Event>, w: Live)
    requires Consistent(node, genesis, log, w)
    ensures GlobalRoot(node, w.state, w.eventCount, w.lastEventHash) == LogRoot(node, w.state, log)
    ensures StateAt(node, genesis, log) == w.state
  {
    hide Materialize;
  }

  /** One tick keeps the live state consistent with the log, and both of its roots are roots of the
      log: the carried-scalar global root is the one rebuilt from all events. */
  lemma TickFolds(node: Config, genesis: Json, log: seq<Event>, w: Live, block: TickBlock)
    requires hide *; Consistent(node, genesis, log, w)
    ensures var r := ApplyTick(node, w, block);
      r.Ok? ==>
        var (step, after) := (r.value, log + r.value.events);
        && Consistent(node, genesis, after, step.next) && step.next.tick == block.tick
        && step.result.stateRoot == node.root(StateAt(node, genesis, after))
        && step.result.globalRoot == LogRoot(node, StateAt(node, genesis, after), after)
        && (block.tick > w.tick ==> step.events != [])
  {
    hide Advance; hide SubmitAll; hide Consistent; hide EventsOf; hide GlobalRoot; hide LogRoot; hide StateAt;
    AdvanceFolds(node, genesis, log, w, block.tick);
    if ApplyTick(node, w, block).Ok? {
      var (w1, advanced) := Advance(node, w, block.tick).value;
      SubmitAllFolds(node, genesis, log + advanced, w1, block.submissions);
      var (w2, results) := SubmitAll(node, w1, block.submissions).value;
      assert log + advanced + EventsOf(results) == log + (advanced + EventsOf(results));
      RootFromLog(node, genesis, log + (advanced + EventsOf(results)), w2);
    }
  }

  lemma InitConsistent(node: Config, genesis: Json)
    ensures Consistent(node, genesis, [], Init(genesis))
  {
  }

  /** Throughout a run the live state is the fold of the log so far, with its length and last hash;
      every checkpoint is the root of some prefix of the log. */
  lemma {:induction false} RunFolds(node: Config, genesis: Json, blocks: seq<TickBlock>)
    requires hide *; RunBlocks(node, Init(genesis), blocks).Ok?
    ensures var p := RunBlocks(node, Init(genesis), blocks).value;
      && Consistent(node, genesis, p.log, p.live)
      && |p.ticks| == |blocks|
      && (blocks != [] ==> var last := p.ticks[|blocks| - 1];
          && p.live.tick == blocks[|blocks| - 1].tick
          && last.stateRoot == node.root(StateAt(node, genesis, p.log))
          && last.globalRoot == LogRoot(node, StateAt(node, genesis, p.log), p.log))
    decreases |blocks|
  {
    hide ApplyTick; hide Consistent; hide LogRoot; hide StateAt; hide Init;
    if blocks == [] {
      InitConsistent(node, genesis);
    } else {
      var n := |blocks| - 1;
      RunFolds(node, genesis, blocks[..n]);
      var p := RunBlocks(node, Init(genesis), blocks[..n]).value;
      TickFolds(node, genesis, p.log, p.live, blocks[n]);
    }
  }

  /** The same from any live state of a run on. */
  lemma {:induction false} RunFoldsFrom(node: Config, genesis: Json, log: seq<Event>, w: Live, blocks: seq<TickBlock>)
    requires hide *; Consistent(node, genesis, log, w) && RunBlocks(node, w, blocks).Ok?
    ensures var p := RunBlocks(node, w, blocks).value; Consistent(node, genesis, log + p.log, p.live)
    decreases |blocks|
  {
    hide ApplyTick; hide Consistent; hide LogRoot; hide StateAt;
    if blocks == [] {
      assert log + [] == log;
    } else {
      var n := |blocks| - 1;
      RunFoldsFrom(node, genesis, log, w, blocks[..n]);
      var p := RunBlocks(node, w, blocks[..n]).value;
      TickFolds(node, genesis, log + p.log, p.live, blocks[n]);
      var more := ApplyTick(node, p.live, blocks[n]).value.events;
      assert log + p.log + more == log + (p.log + more);
    }
  }

  /** The progress after the first k blocks: its log is a prefix, its ticks are a prefix. */
  lemma {:induction false} RunPrefix(node: Config, start: Live, blocks: seq<TickBlock>, k: nat)
    requires hide *; k <= |blocks| && RunBlocks(node, start, blocks).Ok?
    ensures RunBlocks(node, start, blocks[..k]).Ok?
    ensures var p, q := RunBlocks(node, start, blocks).value, RunBlocks(node, start, blocks[..k]).value;
      q.log <= p.log && q.ticks <= p.ticks && |p.ticks| == |blocks|
    decreases |blocks|
  {
    hide ApplyTick;
    if k < |blocks| {
      assert blocks[..|blocks| - 1][..k] == blocks[..k];
      RunPrefix(node, start, blocks[..|blocks| - 1], k);
    } else {
      assert blocks[..k] == blocks;
      if blocks != [] { RunPrefix(node, start, blocks[..|blocks| - 1], |blocks| - 1); }
    }
  }

  /** Recovery: a run resumed from the live state in the middle is the full run. */
  lemma {:induction false} RunSplit(node: Config, start: Live, a: seq<TickBlock>, b: seq<TickBlock>)
    requires hide *; RunBlocks(node, start, a).Ok?
    ensures var p := RunBlocks(node, start, a).value;
      match RunBlocks(node, p.live, b)
      case Err(e) => RunBlocks(node, start, a + b) == Err(e)
      case Ok(q) => RunBlocks(node, start, a + b) == Ok(Progress(q.live, p.ticks + q.ticks, p.log + q.log))
    decreases |b|
  {
    hide ApplyTick;
    if b == [] {
      assert a + b == a;
      var p := RunBlocks(node, start, a).value;
      assert p.ticks + [] == p.ticks && p.log + [] == p.log;
    } else {
      var n := |b| - 1;
      assert (a + b)[..|a + b| - 1] == a + b[..n] && (a + b)[|a + b| - 1] == b[n];
      RunSplit(node, start, a, b[..n]);
      var p := RunBlocks(node, start, a).value;
      var q := RunBlocks(node, p.live, b[..n]);
      if q.Ok? && ApplyTick(node, q.value.live, b[n]).Ok? {
        var step := ApplyTick(node, q.value.live, b[n]).value;
        assert p.ticks + q.value.ticks + [step.result] == p.ticks + (q.value.ticks + [step.result]);
        assert p.log + q.value.log + step.events == p.log + (q.value.log + step.events);
      }
    }
  }

  // --- the replay check ---

  /** REJECTED has the reducer's code and the index of the event, STATE_ROOT the index of the event
      whose state has no root. */
  datatype ScanError = REJECTED(code: Code, at: nat) | STATE_ROOT(at: nat)

  datatype Scan = Scan(roots: seq<Merkle.Digest>, error: Option<ScanError>)

  /** The root after each event, up to the first that is rejected or leaves a state without a root. */
  function Scanned(port: Port, root: Json -> Option<Merkle.Digest>, start: Json, log: seq<Event>): Scan {
    hide *;
    if log == [] then Scan([], None)
    else
      var n := |log| - 1;
      var before := Scanned(port, root, start, log[..n]);
      if before.error.Some? then before
      else
        match Materialize(port, start, log)
        case Err((code, _)) => Scan(before.roots, Some(REJECTED(code, n)))
        case Ok(s) =>
          match root(s)
          case None => Scan(before.roots, Some(STATE_ROOT(n)))
          case Some(r) => Scan(before.roots + [r], None)
  }

  lemma {:induction false} ScanStops(port: Port, root: Json -> Option<Merkle.Digest>, start: Json, log: seq<Event>,
      k: nat)
    requires hide *; k <= |log|
    ensures Scanned(port, root, start, log[..k]).error.Some? ==>
      Scanned(port, root, start, log) == Scanned(port, root, start, log[..k])
    decreases |log|
  {
    hide Apply; hide Materialize;
    if k < |log| {
      assert log[..|log| - 1][..k] == log[..k];
      ScanStops(port, root, start, log[..|log| - 1], k);
    } else {
      assert log[..k] == log;
    }
  }

  method ScanStateRoots(port: Port, root: Json -> Option<Merkle.Digest>, start: Json, log: seq<Event>)
    returns (scan: Scan)
    ensures scan == Scanned(port, root, start, log)
  {
    hide Apply;
    var state := start;
    var roots: seq<Merkle.Digest> := [];
    for i := 0 to |log|
      invariant Materialize(port, start, log[..i]) == Ok(state)
      invariant Scanned(port, root, start, log[..i]) == Scan(roots, None)
    {
      assert log[..i + 1][..i] == log[..i];
      match PortApply(port, state, log[i]) {
        case Err(code) =>
          ScanStops(port, root, start, log, i + 1);
          return Scan(roots, Some(REJECTED(code, i)));
        case Ok(s) =>
          state := s;
          match root(s) {
            case None =>
              ScanStops(port, root, start, log, i + 1);
              return Scan(roots, Some(STATE_ROOT(i)));
            case Some(r) =>
              roots := roots + [r];
          }
      }
    }
    assert log[..|log|] == log;
    return Scan(roots, None);
  }

  /** The log folds to a state with this root, or without one. */
  predicate FoldsTo(port: Port, root: Json -> Option<Merkle.Digest>, start: Json, log: seq<Event>,
      r: Option<Merkle.Digest>) {
    hide *;
    Materialize(port, start, log).Ok? && root(Materialize(port, start, log).value) == r
  }

  lemma RejectedLast(port: Port, start: Json, log: seq<Event>)
    requires hide *; log != [] && Materialize(port, start, log[..|log| - 1]).Ok?
    ensures Materialize(port, start, log).Err? ==> Materialize(port, start, log).error.1 == |log| - 1
  {
    hide Apply;
  }

  /** The root of the state after each event whose root was taken, and why there are no more: the log has
      ended, the reducer rejects the next event, or the state after it has no root. */
  lemma {:induction false} ScanExactly(port: Port, root: Json -> Option<Merkle.Digest>, start: Json, log: seq<Event>)
    ensures hide *; var scan := Scanned(port, root, start, log);
      var n := |scan.roots|;
      && n <= |log|
      && (forall i :: 0 <= i < n ==> FoldsTo(port, root, start, log[..i + 1], Some(scan.roots[i])))
      && match scan.error
         case None => n == |log|
         case Some(STATE_ROOT(i)) => i == n < |log| && FoldsTo(port, root, start, log[..i + 1], None)
         case Some(REJECTED(code, i)) =>
           i == n < |log| && Materialize(port, start, log[..i]).Ok? &&
           Materialize(port, start, log[..i + 1]) == Err((code, i))
    decreases |log|
  {
    hide Materialize; hide FoldsTo; hide Scanned;
    ScanEmpty(port, root, start);
    if log != [] {
      var n := |log| - 1;
      var before := Scanned(port, root, start, log[..n]);
      ScanExactly(port, root, start, log[..n]);
      PrefixesRooted(port, root, start, log, n, before.roots);
      assert log[..n + 1] == log && log[..n][..n] == log[..n];
      ScanStops(port, root, start, log, n);
      if before.error.None? {
        if n > 0 { FoldsToIs(port, root, start, log[..n - 1 + 1], Some(before.roots[n - 1])); }
        ScanLast(port, root, start, log);
      }
    }
  }

  lemma ScanEmpty(port: Port, root: Json -> Option<Merkle.Digest>, start: Json)
    ensures Scanned(port, root, start, []) == Scan([], None) && Materialize(port, start, []) == Ok(start)
  {
  }

  lemma ScanLast(port: Port, root: Json -> Option<Merkle.Digest>, start: Json, log: seq<Event>)
    requires hide *; log != [] && Materialize(port, start, log[..|log| - 1]).Ok?
    requires Scanned(port, root, start, log[..|log| - 1]).error.None?
    ensures hide *; var before, scan := Scanned(port, root, start, log[..|log| - 1]), Scanned(port, root, start, log);
      match scan.error
      case None => |scan.roots| == |before.roots| + 1 && scan.roots[..|before.roots|] == before.roots &&
        FoldsTo(port, root, start, log, Some(scan.roots[|before.roots|]))
      case Some(STATE_ROOT(i)) => scan.roots == before.roots && i == |log| - 1 && FoldsTo(port, root, start, log, None)
      case Some(REJECTED(code, i)) =>
        scan.roots == before.roots && i == |log| - 1 && Materialize(port, start, log) == Err((code, i))
  {
    hide Materialize;
    RejectedLast(port, start, log);
  }

  lemma FoldsToIs(port: Port, root: Json -> Option<Merkle.Digest>, start: Json, log: seq<Event>,
      r: Option<Merkle.Digest>)
    ensures hide *; FoldsTo(port, root, start, log, r) <==>
      Materialize(port, start, log).Ok? && root(Materialize(port, start, log).value) == r
  {
    hide Materialize;
  }

  lemma PrefixesRooted(port: Port, root: Json -> Option<Merkle.Digest>, start: Json, log: seq<Event>, n: nat,
      roots: seq<Merkle.Digest>)
    requires hide *; |roots| <= n <= |log|
    requires forall i :: 0 <= i < |roots| ==> FoldsTo(port, root, start, log[..n][..i + 1], Some(roots[i]))
    ensures forall i :: 0 <= i < |roots| ==> FoldsTo(port, root, start, log[..i + 1], Some(roots[i]))
    ensures forall i :: 0 <= i <= n ==> log[..n][..i] == log[..i]
  {
    hide FoldsTo;
    forall i | 0 <= i < |roots| ensures FoldsTo(port, root, start, log[..i + 1], Some(roots[i])) {
      assert log[..n][..i + 1] == log[..i + 1];
    }
  }

  /** The node takes every state to have a root. */
  function ScanRoots(node: Config, genesis: Json, log: seq<Event>): Scan {
    Scanned(node.port, s => Some(node.root(s)), genesis, log)
  }

  /** A log that folds is scanned to its end, one root for each prefix. */
  lemma ScanComplete(node: Config, genesis: Json, log: seq<Event>)
    requires hide *; Materialize(node.port, genesis, log).Ok?
    ensures var scan := ScanRoots(node, genesis, log);
      scan.error.None? && |scan.roots| == |log| &&
      forall i :: 0 <= i < |log| ==> scan.roots[i] == node.root(StateAt(node, genesis, log[..i + 1]))
  {
    hide Apply; hide Materialize; hide Scanned;
    ScanExactly(node.port, s => Some(node.root(s)), genesis, log);
    var scan := ScanRoots(node, genesis, log);
    if scan.error.Some? && scan.error.value.REJECTED? {
      RejectedForGood(node.port, genesis, log, scan.error.value.at + 1);
    }
  }

  function FirstFrom(roots: seq<Merkle.Digest>, j: nat, x: Merkle.Digest): (k: nat)
    requires j <= |roots|
    ensures j <= k <= |roots| && (k < |roots| ==> roots[k] == x)
    ensures forall i :: j <= i < k ==> roots[i] != x
    decreases |roots| - j
  {
    if j == |roots| || roots[j] == x then j else FirstFrom(roots, j + 1, x)
  }

  /** The greedy scan: each checkpoint is looked for after the place of the one before. */
  predicate Greedy(roots: seq<Merkle.Digest>, j: nat, checkpoints: seq<Merkle.Digest>)
    requires j <= |roots|
    decreases |checkpoints|
  {
    checkpoints == [] ||
    var k := FirstFrom(roots, j, checkpoints[0]);
    k < |roots| && Greedy(roots, k + 1, checkpoints[1..])
  }

  /** The places idx show checkpoints as a subsequence of the roots from j on. */
  ghost predicate Embeds(roots: seq<Merkle.Digest>, j: nat, checkpoints: seq<Merkle.Digest>, idx: seq<nat>) {
    && |idx| == |checkpoints|
    && (forall i :: 0 <= i < |idx| ==> j <= idx[i] < |roots| && roots[idx[i]] == checkpoints[i])
    && forall i, k :: 0 <= i < k < |idx| ==> idx[i] < idx[k]
  }

  lemma {:induction false} GreedyFinds(roots: seq<Merkle.Digest>, j: nat, checkpoints: seq<Merkle.Digest>,
      idx: seq<nat>)
    requires j <= |roots| && Embeds(roots, j, checkpoints, idx)
    ensures Greedy(roots, j, checkpoints)
    decreases |checkpoints|
  {
    if checkpoints != [] {
      var k := FirstFrom(roots, j, checkpoints[0]);
      assert roots[idx[0]] == checkpoints[0] && k <= idx[0];
      GreedyFinds(roots, k + 1, checkpoints[1..], idx[1..]);
    }
  }

  lemma {:induction false} GreedySound(roots: seq<Merkle.Digest>, j: nat, checkpoints: seq<Merkle.Digest>)
      returns (idx: seq<nat>)
    requires j <= |roots| && Greedy(roots, j, checkpoints)
    ensures Embeds(roots, j, checkpoints, idx)
    decreases |checkpoints|
  {
    if checkpoints == [] {
      idx := [];
    } else {
      var k := FirstFrom(roots, j, checkpoints[0]);
      var rest := GreedySound(roots, k + 1, checkpoints[1..]);
      idx := [k] + rest;
    }
  }

  /** The greedy scan succeeds exactly when the checkpoints are a subsequence of the roots. */
  lemma GreedyExact(roots: seq<Merkle.Digest>, checkpoints: seq<Merkle.Digest>)
    ensures Greedy(roots, 0, checkpoints) <==> exists idx :: Embeds(roots, 0, checkpoints, idx)
  {
    if Greedy(roots, 0, checkpoints) {
      var idx := GreedySound(roots, 0, checkpoints);
    }
    if idx :| Embeds(roots, 0, checkpoints, idx) {
      GreedyFinds(roots, 0, checkpoints, idx);
    }
  }

  function Checkpoints(ticks: seq<TickResult>): (c: seq<Merkle.Digest>)
    ensures |c| == |ticks|
  {
    seq(|ticks|, i requires 0 <= i < |ticks| => ticks[i].stateRoot)
  }

  predicate VerifyReplay(node: Config, t: Transcript) {
    hide *;
    var scan := ScanRoots(node, t.genesis, t.eventLog);
    && scan.error.None?
    && (if |scan.roots| > 0 then scan.roots[|scan.roots| - 1] else node.root(t.genesis)) == t.finalStateRoot
    && Greedy(scan.roots, 0, Checkpoints(t.ticks))
  }

  method GreedyScan(roots: seq<Merkle.Digest>, checkpoints: seq<Merkle.Digest>) returns (ok: bool)
    ensures ok == Greedy(roots, 0, checkpoints)
  {
    var j := 0;
    for i := 0 to |checkpoints|
      invariant j <= |roots|
      invariant Greedy(roots, 0, checkpoints) == Greedy(roots, j, checkpoints[i..])
    {
      ghost var start := j;
      while j < |roots| && roots[j] != checkpoints[i]
        invariant start <= j <= |roots|
        invariant FirstFrom(roots, start, checkpoints[i]) == FirstFrom(roots, j, checkpoints[i])
      {
        j := j + 1;
      }
      assert checkpoints[i..][1..] == checkpoints[i + 1..];
      if j >= |roots| {
        return false;
      }
      j := j + 1;
    }
    return true;
  }

  method VerifyLoop(node: Config, t: Transcript) returns (ok: bool)
    ensures ok == VerifyReplay(node, t)
  {
    hide Scanned; hide Greedy; hide Checkpoints;
    var scan := ScanStateRoots(node.port, s => Some(node.root(s)), t.genesis, t.eventLog);
    var roots := scan.roots;
    var final := if |roots| > 0 then roots[|roots| - 1] else node.root(t.genesis);
    if scan.error.Some? || final != t.finalStateRoot {
      return false;
    }
    ok := GreedyScan(roots, Checkpoints(t.ticks));
  }

  /** How long the log is after the first k blocks. */
  function LogLength(node: Config, genesis: Json, blocks: seq<TickBlock>, k: nat): nat
    requires k <= |blocks|
  {
    hide *;
    match RunBlocks(node, Init(genesis), blocks[..k]) case Ok(p) => |p.log| case Err(_) => 0
  }

  /** Block k of the run appends at least one event. */
  predicate Appends(node: Config, genesis: Json, blocks: seq<TickBlock>, k: nat)
    requires k < |blocks|
  {
    hide *;
    LogLength(node, genesis, blocks, k) < LogLength(node, genesis, blocks, k + 1)
  }

  /** The place in the log of the last event of block k. */
  function LastPlace(node: Config, genesis: Json, blocks: seq<TickBlock>, k: nat): nat
    requires k < |blocks|
  {
    hide *;
    var n := LogLength(node, genesis, blocks, k + 1);
    if n == 0 then 0 else n - 1
  }

  lemma BlockEnd(node: Config, genesis: Json, blocks: seq<TickBlock>, k: nat)
    requires hide *; RunBlocks(node, Init(genesis), blocks).Ok? && k < |blocks| && Appends(node, genesis, blocks, k)
    ensures var p, n := RunBlocks(node, Init(genesis), blocks).value, LogLength(node, genesis, blocks, k + 1);
      && 0 < n <= |p.log| && |p.ticks| == |blocks|
      && p.ticks[k].stateRoot == node.root(StateAt(node, genesis, p.log[..n]))
  {
    hide RunBlocks; hide Init; hide StateAt; hide Consistent; hide LogRoot;
    RunPrefix(node, Init(genesis), blocks, k + 1);
    RunPrefix(node, Init(genesis), blocks[..k + 1], k + 1);
    RunFolds(node, genesis, blocks[..k + 1]);
    var p, q := RunBlocks(node, Init(genesis), blocks).value, RunBlocks(node, Init(genesis), blocks[..k + 1]).value;
    assert p.log[..|q.log|] == q.log && p.ticks[..|q.ticks|] == q.ticks;
    assert p.ticks[k] == p.ticks[..|q.ticks|][k];
  }

  lemma EndsGrow(node: Config, genesis: Json, blocks: seq<TickBlock>, i: nat, k: nat)
    requires hide *; i < k < |blocks| && RunBlocks(node, Init(genesis), blocks).Ok? && Appends(node, genesis, blocks, k)
    ensures LogLength(node, genesis, blocks, i + 1) < LogLength(node, genesis, blocks, k + 1)
  {
    hide RunBlocks; hide Init;
    RunPrefix(node, Init(genesis), blocks, k);
    RunPrefix(node, Init(genesis), blocks[..k], i + 1);
    assert blocks[..k][..i + 1] == blocks[..i + 1];
  }

  lemma RunScanned(node: Config, genesis: Json, blocks: seq<TickBlock>)
    requires hide *; RunBlocks(node, Init(genesis), blocks).Ok?
    ensures var p := RunBlocks(node, Init(genesis), blocks).value; var scan := ScanRoots(node, genesis, p.log);
      && scan.error.None? && |scan.roots| == |p.log| && |p.ticks| == |blocks|
      && (forall i :: 0 <= i < |p.log| ==> scan.roots[i] == node.root(StateAt(node, genesis, p.log[..i + 1])))
      && (if |scan.roots| > 0 then scan.roots[|scan.roots| - 1] else node.root(genesis)) == node.root(p.live.state)
  {
    hide RunBlocks; hide Init; hide StateAt; hide ScanRoots; hide Materialize; hide LogRoot; hide GlobalRoot;
    var p := RunBlocks(node, Init(genesis), blocks).value;
    RunFolds(node, genesis, blocks);
    RootFromLog(node, genesis, p.log, p.live);
    ScanComplete(node, genesis, p.log);
    StateAtNothing(node, genesis);
    if p.log != [] { assert p.log[..|p.log| - 1 + 1] == p.log; }
  }

  lemma RunEmbeds(node: Config, genesis: Json, blocks: seq<TickBlock>, roots: seq<Merkle.Digest>)
    requires hide *; RunBlocks(node, Init(genesis), blocks).Ok?
    requires forall k :: 0 <= k < |blocks| ==> Appends(node, genesis, blocks, k)
    requires var p := RunBlocks(node, Init(genesis), blocks).value;
      |roots| == |p.log| && |p.ticks| == |blocks| &&
      forall i :: 0 <= i < |p.log| ==> roots[i] == node.root(StateAt(node, genesis, p.log[..i + 1]))
    ensures Greedy(roots, 0, Checkpoints(RunBlocks(node, Init(genesis), blocks).value.ticks))
  {
    hide RunBlocks; hide Init; hide StateAt; hide Appends; hide Greedy; hide LogLength;
    var p := RunBlocks(node, Init(genesis), blocks).value;
    var idx := seq(|blocks|, k requires 0 <= k < |blocks| => LastPlace(node, genesis, blocks, k));
    forall k | 0 <= k < |blocks| ensures 0 <= idx[k] < |roots| && roots[idx[k]] == Checkpoints(p.ticks)[k] {
      BlockEnd(node, genesis, blocks, k);
    }
    forall i, k | 0 <= i < k < |idx| ensures idx[i] < idx[k] {
      BlockEnd(node, genesis, blocks, i);
      EndsGrow(node, genesis, blocks, i, k);
    }
    GreedyFinds(roots, 0, Checkpoints(p.ticks), idx);
  }

  /** Replaying a run verifies it, whenever every block appended at least one event. */
  lemma RunVerifies(node: Config, genesis: Json, blocks: seq<TickBlock>)
    requires hide *; Run(node, genesis, blocks).Ok?
    requires forall k :: 0 <= k < |blocks| ==> Appends(node, genesis, blocks, k)
    ensures VerifyReplay(node, Run(node, genesis, blocks).value)
  {
    hide RunBlocks; hide Init; hide StateAt; hide Appends; hide Greedy; hide ScanRoots; hide Checkpoints;
    RunScanned(node, genesis, blocks);
    RunEmbeds(node, genesis, blocks, ScanRoots(node, genesis, RunBlocks(node, Init(genesis), blocks).value.log).roots);
  }

  lemma StateAtNothing(node: Config, genesis: Json)
    ensures StateAt(node, genesis, []) == genesis
  {
  }

  /** Block k is at a later tick than the block before it, or than genesis. */
  predicate Advances(genesis: Json, blocks: seq<TickBlock>, k: nat)
    requires k < |blocks|
  {
    blocks[k].tick > if k == 0 then Init(genesis).tick else blocks[k - 1].tick
  }

  /** A block beyond the tick of the one before it appends its tick event. */
  lemma LaterTickAppends(node: Config, genesis: Json, blocks: seq<TickBlock>, k: nat)
    requires hide *; k < |blocks| && RunBlocks(node, Init(genesis), blocks).Ok?
    requires Advances(genesis, blocks, k)
    ensures Appends(node, genesis, blocks, k)
  {
    hide ApplyTick; hide Init; hide Consistent; hide StateAt; hide LogRoot;
    RunPrefix(node, Init(genesis), blocks, k);
    RunPrefix(node, Init(genesis), blocks, k + 1);
    RunFolds(node, genesis, blocks[..k]);
    assert blocks[..k + 1][..k] == blocks[..k];
    var p := RunBlocks(node, Init(genesis), blocks[..k]).value;
    TickFolds(node, genesis, p.log, p.live, blocks[k]);
  }

  /** So a program whose ticks strictly increase always verifies. */
  lemma IncreasingTicksVerify(node: Config, genesis: Json, blocks: seq<TickBlock>)
    requires hide *; Run(node, genesis, blocks).Ok?
    requires forall k :: 0 <= k < |blocks| ==> Advances(genesis, blocks, k)
    ensures VerifyReplay(node, Run(node, genesis, blocks).value)
  {
    hide Init; hide RunBlocks; hide VerifyReplay; hide Appends; hide Advances;
    forall k | 0 <= k < |blocks| ensures Appends(node, genesis, blocks, k) {
      LaterTickAppends(node, genesis, blocks, k);
    }
    RunVerifies(node, genesis, blocks);
  }

  /** A block that appends nothing has a checkpoint but no event: a run of one such block is sound
      and still fails the check. */
  lemma IdleBlockFails(node: Config, genesis: Json)
    ensures hide *; var blocks := [TickBlock(Init(genesis).tick, [])];
      Run(node, genesis, blocks).Ok? && !VerifyReplay(node, Run(node, genesis, blocks).value)
  {
    hide Init; hide RunBlocks; hide StateAt; hide ApplyTick;
    var blocks := [TickBlock(Init(genesis).tick, [])];
    IdleTick(node, Init(genesis));
    OneBlock(node, Init(genesis), blocks[0]);
    assert ScanRoots(node, genesis, []).roots == [];
  }

  lemma IdleTick(node: Config, w: Live)
    ensures hide *; ApplyTick(node, w, TickBlock(w.tick, [])).Ok?
    ensures ApplyTick(node, w, TickBlock(w.tick, [])).value.events == []
  {
    hide Push; hide Submit; hide GlobalRoot;
  }

  lemma OneBlock(node: Config, start: Live, block: TickBlock)
    requires hide *; ApplyTick(node, start, block).Ok?
    ensures var step := ApplyTick(node, start, block).value;
      RunBlocks(node, start, [block]) == Ok(Progress(step.next, [step.result], step.events))
  {
    hide ApplyTick;
    assert [block][..0] == [];
    var step := ApplyTick(node, start, block).value;
    assert [] + [step.result] == [step.result] && [] + step.events == step.events;
  }

  // --- what a global root pins down ---

  lemma Uint64Injective(n: nat, m: nat)
    requires n < 0x1_0000_0000_0000_0000 && m < 0x1_0000_0000_0000_0000 && EncodeUint64(n) == EncodeUint64(m)
    ensures n == m
  {
    var a, b := EncodeUint64(n), EncodeUint64(m);
    forall i | 0 <= i < 8 ensures a[i] as int == b[i] as int {}
    BytesBack(n);
    BytesBack(m);
  }

  lemma BytesBack(n: nat)
    requires n < 0x1_0000_0000_0000_0000
    ensures var b := EncodeUint64(n);
      n == b[0] as int * 0x100_0000_0000_0000 + b[1] as int * 0x1_0000_0000_0000 + b[2] as int * 0x100_0000_0000
        + b[3] as int * 0x1_0000_0000 + b[4] as int * 0x100_0000 + b[5] as int * 0x1_0000 + b[6] as int * 0x100
        + b[7] as int
  {
    ByteSplit(n, 1);
    ByteSplit(n, 0x100);
    ByteSplit(n, 0x1_0000);
    ByteSplit(n, 0x100_0000);
    ByteSplit(n, 0x1_0000_0000);
    ByteSplit(n, 0x100_0000_0000);
    ByteSplit(n, 0x1_0000_0000_0000);
    ByteSplit(n, 0x100_0000_0000_0000);
    TopByte(n);
  }

  lemma TopByte(n: nat)
    requires n < 0x1_0000_0000_0000_0000
    ensures n / 1 == n && n / (0x100_0000_0000_0000 * 0x100) == 0
  {
  }

  lemma ByteSplit(n: nat, unit: nat)
    requires unit > 0
    ensures n / unit == n / (unit * 0x100) * 0x100 + Byte(n, unit) as int
  {
    var q, r := n / unit, n % unit;
    I256.DivNested(r, unit, q, 0x100);
    assert n == r + unit * q;
  }

  /** What stands for the last event in a global root. */
  function LastHash(n: nat, h: Merkle.Digest): Merkle.Digest {
    if n == 0 then ZERO32 else h
  }

  lemma GlobalRootIs(node: Config, s: Json, n: nat, h: Merkle.Digest)
    ensures GlobalRoot(node, s, n, h) == Merkle.DomainHash(node.sha, Merkle.MERKLE_LEAF_V1,
      Merkle.EncodeUint16(|"global"|) + "global" + node.root(s) + LastHash(n, h) + EncodeUint64(n))
  {
    hide EncodeUint64; hide Merkle.DomainHash;
  }

  /** One global root: the same state root, log length and last event hash, or a collision. */
  lemma GlobalRootBinds(node: Config, s: Json, n: nat, h: Merkle.Digest, t: Json, m: nat, k: Merkle.Digest)
      returns (x: string, y: string)
    requires n < 0x1_0000_0000_0000_0000 && m < 0x1_0000_0000_0000_0000
    requires GlobalRoot(node, s, n, h) == GlobalRoot(node, t, m, k)
    ensures (node.root(s) == node.root(t) && n == m && (n > 0 ==> h == k)) || Merkle.Collides(node.sha, x, y)
  {
    GlobalRootIs(node, s, n, h);
    GlobalRootIs(node, t, m, k);
    hide EncodeUint64; hide Merkle.MERKLE_LEAF_V1; hide GlobalRoot;
    var head: string := Merkle.EncodeUint16(|"global"|) + "global";
    var a, b := LastHash(n, h), LastHash(m, k);
    var p, q := head + node.root(s) + a + EncodeUint64(n), head + node.root(t) + b + EncodeUint64(m);
    Merkle.DomainBinds(node.sha, Merkle.MERKLE_LEAF_V1, p, q);
    x, y := Merkle.MERKLE_LEAF_V1 + p, Merkle.MERKLE_LEAF_V1 + q;
    if p == q {
      FieldsBack(head, node.root(s), a, EncodeUint64(n), node.root(t), b, EncodeUint64(m));
      Uint64Injective(n, m);
    }
  }

  /** And where the node's roots are state roots: one global root means the same contents of all
      namespaces, the same log length and the same last event hash, or a collision. */
  lemma GlobalRootBindsState(node: Config, s: Json, n: nat, h: Merkle.Digest, t: Json, m: nat, k: Merkle.Digest)
    returns (x: string, y: string)
    requires n < 0x1_0000_0000_0000_0000 && m < 0x1_0000_0000_0000_0000 && Rooted(node, s) && Rooted(node, t)
    requires GlobalRoot(node, s, n, h) == GlobalRoot(node, t, m, k)
    ensures (Merkle.SameContents(s, t) && n == m && (n > 0 ==> h == k)) || Merkle.Collides(node.sha, x, y)
  {
    hide GlobalRoot; hide Merkle.SameContents; hide Merkle.StateRootOf;
    x, y := GlobalRootBinds(node, s, n, h, t, m, k);
    if !Merkle.Collides(node.sha, x, y) {
      x, y := Merkle.StateBinds(node.sha, s, t);
    }
  }

  lemma FieldsBack(head: string, a: Merkle.Digest, b: Merkle.Digest, c: string, d: Merkle.Digest, e: Merkle.Digest,
      f: string)
    requires head + a + b + c == head + d + e + f
    ensures a == d && b == e && c == f
  {
    var p, q := head + a + b + c, head + d + e + f;
    var i := |head|;
    assert p[i..i + 32] == a && q[i..i + 32] == d;
    assert p[i + 32..i + 64] == b && q[i + 32..i + 64] == e;
    assert p[i + 64..] == c && q[i + 64..] == f;
  }
}
