/** What is proved of the node over the Rust reducer, carried over to either port: on plain programs from a
    plain genesis with the supply in range. */
module EitherPort {
  import opened Wrappers
  import opened JsonTree
  import opened Deltas
  import opened Reducer
  import opened Ports
  import opened Ledgers
  import opened LedgerStep
  import opened Runs
  import opened Parity
  import opened Plain
  import opened Acceptance
  import opened Node
  import opened NodeSafety
  import opened NodePorts
  import opened LateFees
  import opened NodeFees
  import opened Samples
  import Conservation
  import Gas
  import Merkle
  import NodeEffects
  import NodeResume
  import V = Validator

  lemma SameFinalized(node: Config, genesis: Json, l: Ledger, blocks: seq<TickBlock>)
    requires hide *; Represents(genesis, l) && Sound(l.flights) && Conservation.Supply(l) <= UINT256_MAX
    requires PlainState(genesis) && PlainStaged(l) && PlainProgram(blocks)
    ensures RunBlocks(node, Init(genesis), blocks).Ok? ==>
      RunBlocks(node, Init(genesis), blocks) == RunBlocks(Checked(node), Init(genesis), blocks)
    ensures RunBlocks(node, Init(genesis), blocks).Ok? <==> RunBlocks(Checked(node), Init(genesis), blocks).Ok?
    ensures Checked(node).port == Rust && SafeProgram(blocks)
  {
    hide *;
    RunPorts(node, genesis, l, blocks);
    AlikeOk(RunBlocks(node, Init(genesis), blocks), RunBlocks(Checked(node), Init(genesis), blocks));
    CheckedIs(node);
    SafeOfPlainProgram(blocks);
  }

  /** No CAL finalizes twice, in either port. */
  lemma NoDoubleFinalization(node: Config, genesis: Json, l: Ledger, blocks: seq<TickBlock>)
    returns (m: Ledger, x: string, y: string)
    requires hide *; Represents(genesis, l) && l.flights == map[] && Conservation.Supply(l) <= UINT256_MAX
    requires PlainState(genesis) && PlainProgram(blocks)
    requires RunBlocks(node, Init(genesis), blocks).Ok?
    ensures var p := RunBlocks(node, Init(genesis), blocks).value;
      || Merkle.Collides(node.sha, x, y)
      || (&& Represents(p.live.state, m) && Sound(m.flights) && Boundary(m)
          && |AllResults(p.ticks)| == |AllSubs(blocks)|
          && var done := FinalizedCals(AllSubs(blocks), AllResults(p.ticks));
          && Ordered(m, done)
          && forall i, j :: 0 <= i < j < |done| && done[i].Obj? && done[j].Obj? ==>
            CalHash(node, done[i]) != CalHash(node, done[j]))
  {
    hide *;
    NothingFlies(l);
    SameFinalized(node, genesis, l, blocks);
    CheckedIs(node);
    m, x, y := NodeSafety.NoDoubleFinalization(Checked(node), genesis, l, blocks);
    forall cal: Json | cal.Obj? ensures CalHash(node, cal) == CalHash(Checked(node), cal) { HashPorts(node, cal); }
  }

  lemma NothingFlies(l: Ledger)
    requires l.flights == map[]
    ensures Sound(l.flights) && PlainStaged(l)
  {
  }

  /** An atomic submission fails on an event that the reducer rejects exactly as it does over the Rust reducer:
      when it finalizes and its effects do not commit. */
  lemma AtomicRejectedExactly(node: Config, w: Live, l: Ledger, sub: Submission)
    requires hide *; PlainLive(w, l) && PlainTrace(sub.trace) && sub.mode.Atomic?
    ensures Submit(node, w, sub).Err? && Submit(node, w, sub).error.APPLY_FAILED?
      <==> EffectsFail(Checked(node), w, sub)
  {
    hide *;
    PlainLiveIs(w, l);
    CheckedIs(node);
    SafeOfPlain(sub.trace, 0);
    var m := SubmitPorts(node, w, l, sub);
    AlikeOk(Submit(node, w, sub), Submit(Checked(node), w, sub));
    NodeSafety.AtomicRejectedExactly(Checked(node), w, l, sub);
  }

  /** So does a resume submission of a waiting CAL. */
  lemma ResumeRejectedExactly(node: Config, w: Live, l: Ledger, cal: Json, trace: V.Trace)
    requires hide *; PlainLive(w, l) && PlainTrace(trace)
    requires cal.Obj? && Gas.AgentId(cal).Some? && CalHash(node, cal) in l.flights
    requires l.flights[CalHash(node, cal)].stage == VALIDATED && Gas.MaxGas(cal, Gas.FlatFee(w.state)) <= UINT256_MAX
    ensures var j, c := Submit(node, w, Submission(cal, trace, Resume)), NodeResume.ResumeContext(node, w, cal, trace);
      j.Err? && j.error.APPLY_FAILED? <==>
        && V.PhaseB(c, []).Ok?
        && (Gas.MaxGas(cal, Gas.FlatFee(w.state)) - Consumed(c) > l.flights[CalHash(node, cal)].escrow
            || !Commits(w.state, c, V.PhaseB(c, []).value.terminal))
  {
    hide *;
    PlainLiveIs(w, l);
    CheckedIs(node);
    HashPorts(node, cal);
    SafeOfPlain(trace, 0);
    NodeResume.ContextIs(node, w, cal, trace);
    NodeResume.ContextIs(Checked(node), w, cal, trace);
    var sub := Submission(cal, trace, Resume);
    var m := SubmitPorts(node, w, l, sub);
    AlikeOk(Submit(node, w, sub), Submit(Checked(node), w, sub));
    NodeResume.ResumeRejectedExactly(Checked(node), w, l, cal, trace);
  }

  /** A run ends in genesis with its ticks and the effects of the submissions that finalized. */
  lemma OnlyFinalizedSubmissions(node: Config, genesis: Json, l: Ledger, blocks: seq<TickBlock>)
    requires hide *; Represents(genesis, l) && Sound(l.flights) && Conservation.Supply(l) <= UINT256_MAX
    requires PlainState(genesis) && PlainStaged(l) && PlainProgram(blocks)
    requires RunBlocks(node, Init(genesis), blocks).Ok?
    ensures var p := RunBlocks(node, Init(genesis), blocks).value;
      && NodeEffects.Belong(blocks, p.ticks)
      && var end := PerformAll(genesis, NodeEffects.ProgramOps(Init(genesis).tick, blocks, p.ticks));
      && end.Ok? && SameOutside(end.value, p.live.state)
  {
    hide *;
    SameFinalized(node, genesis, l, blocks);
    NodeEffects.OnlyFinalizedSubmissions(Checked(node), genesis, l, blocks);
  }

  // --- the fee example is plain ---

  lemma ObjTree(p: Path, m: map<string, Json>)
    requires forall k :: k in m ==> PlainTree(p + [k], m[k])
    ensures PlainTree(p, Obj(m))
  {
    forall q: Path | GetIn(Obj(m), q).Some? ensures PlainAt(p + q, GetIn(Obj(m), q).value) {
      if q != [] {
        assert p + q == p + [q[0]] + q[1..];
        assert GetIn(Obj(m), q) == GetIn(m[q[0]], q[1..]);
      }
    }
  }

  lemma LeavesPlain(p: Path, m: map<string, Json>)
    requires forall k :: k in m ==> m[k].Str? || (m[k].Int? && 0 <= m[k].n <= UINT256_MAX)
    ensures PlainTree(p, Obj(m))
  {
    forall k | k in m ensures PlainTree(p + [k], m[k]) { LeafPlain(p + [k], m[k]); }
    hide PlainTree;
    ObjTree(p, m);
  }

  lemma OneField(p: Path, k: string, v: Json)
    requires PlainTree(p + [k], v)
    ensures PlainTree(p, Obj(map[k := v]))
  {
    hide PlainTree;
    ObjTree(p, map[k := v]);
  }

  lemma TwoFields(p: Path, a: string, v: Json, b: string, w: Json)
    requires PlainTree(p + [a], v) && PlainTree(p + [b], w)
    ensures PlainTree(p, Obj(map[a := v, b := w]))
  {
    hide PlainTree;
    ObjTree(p, map[a := v, b := w]);
  }

  lemma KeysPlain(p: Path)
    ensures PlainTree(p, Keys())
  {
    LeavesPlain(p, Keys().fields);
    hide PlainTree;
  }

  lemma FeeGovernancePlain(p: Path)
    ensures PlainTree(p, FeeGovernance())
  {
    hide PlainTree;
    LeafPlain(p + ["gas_price_nano_ptra_per_unit"], Int(0));
    LeavesPlain(p + ["params"], map["flat_validation_fee_nano_ptra" := Int(1)]);
    TwoFields(p, "gas_price_nano_ptra_per_unit", Int(0), "params", Obj(map["flat_validation_fee_nano_ptra" := Int(1)]));
  }

  lemma FeeRegistryPlain(p: Path)
    ensures PlainTree(p, FeeRegistry())
  {
    hide PlainTree; hide Keys;
    KeysPlain(p + ["agents"] + ["a"]);
    KeysPlain(p + ["agents"] + ["b"]);
    TwoFields(p + ["agents"], "a", Keys(), "b", Keys());
    OneField(p, "agents", Obj(map["a" := Keys(), "b" := Keys()]));
  }

  lemma FeePtraPlain(p: Path)
    ensures PlainTree(p, FeePtra())
  {
    hide PlainTree;
    LeavesPlain(p + ["balances"], map["a" := Int(101), "b" := Int(101)]);
    OneField(p, "balances", Obj(map["a" := Int(101), "b" := Int(101)]));
  }

  lemma FeeGenesisPlain()
    ensures PlainState(FeeGenesis())
  {
    hide PlainTree; hide FeeGovernance; hide FeeRegistry; hide FeePtra;
    var s := FeeGenesis();
    FeeGovernancePlain([] + ["governance"]);
    FeeRegistryPlain([] + ["registry"]);
    FeePtraPlain([] + ["ptra"]);
    ObjTree([], s.fields);
  }

  lemma FeeEffectPlain(fee: nat)
    requires fee <= UINT256_MAX
    ensures PlainDeltas([FeeEffect(fee)]) && PlainDeltas([])
  {
    FeeDecoded(fee);
    LeafPlain(Gas.FLAT_FEE, Int(fee));
    hide Decode; hide FeeEffect; hide PlainTree;
  }

  lemma FeeProgramPlain(fee: nat)
    requires fee <= UINT256_MAX
    ensures PlainSubs(RaiseSubs("a", "b", fee)) && PlainSubs(RaiseSubs("a", "b", fee) + [ResumeSub("a")])
  {
    FeeEffectPlain(fee);
    FeeSet(Null, fee);
    hide FeeEffect; hide SampleCal; hide PlainDeltas; hide SafeDeltas;
    assert SafeDeltas([]) by { NothingSafe(); }
    TracePlain([]);
    TracePlain([FeeEffect(fee)]);
  }

  lemma TracePlain(effects: seq<Json>)
    requires PlainDeltas(effects) && SafeDeltas(effects)
    ensures PlainTrace(SampleTrace(Null, effects))
  {
    hide PlainDeltas; hide SafeDeltas;
  }

  lemma OneBlockProgram(subs: seq<Submission>)
    requires PlainSubs(subs)
    ensures PlainProgram([TickBlock(0, subs)])
  {
    hide PlainTrace;
    assert [TickBlock(0, subs)][..0] == [];
    assert AllSubs([TickBlock(0, subs)]) == [] + subs == subs;
  }

  /** The doubled fee stops the node in either port. */
  lemma DoubledFeeRefused(node: Config) returns (x: string, y: string)
    ensures hide *; Merkle.Collides(node.sha, x, y) ||
      var r := RunBlocks(node, Init(FeeGenesis()), [TickBlock(0, RaiseSubs("a", "b", 2) + [ResumeSub("a")])]);
      && RunBlocks(node, Init(FeeGenesis()), [TickBlock(0, RaiseSubs("a", "b", 2))]).Ok?
      && r.Err? && r.error.APPLY_FAILED?
  {
    hide *;
    CheckedIs(node);
    x, y := NodeFees.DoubledFeeRefused(Checked(node));
    Small();
    FeeGenesisPlain();
    FeeProgramPlain(2);
    FeeRepresents();
    FeeSound();
    NothingStaged();
    OneBlockProgram(RaiseSubs("a", "b", 2));
    OneBlockProgram(RaiseSubs("a", "b", 2) + [ResumeSub("a")]);
    var short, long :=
      [TickBlock(0, RaiseSubs("a", "b", 2))], [TickBlock(0, RaiseSubs("a", "b", 2) + [ResumeSub("a")])];
    RunPorts(node, FeeGenesis(), FeeLedger(), short);
    RunPorts(node, FeeGenesis(), FeeLedger(), long);
    AlikeOk(RunBlocks(node, Init(FeeGenesis()), short), RunBlocks(Checked(node), Init(FeeGenesis()), short));
    AlikeOk(RunBlocks(node, Init(FeeGenesis()), long), RunBlocks(Checked(node), Init(FeeGenesis()), long));
    RunIs(Checked(node), FeeGenesis(), short);
    RunIs(Checked(node), FeeGenesis(), long);
  }

  lemma NothingStaged()
    ensures PlainStaged(FeeLedger())
  {
  }

  lemma RunIs(node: Config, genesis: Json, blocks: seq<TickBlock>)
    ensures hide *; var r, p := Run(node, genesis, blocks), RunBlocks(node, Init(genesis), blocks);
      (r.Ok? <==> p.Ok?) && (r.Err? ==> r.error == p.error)
  {
    hide RunBlocks; hide Init;
  }
}
