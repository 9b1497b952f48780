/** CALs that pass every gate before VALIDATED: an oracle update signed by the operator and, where the
    state is bounded, by the owner. They are the inputs of the concrete runs. */
module Samples {
  import opened Wrappers
  import opened JsonTree
  import opened DslAst
  import opened DslEval
  import DslParse
  import Gas
  import Reducer
  import Taxonomy
  import V = Validator

  const UPDATE := "oracles.force_update"

  /** One step that asks nothing, a precondition that is always true, no invariants. */
  function SampleCal(agent: string): Json {
    Obj(map["agent_id" := Str(agent), "action" := Str(UPDATE), "nonce" := Int(1), "steps" := Arr([Obj(map[])]),
      "preconditions" := V.ConstNode(Bool(true))])
  }

  /** The registry record of an agent with both keys. */
  function Keys(): Json {
    Obj(map["operator_pubkey" := Str("k"), "owner_pubkey" := Str("k")])
  }

  /** Both signatures are there; the one step records these effects, and the state is claimed to be as it was. */
  function SampleTrace(s: Json, effects: seq<Json>): V.Trace {
    V.Trace(0, [V.StepResult(true, effects)], s, s, true, true, None, "")
  }

  lemma UpdateAdmitted()
    ensures Taxonomy.IsRegisteredAction(UPDATE) && Taxonomy.IsBoundedAllowed(UPDATE)
  {
  }

  lemma UpdateNeedsNothing()
    ensures Taxonomy.RequiredScopes(UPDATE) == {}
  {
    assert |UPDATE| == 20;
  }

  lemma TrueParses(scope: Scope)
    ensures hide *; DslParse.Build(scope, V12, V.ConstNode(Bool(true)), 1, DslParse.Budget(0, 0))
      == Ok((Const(CBool(true)), DslParse.Budget(1, 0)))
  {
    var j, h := V.ConstNode(Bool(true)), HConst(CBool(true));
    TrueHead(scope);
    hide DslParse.Build; hide DslParse.BuildKids; hide ReadHead; hide DslParse.Shaped; hide DslParse.Measured;
    hide V.ConstNode;
    DslParse.NodeUnfolds(scope, V12, j, h, 1, DslParse.Budget(0, 0));
    DslParse.KidsEnd(scope, V12, j, h, 2, DslParse.Budget(1, 0));
  }

  lemma TrueHead(scope: Scope)
    ensures ReadHead(scope, V12, V.ConstNode(Bool(true))) == Ok(HConst(CBool(true)))
  {
    hide CheckPath; hide Split; hide Operands;
    assert "var"[0] == 'v' && "const"[0] == 'c' && "action"[0] == 'a' && "op"[0] == 'o';
  }

  lemma TrueEnvelope()
    ensures Gas.Envelope(Some(V.ConstNode(Bool(true)))) == Ok((Some(V.ConstNode(Bool(true))), V12))
  {
    assert "const"[0] == 'c' && "dsl_version"[0] == 'd';
    assert V.ConstNode(Bool(true)).Get("dsl_version").None?;
  }

  lemma TrueHolds(scope: Scope, b: Bindings)
    ensures V.EvalExpr(Some(V.ConstNode(Bool(true))), scope, b) == EvaluationTrue
  {
    TrueParses(scope);
    TrueEnvelope();
    hide DslParse.Build; hide V.ConstNode; hide Gas.Envelope;
  }

  lemma TrueCost(scope: Scope)
    ensures Gas.DslCost(Some(V.ConstNode(Bool(true))), scope) == Ok(0)
  {
    TrueParses(scope);
    TrueEnvelope();
    hide DslParse.Build; hide V.ConstNode; hide Gas.Envelope;
  }

  lemma SampleUnits(agent: string)
    ensures Gas.StaticGasUnits(SampleCal(agent)) == Ok(0)
  {
    TrueCost(Precondition);
    hide Gas.DslCost; hide V.ConstNode;
    var cal, steps := SampleCal(agent), [Obj(map[])];
    assert Gas.Items(cal.Get("steps")) == steps && cal.Get("invariants") == None;
    assert steps[..0] == [];
    assert Obj(map[]).Get("post_conditions") == None && Obj(map[]).Get("verb") == None;
    assert Gas.StepUnits(Obj(map[])) == Ok(0);
    assert Gas.StepsUnits(steps) == Ok(0);
  }

  /** The keys of the agent are on record, and no owners list. */
  predicate Keyed(s: Json, agent: string) {
    && GetIn(s, V.AgentPath(agent, "operator_pubkey")) == Some(Str("k"))
    && GetIn(s, V.AgentPath(agent, "owner_pubkey")) == Some(Str("k"))
    && GetIn(s, V.AgentPath(agent, "owners")) == None
  }

  lemma SignaturesPass(c: V.Context)
    requires c.action == UPDATE && c.trace.operatorSigPresent && c.trace.ownerSigPresent && Keyed(c.snapshot, c.agent)
    ensures V.SignatureGate(c).None?
  {
    UpdateNeedsNothing();
    hide GetIn; hide V.AgentPath; hide Taxonomy.RequiredScopes; hide Taxonomy.IsOwnerRequired; hide UPDATE;
    assert V.StrOr(Some(Str("k")), "") != "";
  }

  /** A sample CAL on its next nonce, in time and able to pay, reaches VALIDATED. */
  lemma SamplePasses(c: V.Context)
    requires c.action == UPDATE && c.trace.operatorSigPresent && c.trace.ownerSigPresent && Keyed(c.snapshot, c.agent)
    requires c.trace.pinnedSchemaHash == "" && c.tick <= c.expiration
    requires c.nonce == Reducer.Nonce(c.snapshot, c.agent) + 1
    requires c.cal.Get("preconditions") == Some(V.ConstNode(Bool(true))) && Gas.CanValidate(c.cal, c.snapshot)
    ensures V.FirstStop(c) == None
  {
    UpdateAdmitted();
    SignaturesPass(c);
    TrueHolds(Precondition, V.SnapshotOnly(c.snapshot));
    hide UPDATE; hide Taxonomy.IsRegisteredAction; hide Taxonomy.IsBoundedAllowed; hide Keyed; hide V.SignatureGate;
    hide V.EvalExpr; hide Gas.CanValidate; hide V.MCP_SCHEMA_HASH; hide V.ConstNode; hide V.SnapshotOnly;
    hide Reducer.Nonce; hide V.StrOr;
  }

  lemma SampleFields(agent: string)
    ensures var cal := SampleCal(agent);
      && cal.Obj? && V.StrOr(cal.Get("agent_id"), "") == agent && V.StrOr(cal.Get("action"), "") == UPDATE
      && Gas.AgentId(cal) == Some(agent)
      && Gas.AsBig(cal.Get("nonce"), 0) == 1 && Gas.AsBig(cal.Get("expiration_tick"), 0) == 0
      && cal.Get("gas_limit_ptra") == None && cal.Get("preconditions") == Some(V.ConstNode(Bool(true)))
      && Gas.Items(cal.Get("steps")) == [Obj(map[])] && Gas.Items(cal.Get("invariants")) == []
  {
    hide V.ConstNode; hide UPDATE;
  }

  lemma SampleContext(agent: string, ch: string, s: Json, trace: V.Trace)
    ensures var c := V.BuildContext(SampleCal(agent), ch, s, trace);
      && c.cal == SampleCal(agent) && c.ch == ch && c.snapshot == s && c.trace == trace && c.agent == agent
      && c.action == UPDATE && c.nonce == 1 && c.expiration == 0 && c.tick == trace.currentTick
      && c.bounded == V.IsBounded(s) && c.maxGas == 100 * Gas.FlatFee(s)
      && Gas.EscrowRequirement(c.cal, s) == 101 * Gas.FlatFee(s)
  {
    SampleFields(agent);
    hide Gas.FlatFee; hide V.StrOr; hide V.OwnerCount; hide V.IsBounded; hide V.OwnerGated; hide Gas.OwnerAuthUnits;
    hide SampleCal; hide V.ConstNode; hide UPDATE;
  }

  lemma TwoKeys(s: Json, a: string, b: string)
    ensures GetIn(s, [a, b]) == match s.Get(a) case None => None case Some(x) => x.Get(b)
  {
    assert [a, b][1..] == [b] && [b][1..] == [];
    if s.Get(a).Some? {
      assert GetIn(s.Get(a).value, [b]) == s.Get(a).value.Get(b);
    }
  }

  /** The keys are on record when the registry holds them under the agent. */
  lemma KeyedBy(s: Json, agent: string)
    ensures (match GetIn(s, ["registry", "agents"]) case Some(Obj(agents)) => agent in agents
      && agents[agent] == Keys() case _ => false)
      ==> Keyed(s, agent)
  {
    hide GetIn;
    var p := ["registry", "agents"];
    forall f ensures V.AgentPath(agent, f) == p + [agent, f] && GetIn(s, p + [agent, f]) ==
      match GetIn(s, p) case None => None case Some(x) => GetIn(x, [agent, f])
    {
      GetAppend(s, p, [agent, f]);
    }
    if GetIn(s, p).Some? {
      TwoKeys(GetIn(s, p).value, agent, "operator_pubkey");
      TwoKeys(GetIn(s, p).value, agent, "owner_pubkey");
      TwoKeys(GetIn(s, p).value, agent, "owners");
    }
  }
}
