/** The validator: from a CAL, a snapshot and an execution trace to lifecycle events and a bill.
    Verdicts over signatures come with the trace; reason details are left out. */
module Validator {
  import opened Wrappers
  import opened JsonTree
  import opened Events
  import DslAst
  import DslEval
  import Gas
  import Quorum
  import Reducer
  import Taxonomy

  datatype StepResult = StepResult(ok: bool, effects: seq<Json>)

  datatype Trace = Trace(
    currentTick: nat, steps: seq<StepResult>, stateBefore: Json, stateAfter: Json,
    operatorSigPresent: bool, ownerSigPresent: bool, ownerSigners: Option<seq<string>>, pinnedSchemaHash: string)

  datatype Reason =
    | UNKNOWN_ACTION | SCHEMA_MISMATCH | BOUNDED_BLOCKED | NONCE_MISMATCH | CAPABILITY_DENIED
    | INVALID_SIGNATURE_SET | QUORUM_NOT_MET | PRECOND_FALSE | PRECOND_ERROR | INSUFFICIENT_ESCROW
    | STEP_ERROR | POSTCOND_FALSE | OUT_OF_GAS | INVARIANT_FALSE

  datatype Terminal = FINALIZED | FAILED | EXPIRED

  datatype Verdict = Verdict(events: seq<Event>, terminal: Terminal, reason: Option<Reason>, bill: Gas.GasBill)

  // --- the context shared by both phases ---

  datatype Context = Context(
    cal: Json, ch: string, snapshot: Json, trace: Trace, agent: string, action: string, nonce: nat,
    expiration: nat, tick: nat, fee: nat, bounded: bool, maxGas: nat, ownerAuth: nat)

  function StrOr(v: Option<Json>, default: string): string {
    match v case Some(Str(s)) => s case _ => default
  }

  function AgentPath(agent: string, field: string): Path {
    ["registry", "agents", agent, field]
  }

  const MCP_SCHEMA_HASH: Path := ["registry", "mcp_schema_hash"]

  function Presented(trace: Trace): seq<string> {
    trace.ownerSigners.GetOr([])
  }

  function NonEmpty(signers: seq<string>): nat {
    if signers == [] then 0 else (if signers[0] == "" then 0 else 1) + NonEmpty(signers[1..])
  }

  /** How many owner signatures are priced: those presented for an owners list, one otherwise. */
  function OwnerCount(snapshot: Json, agent: string, trace: Trace): nat {
    match GetIn(snapshot, AgentPath(agent, "owners"))
    case Some(Arr(_)) => NonEmpty(Presented(trace))
    case _ => 1
  }

  predicate IsBounded(snapshot: Json) {
    GetIn(snapshot, Reducer.BOUNDED_MODE) == Some(Bool(true))
  }

  predicate OwnerGated(action: string, bounded: bool) {
    Taxonomy.IsOwnerRequired(action) || bounded
  }

  function BuildContext(cal: Json, ch: string, snapshot: Json, trace: Trace): Context {
    var agent := StrOr(cal.Get("agent_id"), "");
    var action := StrOr(cal.Get("action"), "");
    var fee := Gas.FlatFee(snapshot);
    var bounded := IsBounded(snapshot);
    Context(cal, ch, snapshot, trace, agent, action,
      Gas.AsBig(cal.Get("nonce"), 0), Gas.AsBig(cal.Get("expiration_tick"), 0), trace.currentTick,
      fee, bounded, Gas.MaxGas(cal, fee),
      if OwnerGated(action, bounded) then Gas.OwnerAuthUnits(OwnerCount(snapshot, agent, trace)) else 0)
  }

  // --- gates ---

  function EvalExpr(node: Option<Json>, scope: DslAst.Scope, b: DslEval.Bindings): DslEval.Outcome {
    match Gas.Envelope(node)
    case Err(f) => DslEval.Faulted(f.phase, f.reason)
    case Ok((expr, version)) =>
      match expr
      case None => DslEval.Faulted(DslAst.ParsePhase, DslAst.MALFORMED_NODE)
      case Some(j) => DslEval.Run(j, scope, version, b)
  }

  function Strings(items: seq<Json>): seq<string> {
    if items == [] then []
    else (if items[0].Str? then [items[0].s] else []) + Strings(items[1..])
  }

  /** A scope is granted by name or brought in by a granted one. */
  predicate Granted(items: seq<Json>, scope: string) {
    exists i :: 0 <= i < |items| && items[i].Str?
      && (scope == items[i].s || scope in Taxonomy.ImpliedScopes(items[i].s))
  }

  predicate CapabilityGrants(snapshot: Json, agent: string, action: string) {
    var items := Gas.Items(GetIn(snapshot, AgentPath(agent, "granted_scopes")));
    forall s :: s in Taxonomy.RequiredScopes(action) ==> Granted(items, s)
  }

  /** The set the source fills: every granted scope and what it implies. */
  method CheckCapability(snapshot: Json, agent: string, action: string) returns (ok: bool)
    ensures ok == CapabilityGrants(snapshot, agent, action)
  {
    hide Taxonomy.RequiredScopes; hide Taxonomy.ImpliedScopes; hide AgentPath;
    var required := Taxonomy.RequiredScopes(action);
    if required == {} {
      return true;
    }
    var granted: set<string> := {};
    var items := Gas.Items(GetIn(snapshot, AgentPath(agent, "granted_scopes")));
    for i := 0 to |items|
      invariant forall s :: s in granted <==> Granted(items[..i], s)
    {
      assert items[..i + 1] == items[..i] + [items[i]];
      GrantedPush(items[..i], items[i]);
      if items[i].Str? {
        granted := granted + {items[i].s} + Taxonomy.ImpliedScopes(items[i].s);
      }
    }
    assert items[..|items|] == items;
    return required <= granted;
  }

  lemma GrantedPush(items: seq<Json>, x: Json)
    ensures forall s :: Granted(items + [x], s) <==>
      Granted(items, s) || (x.Str? && (s == x.s || s in Taxonomy.ImpliedScopes(x.s)))
  {
    hide Taxonomy.ImpliedScopes;
    forall s
      ensures Granted(items + [x], s)
        <==> Granted(items, s) || (x.Str? && (s == x.s || s in Taxonomy.ImpliedScopes(x.s)))
    {
      if Granted(items, s) {
        var i :| 0 <= i < |items| && items[i].Str? && (s == items[i].s || s in Taxonomy.ImpliedScopes(items[i].s));
        assert (items + [x])[i] == items[i];
      }
      if x.Str? && (s == x.s || s in Taxonomy.ImpliedScopes(x.s)) {
        assert (items + [x])[|items|] == x;
      }
    }
  }

  /** The owner gate: a quorum over an owners list, or the single-owner flag with a registered key. */
  function OwnerGate(snapshot: Json, agent: string, trace: Trace): Option<Reason> {
    match GetIn(snapshot, AgentPath(agent, "owners"))
    case Some(Arr(items)) =>
      if Strings(items) == [] then Some(CAPABILITY_DENIED)
      else
        (match Quorum.MultisigQuorum(Strings(items), Gas.AsBig(GetIn(snapshot, AgentPath(agent, "threshold")), 0),
          Presented(trace))
         case Some(f) => Some(if f.INVALID_SIGNATURE_SET? then Reason.INVALID_SIGNATURE_SET else Reason.QUORUM_NOT_MET)
         case None => None)
    case _ =>
      if !trace.ownerSigPresent then Some(CAPABILITY_DENIED)
      else if StrOr(GetIn(snapshot, AgentPath(agent, "owner_pubkey")), "") == "" then Some(CAPABILITY_DENIED)
      else None
  }

  datatype Stop = Refused(reason: Reason, outcome: Gas.Outcome) | TooLate

  function SignatureGate(c: Context): Option<Reason> {
    if !c.trace.operatorSigPresent then Some(CAPABILITY_DENIED)
    else if StrOr(GetIn(c.snapshot, AgentPath(c.agent, "operator_pubkey")), "") == "" then Some(CAPABILITY_DENIED)
    else if OwnerGated(c.action, c.bounded) && OwnerGate(c.snapshot, c.agent, c.trace).Some? then
      OwnerGate(c.snapshot, c.agent, c.trace)
    else if !CapabilityGrants(c.snapshot, c.agent, c.action) then Some(CAPABILITY_DENIED)
    else None
  }

  function SnapshotOnly(snapshot: Json): DslEval.Bindings {
    DslEval.NO_BINDINGS.(state := Some(snapshot))
  }

  /** The first of the gates before VALIDATED that stops the CAL. */
  function FirstStop(c: Context): Option<Stop> {
    hide *;
    if !Taxonomy.IsRegisteredAction(c.action) then Some(Refused(UNKNOWN_ACTION, Gas.FailedNoCharge))
    else if c.trace.pinnedSchemaHash != "" &&
      StrOr(GetIn(c.snapshot, MCP_SCHEMA_HASH), "") != c.trace.pinnedSchemaHash
    then
      Some(Refused(SCHEMA_MISMATCH, Gas.FailedNoCharge))
    else if c.bounded && !Taxonomy.IsBoundedAllowed(c.action) then Some(Refused(BOUNDED_BLOCKED, Gas.FailedNoCharge))
    else if c.tick > c.expiration then Some(TooLate)
    else if c.nonce != Reducer.Nonce(c.snapshot, c.agent) + 1 then Some(Refused(NONCE_MISMATCH, Gas.FailedNoCharge))
    else if SignatureGate(c).Some? then Some(Refused(SignatureGate(c).value, Gas.FailedPrecond))
    else
      match EvalExpr(c.cal.Get("preconditions"), DslAst.Precondition, SnapshotOnly(c.snapshot))
      case EvaluationFalse => Some(Refused(PRECOND_FALSE, Gas.FailedPrecond))
      case Faulted(_, _) => Some(Refused(PRECOND_ERROR, Gas.FailedNoCharge))
      case EvaluationTrue =>
        if !Gas.CanValidate(c.cal, c.snapshot) then Some(Refused(INSUFFICIENT_ESCROW, Gas.FailedNoCharge)) else None
  }

  // --- events; the notes are fields that the reducer never reads ---

  function ReasonText(r: Reason): string {
    match r
    case UNKNOWN_ACTION => "UNKNOWN_ACTION"
    case SCHEMA_MISMATCH => "SCHEMA_MISMATCH"
    case BOUNDED_BLOCKED => "BOUNDED_BLOCKED"
    case NONCE_MISMATCH => "NONCE_MISMATCH"
    case CAPABILITY_DENIED => "CAPABILITY_DENIED"
    case INVALID_SIGNATURE_SET => "INVALID_SIGNATURE_SET"
    case QUORUM_NOT_MET => "QUORUM_NOT_MET"
    case PRECOND_FALSE => "PRECOND_FALSE"
    case PRECOND_ERROR => "PRECOND_ERROR"
    case INSUFFICIENT_ESCROW => "INSUFFICIENT_ESCROW"
    case STEP_ERROR => "STEP_ERROR"
    case POSTCOND_FALSE => "POSTCOND_FALSE"
    case OUT_OF_GAS => "OUT_OF_GAS"
    case INVARIANT_FALSE => "INVARIANT_FALSE"
  }

  function IdNotes(c: Context): Notes {
    map["agent_id" := Str(c.agent), "nonce" := Int(c.nonce)]
  }

  function ExpiredNotes(c: Context): Notes {
    IdNotes(c) + map["tick_expired" := Int(c.tick), "gas_consumed_ptra" := Int(0), "ton_ingress_fee_paid" := Int(0)]
  }

  function FailedNotes(c: Context, reason: Reason, gas: nat): Notes {
    IdNotes(c) + map["tick_failed" := Int(c.tick), "reason_code" := Str(ReasonText(reason)),
      "gas_consumed_ptra" := Int(gas), "ton_ingress_fee_paid" := Int(0)]
  }

  function FinalizedNotes(c: Context, gas: nat, steps: nat, invariants: nat): Notes {
    IdNotes(c) + map["tick_finalized" := Int(c.tick), "gas_consumed_ptra" := Int(gas),
      "steps_applied" := Int(steps), "invariants_checked" := Int(invariants)]
  }

  function ValidatedEvent(c: Context): Event {
    CalValidated(c.ch, Some(c.fee + c.maxGas), IdNotes(c))
  }

  // --- before VALIDATED ---

  /** A failure before VALIDATED carries its own charge; nothing was escrowed. */
  function PreFail(c: Context, reason: Reason, outcome: Gas.Outcome): Result<Verdict, Gas.GasError> {
    var bill :- Gas.Settle(outcome, c.cal, c.snapshot, 0, 0);
    Ok(Verdict([CalFailed(c.ch, Some(bill.feeRetained), Some(0), FailedNotes(c, reason, 0))], FAILED, Some(reason),
      bill))
  }

  function PreExpire(c: Context): Result<Verdict, Gas.GasError> {
    var bill :- Gas.Settle(Gas.ExpiredPre, c.cal, c.snapshot, 0, 0);
    Ok(Verdict([CalExpired(c.ch, Some(0), Some(0), ExpiredNotes(c))], EXPIRED, None, bill))
  }

  /** The verdict of a CAL that stops before VALIDATED, or None. */
  function PhaseA(c: Context): Result<Option<Verdict>, Gas.GasError> {
    match FirstStop(c)
    case None => Ok(None)
    case Some(TooLate) =>
      var v :- PreExpire(c);
      Ok(Some(v))
    case Some(Refused(reason, outcome)) =>
      var v :- PreFail(c, reason, outcome);
      Ok(Some(v))
  }

  // --- from VALIDATED to a terminal stage ---

  function PostExpire(c: Context, events: seq<Event>): Result<Verdict, Gas.GasError> {
    var bill :- Gas.Settle(Gas.ExpiredPost, c.cal, c.snapshot, 0, 0);
    Ok(Verdict(events + [CalExpired(c.ch, Some(0), Some(bill.gasRefunded), ExpiredNotes(c))], EXPIRED, None, bill))
  }

  function ExecFail(c: Context, events: seq<Event>, reason: Reason, committed: seq<Json>)
    : Result<Verdict, Gas.GasError>
  {
    var bytes :- Gas.EffectsBytes(committed);
    var bill :- Gas.Settle(Gas.FailedExec, c.cal, c.snapshot, bytes, c.ownerAuth);
    var ev := CalFailed(c.ch, Some(0), Some(bill.gasRefunded), FailedNotes(c, reason, bill.dynamicGasConsumed));
    Ok(Verdict(events + [ev], FAILED, Some(reason), bill))
  }

  function BeforeAfter(trace: Trace, params: Option<Json>): DslEval.Bindings {
    DslEval.NO_BINDINGS.(before := Some(trace.stateBefore), after := Some(trace.stateAfter), params := params)
  }

  function PostCondition(c: Context, step: Json, pc: Json): Option<Reason> {
    match EvalExpr(Some(pc), DslAst.PostCondition, BeforeAfter(c.trace, step.Get("params")))
    case EvaluationTrue => None
    case EvaluationFalse => Some(POSTCOND_FALSE)
    case Faulted(_, _) => Some(STEP_ERROR)
  }

  function PostConditions(c: Context, step: Json, pcs: seq<Json>): Option<Reason> {
    hide *;
    if pcs == [] then None
    else
      match PostCondition(c, step, pcs[0])
      case Some(r) => Some(r)
      case None => PostConditions(c, step, pcs[1..])
  }

  function Steps(c: Context): seq<Json> {
    Gas.Items(c.cal.Get("steps"))
  }

  /** The step loop from step i: a reason when some step fails, and the effects committed by then. */
  function RunSteps(c: Context, i: nat, committed: seq<Json>): (Option<Reason>, seq<Json>)
    decreases |Steps(c)| - i
  {
    hide *;
    if i >= |Steps(c)| then (None, committed)
    else if i >= |c.trace.steps| || !c.trace.steps[i].ok then (Some(STEP_ERROR), committed)
    else
      var grown := committed + c.trace.steps[i].effects;
      match PostConditions(c, Steps(c)[i], Gas.Items(Steps(c)[i].Get("post_conditions")))
      case Some(r) => (Some(r), grown)
      case None => RunSteps(c, i + 1, grown)
  }

  function VarNode(path: string): Json {
    Obj(map["var" := Str(path)])
  }

  function ConstNode(v: Json): Json {
    Obj(map["const" := v])
  }

  function BinaryNode(op: string, lhs: Json, rhs: Json): Json {
    Obj(map["op" := Str(op), "lhs" := lhs, "rhs" := rhs])
  }

  const FUND_BALANCE := "treasury.developer_fund_balance"
  const NET_ASSET_VALUE := "treasury.nav"
  const BOUNDED_FLAG := "failure_mode.is_bounded_mode"

  /** A place of the state that the trace claims after the CAL, or before it. */
  function AfterVar(place: string): Json {
    VarNode("state.after." + place)
  }

  function BeforeVar(place: string): Json {
    VarNode("state.before." + place)
  }

  function FundInvariant(): Json {
    BinaryNode("gte", AfterVar(FUND_BALANCE), BeforeVar(FUND_BALANCE))
  }

  function NavInvariant(): Json {
    BinaryNode("gte", AfterVar(NET_ASSET_VALUE), BinaryNode("sub", BeforeVar(NET_ASSET_VALUE), ConstNode(Int(0))))
  }

  function ModeInvariant(): Json {
    BinaryNode("eq", AfterVar(BOUNDED_FLAG), ConstNode(Bool(true)))
  }

  /** Injected while the state is in bounded mode. */
  function EmergencyInvariants(): seq<Json> {
    [FundInvariant(), NavInvariant(), ModeInvariant()]
  }

  function EffectiveInvariants(c: Context): seq<Json> {
    Gas.Items(c.cal.Get("invariants")) + if c.bounded then EmergencyInvariants() else []
  }

  predicate InvariantHolds(c: Context, inv: Json) {
    EvalExpr(Some(inv), DslAst.Invariant, BeforeAfter(c.trace, None)) == DslEval.EvaluationTrue
  }

  predicate InvariantsHold(c: Context) {
    hide *;
    forall i :: 0 <= i < |EffectiveInvariants(c)| ==> InvariantHolds(c, EffectiveInvariants(c)[i])
  }

  function RawGas(c: Context, bytes: nat): Result<nat, Gas.GasError> {
    var units :- Gas.GasUnits(c.cal, bytes, c.ownerAuth);
    Ok(Gas.ToNano(units, Gas.GasPrice(c.snapshot)))
  }

  function Finish(c: Context, events: seq<Event>, bytes: nat, consumed: nat): Result<Verdict, Gas.GasError> {
    var bill :- Gas.Settle(Gas.Finalized, c.cal, c.snapshot, bytes, c.ownerAuth);
    var notes := FinalizedNotes(c, consumed, |Steps(c)|, |EffectiveInvariants(c)|);
    Ok(Verdict(events + [CalSettled(c.ch), CalFinalized(c.ch, Some(bill.gasRefunded), notes)], FINALIZED, None, bill))
  }

  /** After all steps: the gas budget, cal.executed, the invariants, settlement. */
  function AfterSteps(c: Context, events: seq<Event>, committed: seq<Json>): Result<Verdict, Gas.GasError> {
    var bytes :- Gas.EffectsBytes(committed);
    var raw :- RawGas(c, bytes);
    if raw > c.maxGas then ExecFail(c, events, OUT_OF_GAS, committed)
    else
      var executed := events + [CalExecuted(c.ch, Some(committed), Some(raw), IdNotes(c))];
      if c.tick > c.expiration then PostExpire(c, executed)
      else if !InvariantsHold(c) then ExecFail(c, executed, INVARIANT_FALSE, committed)
      else Finish(c, executed, bytes, raw)
  }

  function PhaseB(c: Context, events: seq<Event>): Result<Verdict, Gas.GasError> {
    hide *;
    if c.tick > c.expiration then PostExpire(c, events)
    else
      match RunSteps(c, 0, [])
      case (Some(reason), committed) => ExecFail(c, events, reason, committed)
      case (None, committed) => AfterSteps(c, events, committed)
  }

  // --- entry points ---

  function Validate(cal: Json, ch: string, snapshot: Json, trace: Trace): Result<Verdict, Gas.GasError> {
    var c := BuildContext(cal, ch, snapshot, trace);
    var stopped :- PhaseA(c);
    match stopped
    case Some(v) => Ok(v)
    case None => PhaseB(c, [ValidatedEvent(c)])
  }

  datatype ToValidated = ToValidated(terminal: Option<Verdict>, events: seq<Event>)

  function ValidateToValidated(cal: Json, ch: string, snapshot: Json, trace: Trace): Result<ToValidated, Gas.GasError> {
    var c := BuildContext(cal, ch, snapshot, trace);
    var stopped :- PhaseA(c);
    match stopped
    case Some(v) => Ok(ToValidated(Some(v), v.events))
    case None => Ok(ToValidated(None, [ValidatedEvent(c)]))
  }

  function ResumeFromValidated(cal: Json, ch: string, snapshot: Json, trace: Trace): Result<Verdict, Gas.GasError> {
    PhaseB(BuildContext(cal, ch, snapshot, trace), [])
  }

  // --- the loops of phase B ---

  method CheckPostConditions(c: Context, step: Json) returns (r: Option<Reason>)
    ensures r == PostConditions(c, step, Gas.Items(step.Get("post_conditions")))
  {
    hide PostCondition;
    var pcs := Gas.Items(step.Get("post_conditions"));
    for i := 0 to |pcs|
      invariant PostConditions(c, step, pcs) == PostConditions(c, step, pcs[i..])
    {
      r := PostCondition(c, step, pcs[i]);
      if r.Some? {
        return;
      }
      assert pcs[i..][1..] == pcs[i + 1..];
    }
    return None;
  }

  /** Phase B as the source runs it: the effects grow step by step, the first failure ends it. */
  method DrivePhaseB(c: Context, before: seq<Event>) returns (r: Result<Verdict, Gas.GasError>)
    ensures r == PhaseB(c, before)
  {
    hide PostConditions; hide PostExpire; hide ExecFail; hide Finish; hide RawGas; hide InvariantHolds;
    hide EffectiveInvariants;
    hide Steps; hide Gas.EffectsBytes; hide IdNotes;
    if c.tick > c.expiration {
      return PostExpire(c, before);
    }
    var steps := Steps(c);
    var committed: seq<Json> := [];
    for i := 0 to |steps|
      invariant RunSteps(c, 0, []) == RunSteps(c, i, committed)
    {
      if i >= |c.trace.steps| || !c.trace.steps[i].ok {
        return ExecFail(c, before, STEP_ERROR, committed);
      }
      committed := committed + c.trace.steps[i].effects;
      var failed := CheckPostConditions(c, steps[i]);
      if failed.Some? {
        return ExecFail(c, before, failed.value, committed);
      }
    }
    var bytes := Gas.EffectsBytes(committed);
    if bytes.Err? {
      return Err(bytes.error);
    }
    var raw := RawGas(c, bytes.value);
    if raw.Err? {
      return Err(raw.error);
    }
    if raw.value > c.maxGas {
      return ExecFail(c, before, OUT_OF_GAS, committed);
    }
    var events := before + [CalExecuted(c.ch, Some(committed), Some(raw.value), IdNotes(c))];
    if c.tick > c.expiration {
      return PostExpire(c, events);
    }
    var invariants := EffectiveInvariants(c);
    for i := 0 to |invariants|
      invariant forall j :: 0 <= j < i ==> InvariantHolds(c, invariants[j])
    {
      if !InvariantHolds(c, invariants[i]) {
        return ExecFail(c, events, INVARIANT_FALSE, committed);
      }
    }
    return Finish(c, events, bytes.value, raw.value);
  }
}
