/** Gas units, prices, the escrow gate and the bill of a finished CAL. Every amount is read as uint256;
    their sums and products are unbounded naturals. */
module Gas {
  import opened Wrappers
  import opened JsonTree
  import opened DslAst
  import Deltas
  import Reducer
  import DslParse
  import Jcs
  import JcsText

  datatype GasError = DslFault(fault: Fault) | Canonical(code: JcsText.JcsCode)

  // --- prices ---

  const DEFAULT_GAS_PRICE := 1000
  const DEFAULT_FLAT_VALIDATION_FEE := 100000
  const GAS_LIMIT_FEE_MULTIPLIER := 100

  const GAS_PRICE: Path := ["governance", "gas_price_nano_ptra_per_unit"]
  const FLAT_FEE: Path := ["governance", "params", "flat_validation_fee_nano_ptra"]

  /** A uint256, or the default where there is none. */
  function AsBig(v: Option<Json>, default: nat): nat {
    match v case None => default case Some(j) => Deltas.AsUint(j).GetOr(default)
  }

  function GasPrice(state: Json): nat {
    AsBig(GetIn(state, GAS_PRICE), DEFAULT_GAS_PRICE)
  }

  function FlatFee(state: Json): nat {
    AsBig(GetIn(state, FLAT_FEE), DEFAULT_FLAT_VALIDATION_FEE)
  }

  function MaxGas(cal: Json, fee: nat): nat {
    AsBig(cal.Get("gas_limit_ptra"), fee * GAS_LIMIT_FEE_MULTIPLIER)
  }

  function EscrowRequirement(cal: Json, state: Json): nat {
    FlatFee(state) + MaxGas(cal, FlatFee(state))
  }

  function AgentId(cal: Json): Option<string> {
    match cal.Get("agent_id") case None => None case Some(v) => v.AsStr()
  }

  predicate CanValidate(cal: Json, state: Json) {
    match AgentId(cal)
    case None => false
    case Some(agent) => Reducer.Balance(state, agent) >= EscrowRequirement(cal, state)
  }

  // --- units ---

  const MCP_READ := 50
  const MCP_WRITE := 200
  const INVARIANT_BASE := 5
  const OWNER_AUTH_BASE := 50
  const ED25519_VERIFY_WEIGHT := 100

  function OwnerAuthUnits(k: nat): nat {
    if k == 0 then 0 else OWNER_AUTH_BASE + k * ED25519_VERIFY_WEIGHT
  }

  /** An expression, or an envelope that names its version. */
  function Envelope(node: Option<Json>): Result<(Option<Json>, Version), Fault> {
    match node
    case None => Ok((None, V12))
    case Some(obj) =>
      match obj.Get("dsl_version")
      case None => Ok((node, V12))
      case Some(v) =>
        if v == Str("1.1") then Ok((obj.Get("expr"), V11))
        else if v == Str("1.2") then Ok((obj.Get("expr"), V12))
        else Err(Invalid(UNSUPPORTED_VERSION))
  }

  function DslCost(node: Option<Json>, scope: Scope): Result<nat, GasError> {
    match Envelope(node)
    case Err(f) => Err(DslFault(f))
    case Ok((expr, version)) =>
      match expr
      case None => Err(DslFault(ParseFault(if node.Some? then MALFORMED_ENVELOPE else MALFORMED_NODE)))
      case Some(j) =>
        match DslParse.ExpressionCost(j, scope, version)
        case Err(f) => Err(DslFault(f))
        case Ok(n) => Ok(n)
  }

  /** A verb whose second segment starts with get_ reads; any other writes. */
  function McpCallUnits(verb: string): nat {
    var segments := Split(verb);
    if |segments| > 1 && "get_" <= segments[1] then MCP_READ else MCP_WRITE
  }

  function Utf8Length(text: string): nat {
    if text == "" then 0
    else
      var c := text[0] as int;
      (if c < 0x80 then 1 else if c < 0x800 then 2 else if c < 0x10000 then 3 else 4) + Utf8Length(text[1..])
  }

  /** The state rent: bytes of the canonical text of the committed effects. */
  function EffectsBytes(effects: seq<Json>): Result<nat, GasError> {
    match Jcs.CanonicalizeValue(Arr(effects))
    case Err(c) => Err(Canonical(c))
    case Ok(text) => Ok(Utf8Length(text))
  }

  function Items(v: Option<Json>): seq<Json> {
    match v case None => [] case Some(j) => if j.Arr? then j.items else []
  }

  function CostsOf(nodes: seq<Json>, scope: Scope, base: nat): Result<nat, GasError> {
    if nodes == [] then Ok(0)
    else
      var rest :- CostsOf(nodes[..|nodes| - 1], scope, base);
      var last :- DslCost(Some(nodes[|nodes| - 1]), scope);
      Ok(rest + base + last)
  }

  function VerbUnits(step: Json): nat {
    match step.Get("verb") case None => 0 case Some(v) => if v.Str? then McpCallUnits(v.s) else 0
  }

  function StepUnits(step: Json): Result<nat, GasError> {
    var conditions :- CostsOf(Items(step.Get("post_conditions")), PostCondition, 0);
    Ok(VerbUnits(step) + conditions)
  }

  function StepsUnits(steps: seq<Json>): Result<nat, GasError> {
    if steps == [] then Ok(0)
    else
      var rest :- StepsUnits(steps[..|steps| - 1]);
      var last :- StepUnits(steps[|steps| - 1]);
      Ok(rest + last)
  }

  /** What a CAL costs whatever it writes: preconditions, calls, post-conditions, invariants. */
  function StaticGasUnits(cal: Json): Result<nat, GasError> {
    var pre :- DslCost(cal.Get("preconditions"), Precondition);
    var steps :- StepsUnits(Items(cal.Get("steps")));
    var invariants :- CostsOf(Items(cal.Get("invariants")), Invariant, INVARIANT_BASE);
    Ok(pre + steps + invariants)
  }

  lemma {:induction false} CostsFail(nodes: seq<Json>, scope: Scope, base: nat, i: nat)
    requires hide *; i <= |nodes| && CostsOf(nodes[..i], scope, base).Err?
    ensures CostsOf(nodes, scope, base) == CostsOf(nodes[..i], scope, base)
    decreases |nodes|
  {
    if i < |nodes| {
      assert nodes[..|nodes| - 1][..i] == nodes[..i];
      CostsFail(nodes[..|nodes| - 1], scope, base, i);
    } else {
      assert nodes[..i] == nodes;
    }
  }

  lemma {:induction false} StepsFail(steps: seq<Json>, i: nat)
    requires hide *; i <= |steps| && StepsUnits(steps[..i]).Err?
    ensures StepsUnits(steps) == StepsUnits(steps[..i])
    decreases |steps|
  {
    if i < |steps| {
      assert steps[..|steps| - 1][..i] == steps[..i];
      StepsFail(steps[..|steps| - 1], i);
    } else {
      assert steps[..i] == steps;
    }
  }

  method AddCosts(u: nat, nodes: seq<Json>, scope: Scope, base: nat) returns (r: Result<nat, GasError>)
    ensures r == match CostsOf(nodes, scope, base) case Err(e) => Err(e) case Ok(n) => Ok(u + n)
  {
    hide DslCost;
    var sum := u;
    for i := 0 to |nodes|
      invariant CostsOf(nodes[..i], scope, base).Ok? && sum == u + CostsOf(nodes[..i], scope, base).value
    {
      assert nodes[..i + 1][..i] == nodes[..i];
      var c := DslCost(Some(nodes[i]), scope);
      if c.Err? {
        CostsFail(nodes, scope, base, i + 1);
        return Err(c.error);
      }
      sum := sum + base + c.value;
    }
    assert nodes[..|nodes|] == nodes;
    return Ok(sum);
  }

  /** The accumulator of the source, over steps and their post-conditions, then invariants. */
  method SumStaticGasUnits(cal: Json) returns (r: Result<nat, GasError>)
    ensures r == StaticGasUnits(cal)
  {
    hide DslCost; hide CostsOf; hide VerbUnits;
    var pre := DslCost(cal.Get("preconditions"), Precondition);
    if pre.Err? {
      return pre;
    }
    var u := pre.value;
    var steps := Items(cal.Get("steps"));
    for i := 0 to |steps|
      invariant StepsUnits(steps[..i]).Ok? && u == pre.value + StepsUnits(steps[..i]).value
    {
      assert steps[..i + 1][..i] == steps[..i];
      var c := AddCosts(u + VerbUnits(steps[i]), Items(steps[i].Get("post_conditions")), PostCondition, 0);
      if c.Err? {
        StepsFail(steps, i + 1);
        return c;
      }
      u := c.value;
    }
    assert steps[..|steps|] == steps;
    r := AddCosts(u, Items(cal.Get("invariants")), Invariant, INVARIANT_BASE);
  }

  function GasUnits(cal: Json, bytesWritten: nat, ownerAuth: nat): Result<nat, GasError> {
    var u :- StaticGasUnits(cal);
    Ok(u + bytesWritten + ownerAuth)
  }

  // --- settlement ---

  datatype Outcome = Finalized | FailedPrecond | FailedNoCharge | FailedExec | ExpiredPre | ExpiredPost

  datatype GasBill = GasBill(feeRetained: nat, dynamicGasConsumed: nat, gasRefunded: nat, totalAgentCharge: nat)

  const NO_CHARGE := GasBill(0, 0, 0, 0)

  function Min(a: nat, b: nat): nat {
    if a < b then a else b
  }

  function Settle(outcome: Outcome, cal: Json, state: Json, bytesWritten: nat, ownerAuth: nat)
    : Result<GasBill, GasError>
  {
    hide *;
    var fee := FlatFee(state);
    var maxGas := MaxGas(cal, fee);
    match outcome
    case ExpiredPre => Ok(NO_CHARGE)
    case FailedNoCharge => Ok(NO_CHARGE)
    case FailedPrecond =>
      var balance := match AgentId(cal) case None => 0 case Some(agent) => Reducer.Balance(state, agent);
      var spam := Min(balance, fee);
      Ok(GasBill(spam, 0, 0, spam))
    case ExpiredPost => Ok(GasBill(fee, 0, maxGas, fee))
    case Finalized => ConsumedBill(cal, state, bytesWritten, ownerAuth)
    case FailedExec => ConsumedBill(cal, state, bytesWritten, ownerAuth)
  }

  function ToNano(units: nat, price: nat): nat {
    units * price
  }

  /** Fee plus the gas used, capped at the budget; the rest of the budget goes back. */
  function Capped(fee: nat, raw: nat, maxGas: nat): GasBill {
    var consumed := Min(raw, maxGas);
    GasBill(fee, consumed, maxGas - consumed, fee + consumed)
  }

  function ConsumedBill(cal: Json, state: Json, bytesWritten: nat, ownerAuth: nat): Result<GasBill, GasError> {
    var units :- GasUnits(cal, bytesWritten, ownerAuth);
    Ok(Capped(FlatFee(state), ToNano(units, GasPrice(state)), MaxGas(cal, FlatFee(state))))
  }

  lemma MinLeast(a: nat, b: nat)
    ensures Min(a, b) <= a && Min(a, b) <= b
  {
  }

  lemma ConsumedAddsUp(cal: Json, state: Json, bytesWritten: nat, ownerAuth: nat)
    ensures hide *; var r := ConsumedBill(cal, state, bytesWritten, ownerAuth);
      r.Ok? ==>
        && r.value.totalAgentCharge == r.value.feeRetained + r.value.dynamicGasConsumed
        && r.value.totalAgentCharge + r.value.gasRefunded == EscrowRequirement(cal, state)
        && r.value.feeRetained == FlatFee(state)
  {
    hide GasUnits; hide MaxGas; hide FlatFee; hide GasPrice; hide ToNano;
  }

  /** Every bill adds up: the charge is what is retained plus what was consumed; after VALIDATED the
      fee retained is the flat fee, and charge and refund together are exactly the escrow. */
  lemma BillAddsUp(outcome: Outcome, cal: Json, state: Json, bytesWritten: nat, ownerAuth: nat)
    ensures hide *; var r := Settle(outcome, cal, state, bytesWritten, ownerAuth);
      r.Ok? ==>
        && r.value.totalAgentCharge == r.value.feeRetained + r.value.dynamicGasConsumed
        && (outcome in {Finalized, FailedExec, ExpiredPost} ==>
            r.value.feeRetained == FlatFee(state) &&
            r.value.totalAgentCharge + r.value.gasRefunded == EscrowRequirement(cal, state))
        && (outcome == FailedPrecond && AgentId(cal).Some? ==>
            r.value.totalAgentCharge <= Reducer.Balance(state, AgentId(cal).value))
        && (outcome in {ExpiredPre, FailedNoCharge} ==> r.value == NO_CHARGE)
  {
    hide GasUnits; hide MaxGas; hide FlatFee; hide GasPrice; hide AgentId; hide ToNano; hide Reducer.Balance;
    hide Capped; hide Min;
    hide ConsumedBill;
    MinLeast(if AgentId(cal).Some? then Reducer.Balance(state, AgentId(cal).value) else 0, FlatFee(state));
    ConsumedAddsUp(cal, state, bytesWritten, ownerAuth);
  }
}
