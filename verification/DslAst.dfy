/** The constraint language: its tree, its limits, and the shape tests on one node. */
module DslAst {
  import opened Wrappers
  import opened JsonTree
  import opened Decimal
  import I256
  import Taxonomy

  datatype Scope = Precondition | PostCondition | Invariant | Gate
  datatype Version = V11 | V12
  datatype CmpOp = Lt | Lte | Gt | Gte
  datatype ArithOp = Add | Sub | Mul | Div | Mod

  datatype ConstVal =
    | CInt(n: int) | CBool(b: bool) | CStr(s: string) | CBytes32(s: string) | CAddress(s: string) | CNull

  datatype Expr =
    | Const(c: ConstVal)
    | Var(path: seq<string>)
    | Action(name: string)
    | Eq(neg: bool, lhs: Expr, rhs: Expr)
    | Cmp(cmp: CmpOp, lhs: Expr, rhs: Expr)
    | Arith(arith: ArithOp, lhs: Expr, rhs: Expr)
    | BoolOp(isAnd: bool, args: seq<Expr>)
    | Not(arg: Expr)
    | ContainsKey(lhs: Expr, rhs: Expr)
    | Size(arg: Expr)
    | RequiresScope(lhs: Expr, rhs: Expr)
    | IsOwnerRequired(arg: Expr)

  const MAX_DEPTH := 10
  const MAX_NODES := 100
  const MAX_PATH_SEGMENTS := 6
  const MAX_PATH_SEGMENTS_BRACKETED := 7
  const MAX_EXPRESSION_COST := 1000

  const C_BINARY := 1
  const C_CONTAINS_KEY := 10
  const C_SIZE := 20
  const C_GATE_OP := 5
  const C_PATH_SEGMENT := 2

  datatype Phase = ParsePhase | ValidationPhase | RuntimePhase

  datatype Reason =
    | NODE_LIMIT | DEPTH_LIMIT | COST_EXCEEDED | MALFORMED_NODE | MALFORMED_PATH | PATH_TOO_DEEP
    | BRACKETED_STATE_OUT_OF_SCOPE | V11_UNSUPPORTED | GATE_VAR_OUT_OF_SCOPE | UNKNOWN_VAR_ROOT
    | MALFORMED_ACTION | ACTION_OUT_OF_SCOPE | UNKNOWN_ACTION | UNEXPECTED_KEY | ARITY
    | GATE_OP_OUT_OF_SCOPE | UNKNOWN_OPERATOR | INT256_RANGE | NO_COLLECTION_LITERAL
    | NULL_MISUSE | TYPE_MISMATCH | OVERFLOW | MISSING_VAR | DIV_BY_ZERO | MOD_BY_ZERO
    | KEY_TYPE | STRING_UNASSIGNED | BYTES32_MALFORMED | ADDRESS_NONCANONICAL | NON_BOOLEAN_RESULT
    | UNSUPPORTED_VERSION | MALFORMED_ENVELOPE

  datatype Fault = Fault(phase: Phase, reason: Reason)

  function ParseFault(r: Reason): Fault { Fault(ParsePhase, r) }
  function Invalid(r: Reason): Fault { Fault(ValidationPhase, r) }
  function Runtime(r: Reason): Fault { Fault(RuntimePhase, r) }

  predicate IsHex(c: char) {
    IsDigit(c) || 'a' <= c <= 'f' || 'A' <= c <= 'F'
  }

  predicate IsLowerHex(c: char) {
    IsDigit(c) || 'a' <= c <= 'f'
  }

  predicate IsBytes32(s: string) {
    |s| == 66 && s[0] == '0' && s[1] == 'x' && forall i :: 2 <= i < 66 ==> IsHex(s[i])
  }

  function Lower(s: string): string {
    seq(|s|, i requires 0 <= i < |s| => if 'A' <= s[i] <= 'F' then (s[i] as int + 32) as char else s[i])
  }

  /** The position of the first colon, or the length. */
  function Colon(s: string): (k: nat)
    ensures k <= |s| && (k < |s| ==> s[k] == ':')
  {
    if s == "" then 0 else if s[0] == ':' then 0 else 1 + Colon(s[1..])
  }

  predicate IsRawHash(s: string) {
    |s| == 64 && forall i :: 0 <= i < 64 ==> IsLowerHex(s[i])
  }

  function StripMinus(s: string): string {
    if s != "" && s[0] == '-' then s[1..] else s
  }

  predicate IsAddressShaped(s: string) {
    var k := Colon(s);
    && k < |s|
    && IsRawHash(s[k + 1..])
    && StripMinus(s[..k]) != "" && AllDigits(StripMinus(s[..k]))
  }

  /** A raw address whose workchain is at most four digits and fits an int8. */
  predicate IsCanonicalAddress(s: string) {
    && IsAddressShaped(s)
    && var wc := s[..Colon(s)];
       var digits := StripMinus(wc);
       && |digits| <= 4
       && if wc[0] == '-' then Number(digits) <= 128 else Number(digits) <= 127
  }

  function Split(raw: string): (path: seq<string>)
    ensures path != []
    decreases |raw|
  {
    if raw == "" then [""]
    else
      var rest := Split(raw[1..]);
      if raw[0] == '.' then [""] + rest else [[raw[0]] + rest[0]] + rest[1..]
  }

  function BuildConst(v: Json): Result<ConstVal, Fault> {
    match v
    case Int(n) => if I256.InRange(n) then Ok(CInt(n)) else Err(Invalid(INT256_RANGE))
    case Bool(b) => Ok(CBool(b))
    case Null => Ok(CNull)
    case Str(s) =>
      if IsBytes32(s) then Ok(CBytes32("0x" + Lower(s[2..])))
      else if IsAddressShaped(s) then Ok(CAddress(s))
      else Ok(CStr(s))
    case Arr(_) => Err(Invalid(NO_COLLECTION_LITERAL))
    case Obj(_) => Err(Invalid(NO_COLLECTION_LITERAL))
  }

  predicate Bracketed(path: seq<string>) {
    |path| >= 2 && path[0] == "state" && (path[1] == "before" || path[1] == "after")
  }

  /** Which variables a scope and version admit. */
  function CheckPath(scope: Scope, version: Version, path: seq<string>): Result<(), Fault>
    requires path != []
  {
    if "" in path then Err(ParseFault(MALFORMED_PATH))
    else if |path| > (if Bracketed(path) then MAX_PATH_SEGMENTS_BRACKETED else MAX_PATH_SEGMENTS)
      then Err(ParseFault(PATH_TOO_DEEP))
    else if path[0] == "params" then Ok(())
    else if path[0] == "state" then
      if !Bracketed(path) then Ok(())
      else if scope != PostCondition && scope != Invariant then Err(ParseFault(BRACKETED_STATE_OUT_OF_SCOPE))
      else if version == V11 then Err(Invalid(V11_UNSUPPORTED))
      else Ok(())
    else if path[0] == "capability" || path[0] == "signatures" then
      if scope != Gate then Err(ParseFault(GATE_VAR_OUT_OF_SCOPE)) else Ok(())
    else Err(ParseFault(UNKNOWN_VAR_ROOT))
  }

  function CheckAction(scope: Scope, version: Version, action: Json): Result<string, Fault> {
    if !action.Str? then Err(ParseFault(MALFORMED_ACTION))
    else if scope != Gate then Err(ParseFault(ACTION_OUT_OF_SCOPE))
    else if version == V11 then Err(Invalid(V11_UNSUPPORTED))
    else if !Taxonomy.IsRegisteredAction(action.s) then Err(ParseFault(UNKNOWN_ACTION))
    else Ok(action.s)
  }

  /** An operator before its operands are parsed. */
  datatype Op =
    | OpEq(neg: bool) | OpCmp(cmp: CmpOp) | OpArith(arith: ArithOp) | OpBool(isAnd: bool)
    | OpNot | OpSize | OpContainsKey | OpRequiresScope | OpIsOwnerRequired

  function OpNamed(name: string): Option<Op> {
    if name == "add" then Some(OpArith(Add))
    else if name == "sub" then Some(OpArith(Sub))
    else if name == "mul" then Some(OpArith(Mul))
    else if name == "div" then Some(OpArith(Div))
    else if name == "mod" then Some(OpArith(Mod))
    else if name == "lt" then Some(OpCmp(Lt))
    else if name == "lte" then Some(OpCmp(Lte))
    else if name == "gt" then Some(OpCmp(Gt))
    else if name == "gte" then Some(OpCmp(Gte))
    else if name == "eq" then Some(OpEq(false))
    else if name == "neq" then Some(OpEq(true))
    else if name == "and" then Some(OpBool(true))
    else if name == "or" then Some(OpBool(false))
    else if name == "not" then Some(OpNot)
    else if name == "size" then Some(OpSize)
    else if name == "contains_key" then Some(OpContainsKey)
    else if name == "requires_scope" then Some(OpRequiresScope)
    else if name == "is_owner_required" then Some(OpIsOwnerRequired)
    else None
  }

  function OpCost(op: Op): nat {
    match op
    case OpSize => C_SIZE
    case OpContainsKey => C_CONTAINS_KEY
    case OpRequiresScope => C_GATE_OP
    case OpIsOwnerRequired => C_GATE_OP
    case _ => C_BINARY
  }

  predicate Arity(op: Op, n: nat) {
    match op
    case OpBool(_) => n >= 2
    case OpNot => n == 1
    case OpSize => n == 1
    case OpIsOwnerRequired => n == 1
    case _ => n == 2
  }

  /** Both operands by name, and no other key. */
  function Binary(fields: map<string, Json>): Result<seq<Json>, Fault> {
    if !(fields.Keys <= {"op", "lhs", "rhs"}) then Err(Invalid(UNEXPECTED_KEY))
    else if "lhs" !in fields || "rhs" !in fields then Err(Invalid(ARITY))
    else Ok([fields["lhs"], fields["rhs"]])
  }

  function Unary(fields: map<string, Json>): Result<seq<Json>, Fault> {
    if !(fields.Keys <= {"op", "arg"}) then Err(Invalid(UNEXPECTED_KEY))
    else if "arg" !in fields then Err(Invalid(ARITY))
    else Ok([fields["arg"]])
  }

  function Listed(fields: map<string, Json>): Result<seq<Json>, Fault> {
    if !(fields.Keys <= {"op", "args"}) then Err(Invalid(UNEXPECTED_KEY))
    else if "args" !in fields || !fields["args"].Arr? then Err(Invalid(ARITY))
    else Ok(fields["args"].items)
  }

  /** The operand nodes of an operator, after its scope, version, key and arity checks. */
  function Operands(scope: Scope, version: Version, op: Op, fields: map<string, Json>): (r: Result<seq<Json>, Fault>)
    ensures r.Ok? ==> Arity(op, |r.value|)
  {
    hide *;
    match op
    case OpNot => Unary(fields)
    case OpSize => Unary(fields)
    case OpBool(_) =>
      var args :- Listed(fields);
      if |args| < 2 then Err(Invalid(ARITY)) else Ok(args)
    case OpRequiresScope => GateArgs(scope, version, fields, 2)
    case OpIsOwnerRequired => GateArgs(scope, version, fields, 1)
    case _ => Binary(fields)
  }

  function GateArgs(scope: Scope, version: Version, fields: map<string, Json>, n: nat): Result<seq<Json>, Fault> {
    if scope != Gate then Err(ParseFault(GATE_OP_OUT_OF_SCOPE))
    else if version == V11 then Err(Invalid(V11_UNSUPPORTED))
    else
      var args :- Listed(fields);
      if |args| != n then Err(Invalid(ARITY)) else Ok(args)
  }

  datatype Head = HConst(c: ConstVal) | HVar(path: seq<string>) | HAction(name: string)
    | HOp(op: Op, operands: seq<Json>)

  function HeadCost(h: Head): nat {
    match h
    case HConst(_) => 0
    case HVar(path) => C_PATH_SEGMENT * |path|
    case HAction(_) => 0
    case HOp(op, _) => OpCost(op)
  }

  function Kids(h: Head): seq<Json> {
    if h.HOp? then h.operands else []
  }

  function Flag(b: bool): nat {
    if b then 1 else 0
  }

  /** All the checks of one node, in the source's order; the operands are left unparsed. */
  function ReadHead(scope: Scope, version: Version, j: Json): (r: Result<Head, Fault>)
    ensures r.Ok? && r.value.HOp? ==> Arity(r.value.op, |r.value.operands|)
  {
    hide *;
    if !j.Obj? then Err(ParseFault(MALFORMED_NODE))
    else
      var f := j.fields;
      if Flag("const" in f) + Flag("var" in f) + Flag("action" in f) + Flag("op" in f) != 1
        then Err(ParseFault(MALFORMED_NODE))
      else if "op" in f then
        if !f["op"].Str? then Err(ParseFault(MALFORMED_NODE))
        else
          match OpNamed(f["op"].s)
          case None => Err(Invalid(UNKNOWN_OPERATOR))
          case Some(op) =>
            var kids :- Operands(scope, version, op, f);
            Ok(HOp(op, kids))
      else if |f| != 1 then Err(ParseFault(MALFORMED_NODE))
      else if "const" in f then
        var c :- BuildConst(f["const"]);
        Ok(HConst(c))
      else if "var" in f then
        if !f["var"].Str? then Err(ParseFault(MALFORMED_NODE))
        else
          var path := Split(f["var"].s);
          var _ :- CheckPath(scope, version, path);
          Ok(HVar(path))
      else
        var a :- CheckAction(scope, version, f["action"]);
        Ok(HAction(a))
  }

  /** The operands of a node are proper parts of it. */
  lemma KidsSmaller(scope: Scope, version: Version, j: Json, i: nat)
    requires hide *; ReadHead(scope, version, j).Ok? && i < |Kids(ReadHead(scope, version, j).value)|
    ensures Kids(ReadHead(scope, version, j).value)[i] < j
  {
  }
}
