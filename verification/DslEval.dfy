/** The total evaluator: every expression has a value or a fault on every binding. */
module DslEval {
  import opened Wrappers
  import opened JsonTree
  import opened Text
  import opened DslAst
  import opened DslParse
  import I256
  import Jcs
  import Taxonomy

  /** Integers are kept within int256 by every operation that makes one. */
  datatype Value =
    | VInt(n: int) | VBool(b: bool) | VStr(s: string) | VBytes32(s: string) | VAddress(s: string)
    | VList(items: seq<Value>) | VMap(entries: map<string, Value>) | VNull

  datatype Bindings = Bindings(
    state: Option<Json>, before: Option<Json>, after: Option<Json>,
    params: Option<Json>, capability: Option<Json>, signatures: Option<Json>)

  const NO_BINDINGS := Bindings(None, None, None, None, None, None)

  function ConstValue(c: ConstVal): Result<Value, Fault> {
    match c
    case CInt(n) => Ok(VInt(n))
    case CBool(b) => Ok(VBool(b))
    case CStr(s) => Ok(VStr(s))
    case CBytes32(s) => if IsBytes32(s) then Ok(VBytes32("0x" + Lower(s[2..]))) else Err(Invalid(BYTES32_MALFORMED))
    case CAddress(s) => if IsCanonicalAddress(s) then Ok(VAddress(s)) else Err(Invalid(ADDRESS_NONCANONICAL))
    case CNull => Ok(VNull)
  }

  /** Every integer inside is an int256; the only way materializing can fail. */
  predicate IntsFit(j: Json) {
    match j
    case Int(n) => I256.InRange(n)
    case Arr(items) => forall i :: 0 <= i < |items| ==> IntsFit(items[i])
    case Obj(fields) => forall k :: k in fields ==> IntsFit(fields[k])
    case _ => true
  }

  function Lifted(j: Json): Value
    requires IntsFit(j)
  {
    match j
    case Null => VNull
    case Bool(b) => VBool(b)
    case Int(n) => VInt(n)
    case Str(s) =>
      if IsCanonicalAddress(s) then VAddress(s)
      else if IsBytes32(s) then VBytes32("0x" + Lower(s[2..]))
      else VStr(s)
    case Arr(items) => VList(seq(|items|, i requires 0 <= i < |items| => Lifted(items[i])))
    case Obj(fields) => VMap(map k | k in fields :: Lifted(fields[k]))
  }

  function Materialize(j: Json): Result<Value, Fault> {
    if IntsFit(j) then Ok(Lifted(j)) else Err(Invalid(INT256_RANGE))
  }

  function KeyForm(v: Value): Result<string, Fault> {
    match v
    case VStr(s) => Ok(s)
    case VAddress(a) => Ok(a)
    case VBytes32(h) => Ok(h)
    case _ => Err(Invalid(KEY_TYPE))
  }

  /** Structural equality; null compares with anything, other types must match. */
  function ValuesEqual(a: Value, b: Value): Result<bool, Fault>
    decreases a, 1, 0
  {
    if a.VNull? || b.VNull? then Ok(a.VNull? && b.VNull?)
    else
      match (a, b)
      case (VInt(x), VInt(y)) => Ok(x == y)
      case (VBool(x), VBool(y)) => Ok(x == y)
      case (VStr(x), VStr(y)) => if Jcs.Bomless(x) && Jcs.Bomless(y) then Ok(x == y)
        else Err(Runtime(STRING_UNASSIGNED))
      case (VBytes32(x), VBytes32(y)) => Ok(x == y)
      case (VAddress(x), VAddress(y)) => Ok(x == y)
      case (VList(x), VList(y)) => if |x| != |y| then Ok(false) else ItemsEqual(a, y, 0)
      case (VMap(x), VMap(y)) => if |x| != |y| then Ok(false) else EntriesEqual(a, y, x.Keys)
      case _ => Err(Invalid(TYPE_MISMATCH))
  }

  function ItemsEqual(a: Value, y: seq<Value>, i: nat): Result<bool, Fault>
    requires a.VList? && |a.items| == |y| && i <= |y|
    decreases a, 0, |y| - i
  {
    if i == |y| then Ok(true)
    else
      var eq :- ValuesEqual(a.items[i], y[i]);
      if eq then ItemsEqual(a, y, i + 1) else Ok(false)
  }

  /** Key by key, in canonical key order, stopping at the first difference. */
  function EntriesEqual(a: Value, y: map<string, Value>, left: set<string>): Result<bool, Fault>
    requires a.VMap? && left <= a.entries.Keys
    decreases a, 0, |left|
  {
    if left == {} then Ok(true)
    else
      var k := Least(left);
      if k !in y then Ok(false)
      else
        var eq :- ValuesEqual(a.entries[k], y[k]);
        if eq then EntriesEqual(a, y, left - {k}) else Ok(false)
  }

  function RequireInt(v: Value): Result<int, Fault> {
    match v
    case VInt(n) => Ok(n)
    case VNull => Err(Runtime(NULL_MISUSE))
    case _ => Err(Invalid(TYPE_MISMATCH))
  }

  function RequireBool(v: Value): Result<bool, Fault> {
    match v
    case VBool(b) => Ok(b)
    case VNull => Err(Runtime(NULL_MISUSE))
    case _ => Err(Invalid(TYPE_MISMATCH))
  }

  function RequireString(v: Value): Result<string, Fault> {
    match v
    case VStr(s) => Ok(s)
    case VNull => Err(Runtime(NULL_MISUSE))
    case _ => Err(Invalid(TYPE_MISMATCH))
  }

  function Checked(r: Option<int>): Result<Value, Fault> {
    match r case Some(n) => Ok(VInt(n)) case None => Err(Runtime(OVERFLOW))
  }

  function Calculate(op: ArithOp, l: int, r: int): Result<Value, Fault> {
    match op
    case Add => Checked(I256.Checked(l + r))
    case Sub => Checked(I256.Checked(l - r))
    case Mul => Checked(I256.Checked(l * r))
    case Div => if r == 0 then Err(Runtime(DIV_BY_ZERO)) else Checked(I256.Checked(I256.TruncDiv(l, r)))
    case Mod => if r == 0 then Err(Runtime(MOD_BY_ZERO)) else Ok(VInt(l % r))
  }

  function Compare(op: CmpOp, l: int, r: int): bool {
    match op case Lt => l < r case Lte => l <= r case Gt => l > r case Gte => l >= r
  }

  /** The binding a variable reads and the path inside it. */
  function Base(scope: Scope, path: seq<string>, b: Bindings): Option<(Option<Json>, seq<string>)>
    requires path != []
  {
    if path[0] == "params" then Some((b.params, path[1..]))
    else if path[0] == "capability" then Some((b.capability, path[1..]))
    else if path[0] == "signatures" then Some((b.signatures, path[1..]))
    else if path[0] == "state" then
      if |path| > 1 && path[1] == "before" then Some((b.before, path[2..]))
      else if |path| > 1 && path[1] == "after" then Some((b.after, path[2..]))
      else if scope == PostCondition || scope == Invariant then Some((b.before, path[1..]))
      else Some((b.state, path[1..]))
    else None
  }

  function ResolvePath(scope: Scope, path: seq<string>, b: Bindings): Result<Value, Fault> {
    if path == [] then Err(Runtime(MISSING_VAR))
    else
      match Base(scope, path, b)
      case None => Err(Runtime(MISSING_VAR))
      case Some((base, rest)) =>
        if base.None? then Err(Runtime(MISSING_VAR))
        else
          match GetIn(base.value, rest)
          case None => Err(Runtime(MISSING_VAR))
          case Some(j) => Materialize(j)
  }

  /** The walk of the source: one object key after the other. */
  method Walk(base: Json, rest: seq<string>) returns (r: Option<Json>)
    ensures r == GetIn(base, rest)
  {
    var cur := base;
    for i := 0 to |rest|
      invariant GetIn(base, rest) == GetIn(cur, rest[i..])
    {
      match cur.Get(rest[i]) {
        case None => return None;
        case Some(v) => cur := v;
      }
      assert rest[i..][1..] == rest[i + 1..];
    }
    return Some(cur);
  }

  function FirstFault(rs: seq<Result<Value, Fault>>, phase: Phase): Option<Fault> {
    if rs == [] then None
    else if rs[0].Err? && rs[0].error.phase == phase then Some(rs[0].error)
    else FirstFault(rs[1..], phase)
  }

  function FoldBools(isAnd: bool, rs: seq<Result<Value, Fault>>, acc: bool): Result<Value, Fault>
    decreases |rs|
  {
    if rs == [] then Ok(VBool(acc))
    else
      var v :- rs[0];
      var t :- RequireBool(v);
      FoldBools(isAnd, rs[1..], if isAnd then acc && t else acc || t)
  }

  /** No short circuit: a runtime fault wins over a validation fault, and both over any value. */
  function Combine(isAnd: bool, rs: seq<Result<Value, Fault>>): Result<Value, Fault> {
    match FirstFault(rs, RuntimePhase)
    case Some(f) => Err(f)
    case None =>
      match FirstFault(rs, ValidationPhase)
      case Some(f) => Err(f)
      case None => FoldBools(isAnd, rs, isAnd)
  }

  lemma {:induction false} FirstFaultFinds(rs: seq<Result<Value, Fault>>, phase: Phase)
    ensures var f := FirstFault(rs, phase);
      && (f.Some? ==> f.value.phase == phase && Err(f.value) in rs)
      && (f.None? ==> forall i :: 0 <= i < |rs| && rs[i].Err? ==> rs[i].error.phase != phase)
  {
    if rs != [] {
      FirstFaultFinds(rs[1..], phase);
      assert rs == [rs[0]] + rs[1..];
    }
  }

  /** Faults dominate by phase: some argument that fails at run time makes the whole a run-time
      fault; failing that, an invalid argument makes it invalid. */
  lemma FaultsDominate(isAnd: bool, rs: seq<Result<Value, Fault>>)
    requires forall r :: r in rs && r.Err? ==> r.error.phase != ParsePhase
    ensures (exists r :: r in rs && r.Err? && r.error.phase == RuntimePhase) ==>
      Combine(isAnd, rs).Err? && Combine(isAnd, rs).error.phase == RuntimePhase && Combine(isAnd, rs) in rs
    ensures (exists r :: r in rs && r.Err?) && (forall r :: r in rs && r.Err? ==> r.error.phase == ValidationPhase) ==>
      Combine(isAnd, rs).Err? && Combine(isAnd, rs).error.phase == ValidationPhase && Combine(isAnd, rs) in rs
    ensures (forall r :: r in rs ==> r.Ok? && r.value.VBool?) ==>
      Combine(isAnd, rs)
        == Ok(VBool(if isAnd then forall r :: r in rs ==> r.value.b else exists r :: r in rs && r.value.b))
  {
    FirstFaultFinds(rs, RuntimePhase);
    FirstFaultFinds(rs, ValidationPhase);
    if forall r :: r in rs ==> r.Ok? && r.value.VBool? {
      FoldBoolsMeaning(isAnd, rs, isAnd);
    }
    hide FirstFault; hide FoldBools;
  }

  lemma {:induction false} FoldBoolsMeaning(isAnd: bool, rs: seq<Result<Value, Fault>>, acc: bool)
    requires forall r :: r in rs ==> r.Ok? && r.value.VBool?
    ensures FoldBools(isAnd, rs, acc) == Ok(VBool(
      if isAnd then acc && forall r :: r in rs ==> r.value.b else acc || exists r :: r in rs && r.value.b))
    decreases |rs|
  {
    if rs != [] {
      assert rs == [rs[0]] + rs[1..];
      FoldBoolsMeaning(isAnd, rs[1..], if isAnd then acc && rs[0].value.b else acc || rs[0].value.b);
    }
  }

  /** The three passes of the source over the argument results. */
  method EvalBoolean(isAnd: bool, rs: seq<Result<Value, Fault>>) returns (r: Result<Value, Fault>)
    ensures r == Combine(isAnd, rs)
  {
    for i := 0 to |rs|
      invariant FirstFault(rs, RuntimePhase) == FirstFault(rs[i..], RuntimePhase)
    {
      if rs[i].Err? && rs[i].error.phase == RuntimePhase {
        return rs[i];
      }
      assert rs[i..][1..] == rs[i + 1..];
    }
    for i := 0 to |rs|
      invariant FirstFault(rs, ValidationPhase) == FirstFault(rs[i..], ValidationPhase)
    {
      if rs[i].Err? && rs[i].error.phase == ValidationPhase {
        return rs[i];
      }
      assert rs[i..][1..] == rs[i + 1..];
    }
    var acc := isAnd;
    for i := 0 to |rs|
      invariant FoldBools(isAnd, rs, isAnd) == FoldBools(isAnd, rs[i..], acc)
    {
      if rs[i].Err? {
        return rs[i];
      }
      var t := RequireBool(rs[i].value);
      if t.Err? {
        return Err(t.error);
      }
      acc := if isAnd then acc && t.value else acc || t.value;
      assert rs[i..][1..] == rs[i + 1..];
    }
    return Ok(VBool(acc));
  }

  function Eval(e: Expr, b: Bindings, scope: Scope): Result<Value, Fault>
    decreases e, 1, 0
  {
    match e
    case Const(c) => ConstValue(c)
    case Var(path) => ResolvePath(scope, path, b)
    case Action(a) => Ok(VStr(a))
    case Eq(neg, lhs, rhs) =>
      var l :- Eval(lhs, b, scope);
      var r :- Eval(rhs, b, scope);
      var eq :- ValuesEqual(l, r);
      Ok(VBool(eq != neg))
    case Cmp(op, lhs, rhs) =>
      var (l, r) :- EvalInts(e, lhs, rhs, b, scope);
      Ok(VBool(Compare(op, l, r)))
    case Arith(op, lhs, rhs) =>
      var (l, r) :- EvalInts(e, lhs, rhs, b, scope);
      Calculate(op, l, r)
    case BoolOp(isAnd, args) => Combine(isAnd, EvalAll(e, 0, b, scope))
    case Not(arg) =>
      var v :- Eval(arg, b, scope);
      var t :- RequireBool(v);
      Ok(VBool(!t))
    case ContainsKey(lhs, rhs) =>
      var m :- Eval(lhs, b, scope);
      if m.VNull? then Err(Runtime(NULL_MISUSE))
      else if !m.VMap? then Err(Invalid(TYPE_MISMATCH))
      else
        var v :- Eval(rhs, b, scope);
        var k :- KeyForm(v);
        Ok(VBool(k in m.entries))
    case Size(arg) =>
      var v :- Eval(arg, b, scope);
      (match v
       case VList(items) => Ok(VInt(|items|))
       case VMap(entries) => Ok(VInt(|entries|))
       case VNull => Ok(VInt(0))
       case _ => Err(Invalid(TYPE_MISMATCH)))
    case RequiresScope(lhs, rhs) =>
      var l :- Eval(lhs, b, scope);
      var a :- RequireString(l);
      var r :- Eval(rhs, b, scope);
      var s :- RequireString(r);
      Ok(VBool(Taxonomy.RequiresScope(a, s)))
    case IsOwnerRequired(arg) =>
      var v :- Eval(arg, b, scope);
      var a :- RequireString(v);
      Ok(VBool(Taxonomy.IsOwnerRequired(a)))
  }

  function EvalInts(e: Expr, lhs: Expr, rhs: Expr, b: Bindings, scope: Scope): Result<(int, int), Fault>
    requires lhs < e && rhs < e
    decreases e, 0, 0
  {
    var l :- Eval(lhs, b, scope);
    var x :- RequireInt(l);
    var r :- Eval(rhs, b, scope);
    var y :- RequireInt(r);
    Ok((x, y))
  }

  function EvalAll(e: Expr, i: nat, b: Bindings, scope: Scope): (rs: seq<Result<Value, Fault>>)
    requires e.BoolOp? && i <= |e.args|
    ensures |rs| == |e.args| - i
    decreases e, 0, |e.args| - i
  {
    hide *;
    if i == |e.args| then [] else [Eval(e.args[i], b, scope)] + EvalAll(e, i + 1, b, scope)
  }

  datatype Outcome = EvaluationTrue | EvaluationFalse | Faulted(phase: Phase, reason: Reason)

  function Evaluate(e: Expr, b: Bindings, scope: Scope): Outcome {
    hide *;
    match Eval(e, b, scope)
    case Err(f) => Faulted(f.phase, f.reason)
    case Ok(v) =>
      if !v.VBool? then Faulted(ValidationPhase, NON_BOOLEAN_RESULT)
      else if v.b then EvaluationTrue else EvaluationFalse
  }

  function Run(j: Json, scope: Scope, version: Version, b: Bindings): Outcome {
    match ParseExpression(j, scope, version)
    case Err(f) => Faulted(f.phase, f.reason)
    case Ok(e) => Evaluate(e, b, scope)
  }

  // --- a scope sees its own bindings only ---

  /** The two sets of bindings agree on what the scope may read. */
  predicate SameView(scope: Scope, b: Bindings, c: Bindings) {
    && b.params == c.params
    && match scope
       case Precondition => b.state == c.state
       case PostCondition => b.before == c.before && b.after == c.after
       case Invariant => b.before == c.before && b.after == c.after
       case Gate => b.state == c.state && b.capability == c.capability && b.signatures == c.signatures
  }

  /** Every variable of the tree passed the scope's check. */
  predicate Admitted(scope: Scope, version: Version, e: Expr)
    decreases e, 1, 0
  {
    match e
    case Var(path) => path != [] && CheckPath(scope, version, path).Ok?
    case Eq(_, l, r) => Admitted(scope, version, l) && Admitted(scope, version, r)
    case Cmp(_, l, r) => Admitted(scope, version, l) && Admitted(scope, version, r)
    case Arith(_, l, r) => Admitted(scope, version, l) && Admitted(scope, version, r)
    case BoolOp(_, args) => AdmittedAll(scope, version, e, 0)
    case Not(a) => Admitted(scope, version, a)
    case ContainsKey(l, r) => Admitted(scope, version, l) && Admitted(scope, version, r)
    case Size(a) => Admitted(scope, version, a)
    case RequiresScope(l, r) => Admitted(scope, version, l) && Admitted(scope, version, r)
    case IsOwnerRequired(a) => Admitted(scope, version, a)
    case _ => true
  }

  predicate AdmittedAll(scope: Scope, version: Version, e: Expr, i: nat)
    requires e.BoolOp? && i <= |e.args|
    decreases e, 0, |e.args| - i
  {
    i == |e.args| || (Admitted(scope, version, e.args[i]) && AdmittedAll(scope, version, e, i + 1))
  }

  lemma ResolveSameView(scope: Scope, version: Version, path: seq<string>, b: Bindings, c: Bindings)
    requires hide *; path != [] && CheckPath(scope, version, path).Ok? && SameView(scope, b, c)
    ensures ResolvePath(scope, path, b) == ResolvePath(scope, path, c)
  {
  }

  predicate IsBinary(e: Expr) {
    e.Eq? || e.Cmp? || e.Arith? || e.ContainsKey? || e.RequiresScope?
  }

  predicate IsUnary(e: Expr) {
    e.Not? || e.Size? || e.IsOwnerRequired?
  }

  /** A node whose parts evaluate alike evaluates alike. */
  lemma NodeSameView(e: Expr, scope: Scope, b: Bindings, c: Bindings)
    requires e.Var? ==> ResolvePath(scope, e.path, b) == ResolvePath(scope, e.path, c)
    requires e.BoolOp? ==> EvalAll(e, 0, b, scope) == EvalAll(e, 0, c, scope)
    requires IsBinary(e)
      ==> Eval(e.lhs, b, scope) == Eval(e.lhs, c, scope) && Eval(e.rhs, b, scope) == Eval(e.rhs, c, scope)
    requires IsUnary(e) ==> Eval(e.arg, b, scope) == Eval(e.arg, c, scope)
    ensures Eval(e, b, scope) == Eval(e, c, scope)
  {
    hide ResolvePath; hide ConstValue; hide ValuesEqual; hide Calculate; hide Compare; hide Combine;
    hide RequireInt; hide RequireBool; hide RequireString; hide KeyForm; hide EvalAll;
    match e {
      case BoolOp(_, _) =>
      case Eq(_, _, _) =>
      case Cmp(_, _, _) =>
      case Arith(_, _, _) =>
      case ContainsKey(_, _) =>
      case RequiresScope(_, _) =>
      case _ =>
    }
  }

  lemma AdmittedParts(scope: Scope, version: Version, e: Expr)
    requires Admitted(scope, version, e)
    ensures e.Var? ==> e.path != [] && CheckPath(scope, version, e.path).Ok?
    ensures e.BoolOp? ==> AdmittedAll(scope, version, e, 0)
    ensures IsBinary(e) ==> Admitted(scope, version, e.lhs) && Admitted(scope, version, e.rhs)
    ensures IsUnary(e) ==> Admitted(scope, version, e.arg)
  {
    hide CheckPath; hide AdmittedAll;
  }

  lemma {:induction false} EvalSameView(e: Expr, scope: Scope, version: Version, b: Bindings, c: Bindings)
    requires Admitted(scope, version, e) && SameView(scope, b, c)
    ensures Eval(e, b, scope) == Eval(e, c, scope)
    decreases e, 1, 0
  {
    hide Admitted; hide Eval; hide EvalAll; hide CheckPath; hide ResolvePath; hide SameView; hide AdmittedAll;
    AdmittedParts(scope, version, e);
    if e.Var? {
      ResolveSameView(scope, version, e.path, b, c);
    } else if e.BoolOp? {
      EvalAllSameView(e, 0, scope, version, b, c);
    } else if IsBinary(e) {
      EvalSameView(e.lhs, scope, version, b, c);
      EvalSameView(e.rhs, scope, version, b, c);
    } else if IsUnary(e) {
      EvalSameView(e.arg, scope, version, b, c);
    }
    NodeSameView(e, scope, b, c);
  }

  lemma {:induction false} EvalAllSameView(e: Expr, i: nat, scope: Scope, version: Version, b: Bindings, c: Bindings)
    requires hide *; e.BoolOp? && i <= |e.args| && AdmittedAll(scope, version, e, i) && SameView(scope, b, c)
    ensures EvalAll(e, i, b, scope) == EvalAll(e, i, c, scope)
    decreases e, 0, |e.args| - i
  {
    hide Eval; hide Admitted; hide SameView;
    if i < |e.args| {
      EvalSameView(e.args[i], scope, version, b, c);
      EvalAllSameView(e, i + 1, scope, version, b, c);
    }
  }
}
