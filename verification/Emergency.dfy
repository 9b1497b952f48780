/** The injected emergency invariants, exactly: they hold when the state that the trace claims after the
    CAL is still in bounded mode and neither the net asset value nor the developer fund is lower there
    than in the state it claims before. What that says of the live state hangs on the claims: with
    truthful ones the guards carry over, and without, a CAL can finalize and lower the value. */
module Emergency {
  import opened Wrappers
  import opened JsonTree
  import opened DslAst
  import opened DslParse
  import opened DslEval
  import DslMeasure
  import Events
  import Gas
  import Gates
  import I256
  import V = Validator

  // --- reading paths ---

  lemma {:induction false} SplitWord(word: string, rest: string)
    requires '.' !in word
    ensures Split(word + "." + rest) == [word] + Split(rest)
    decreases |word|
  {
    var raw := word + "." + rest;
    if word == "" {
      assert raw[0] == '.' && raw[1..] == rest;
    } else {
      assert raw[0] == word[0] && raw[1..] == word[1..] + "." + rest;
      assert '.' !in word[1..];
      SplitWord(word[1..], rest);
      assert [word[0]] + word[1..] == word;
      assert ([word[1..]] + Split(rest))[1..] == Split(rest);
    }
  }

  lemma {:induction false} SplitLast(word: string)
    requires '.' !in word
    ensures Split(word) == [word]
    decreases |word|
  {
    if word != "" {
      assert '.' !in word[1..];
      SplitLast(word[1..]);
      assert [word[0]] + word[1..] == word;
      assert Split(word) == [[word[0]] + word[1..]] + [];
    }
  }

  /** Four words joined by dots split into those words. */
  lemma SplitFour(a: string, b: string, c: string, d: string)
    requires '.' !in a && '.' !in b && '.' !in c && '.' !in d
    ensures Split(a + "." + (b + "." + (c + "." + d))) == [a, b, c, d]
  {
    hide Split;
    SplitWord(a, b + "." + (c + "." + d));
    SplitWord(b, c + "." + d);
    SplitWord(c, d);
    SplitLast(d);
  }

  // --- what the three kinds of nodes parse to ---

  /** The node is well formed, with this tree and these totals. */
  predicate ParsesTo(j: Json, e: Expr, t: Totals) {
    hide *;
    Shaped(Invariant, V12, j) && Measured(Invariant, V12, j) == Measure(e, t.depth, t.nodes, t.cost)
  }

  predicate Within(t: Totals) {
    t.depth <= MAX_DEPTH && t.nodes <= MAX_NODES && t.cost <= MAX_EXPRESSION_COST
  }

  lemma VarHead(path: string)
    requires hide *; CheckPath(Invariant, V12, Split(path)).Ok?
    ensures ReadHead(Invariant, V12, V.VarNode(path)) == Ok(HVar(Split(path)))
  {
    hide CheckPath; hide Split; hide BuildConst; hide Operands;
    assert "var"[0] == 'v' && "const"[0] == 'c' && "action"[0] == 'a' && "op"[0] == 'o';
  }

  lemma ConstHead(v: Json)
    requires hide *; BuildConst(v).Ok?
    ensures ReadHead(Invariant, V12, V.ConstNode(v)) == Ok(HConst(BuildConst(v).value))
  {
    hide CheckPath; hide Split; hide BuildConst; hide Operands;
    assert "var"[0] == 'v' && "const"[0] == 'c' && "action"[0] == 'a' && "op"[0] == 'o';
  }

  lemma OperatorHead(name: string, op: Op, l: Json, r: Json)
    requires OpNamed(name) == Some(op) && (op.OpEq? || op.OpCmp? || op.OpArith?)
    ensures ReadHead(Invariant, V12, V.BinaryNode(name, l, r)) == Ok(HOp(op, [l, r]))
  {
    hide CheckPath; hide Split; hide BuildConst; hide OpNamed;
    assert "var"[0] == 'v' && "const"[0] == 'c' && "action"[0] == 'a' && "op"[0] == 'o' && "lhs"[0] == 'l'
      && "rhs"[0] == 'r';
  }

  lemma LeafParses(j: Json, h: Head)
    requires ReadHead(Invariant, V12, j) == Ok(h) && !h.HOp?
    ensures ParsesTo(j, Assemble(h, []), Totals(1, 1, HeadCost(h)))
  {
    hide ReadHead; hide HeadCost; hide Assemble; hide Shaped; hide Measured; hide Build; hide BuildKids;
    NodeUnfolds(Invariant, V12, j, h, 1, Budget(0, 0));
    KidsEnd(Invariant, V12, j, h, 1, Budget(0, 0));
  }

  lemma VarParses(path: string)
    requires hide *; CheckPath(Invariant, V12, Split(path)).Ok?
    ensures ParsesTo(V.VarNode(path), Var(Split(path)), Totals(1, 1, 2 * |Split(path)|))
  {
    hide ReadHead; hide V.VarNode; hide Split; hide CheckPath; hide ParsesTo;
    VarHead(path);
    LeafParses(V.VarNode(path), HVar(Split(path)));
  }

  lemma ConstParses(v: Json)
    requires hide *; BuildConst(v).Ok?
    ensures ParsesTo(V.ConstNode(v), Const(BuildConst(v).value), Totals(1, 1, 0))
  {
    hide ReadHead; hide V.ConstNode; hide BuildConst; hide ParsesTo;
    ConstHead(v);
    LeafParses(V.ConstNode(v), HConst(BuildConst(v).value));
  }

  function Joined(op: Op, l: Expr, r: Expr): Expr
    requires op.OpEq? || op.OpCmp? || op.OpArith?
  {
    if op.OpEq? then Eq(op.neg, l, r) else if op.OpCmp? then Cmp(op.cmp, l, r) else Arith(op.arith, l, r)
  }

  lemma AssembleTwo(op: Op, l: Json, r: Json, x: Expr, y: Expr)
    requires op.OpEq? || op.OpCmp? || op.OpArith?
    ensures Assemble(HOp(op, [l, r]), [x, y]) == Joined(op, x, y) && HeadCost(HOp(op, [l, r])) == 1
  {
  }

  lemma BinaryParses(name: string, op: Op, l: Json, r: Json, x: Expr, y: Expr, t: Totals, u: Totals)
    requires hide *; OpNamed(name) == Some(op) && (op.OpEq? || op.OpCmp? || op.OpArith?)
    requires ParsesTo(l, x, t) && ParsesTo(r, y, u)
    ensures ParsesTo(V.BinaryNode(name, l, r), Joined(op, x, y),
      Totals(1 + Max(t.depth, Max(u.depth, 0)), 1 + t.nodes + u.nodes, 1 + t.cost + u.cost))
  {
    hide ReadHead; hide HeadCost; hide OpNamed; hide V.BinaryNode; hide Measured; hide MeasuredKids; hide Shaped;
    hide ShapedKids; hide Build; hide BuildKids; hide Assemble; hide Joined; hide Max;
    OperatorHead(name, op, l, r);
    var j, h := V.BinaryNode(name, l, r), HOp(op, [l, r]);
    AssembleTwo(op, l, r, x, y);
    KidsEnd(Invariant, V12, j, h, 1, Budget(0, 0));
    KidsUnfold(Invariant, V12, j, h, 1, 1, Budget(0, 0));
    KidsUnfold(Invariant, V12, j, h, 0, 1, Budget(0, 0));
    NodeUnfolds(Invariant, V12, j, h, 1, Budget(0, 0));
    assert [x] + ([y] + []) == [x, y];
  }

  // --- what a true invariant says ---

  /** A well-formed operator node within the limits holds exactly when its tree evaluates to true. */
  lemma HoldsAsTree(c: V.Context, name: string, l: Json, r: Json, e: Expr, t: Totals)
    requires ParsesTo(V.BinaryNode(name, l, r), e, t) && Within(t)
    ensures V.InvariantHolds(c, V.BinaryNode(name, l, r))
      <==> Eval(e, V.BeforeAfter(c.trace, None), Invariant) == Ok(VBool(true))
  {
    hide Build; hide Eval; hide Shaped; hide Measured; hide V.BeforeAfter; hide DslMeasure.Size3; hide ParseExpression;
    var j := V.BinaryNode(name, l, r);
    assert "op"[0] == 'o' && "lhs"[0] == 'l' && "rhs"[0] == 'r' && "dsl_version"[0] == 'd';
    assert j.Get("dsl_version").None?;
    DslMeasure.ParserExact(Invariant, V12, j);
  }

  lemma ReadAt(trace: V.Trace, side: string, a: string, b: string)
    requires side == "before" || side == "after"
    ensures var state := if side == "after" then trace.stateAfter else trace.stateBefore;
      ResolvePath(Invariant, ["state", side, a, b], V.BeforeAfter(trace, None)) ==
        match GetIn(state, [a, b]) case None => Err(Runtime(MISSING_VAR)) case Some(j) => Materialize(j)
  {
    var path := ["state", side, a, b];
    assert path[2..] == [a, b];
    hide Materialize; hide GetIn;
  }

  lemma MaterializeBack(j: Json)
    ensures forall n :: Materialize(j) == Ok(VInt(n)) <==> j == Int(n) && I256.InRange(n)
    ensures forall b :: Materialize(j) == Ok(VBool(b)) <==> j == Bool(b)
  {
    hide IsCanonicalAddress; hide IsBytes32; hide I256.InRange;
  }

  function AtPath(trace: V.Trace, side: string, a: string, b: string): Option<Json> {
    GetIn(if side == "after" then trace.stateAfter else trace.stateBefore, [a, b])
  }

  lemma VarRead(trace: V.Trace, side: string, a: string, b: string)
    requires side == "before" || side == "after"
    ensures var r := Eval(Var(["state", side, a, b]), V.BeforeAfter(trace, None), Invariant);
      && (forall n :: r == Ok(VInt(n)) <==> AtPath(trace, side, a, b) == Some(Int(n)) && I256.InRange(n))
      && (forall v :: r == Ok(VBool(v)) <==> AtPath(trace, side, a, b) == Some(Bool(v)))
  {
    ReadAt(trace, side, a, b);
    hide Materialize; hide GetIn; hide ResolvePath; hide V.BeforeAfter; hide I256.InRange;
    if AtPath(trace, side, a, b).Some? { MaterializeBack(AtPath(trace, side, a, b).value); }
  }

  lemma EqTrue(x: Expr, b: Bindings)
    ensures Eval(Eq(false, x, Const(CBool(true))), b, Invariant) == Ok(VBool(true)) <==>
      Eval(x, b, Invariant) == Ok(VBool(true))
  {
    hide ItemsEqual; hide EntriesEqual;
  }

  lemma AtLeastTrue(x: Expr, y: Expr, b: Bindings)
    ensures hide *; var r, u := Eval(x, b, Invariant), Eval(y, b, Invariant);
      Eval(Cmp(Gte, x, y), b, Invariant) == Ok(VBool(true)) <==>
        r.Ok? && r.value.VInt? && u.Ok? && u.value.VInt? && r.value.n >= u.value.n
  {
    IntsOf(Cmp(Gte, x, y), x, y, b);
  }

  /** Subtracting zero changes no int256. */
  lemma SubZero(x: Expr, b: Bindings)
    ensures hide *; var r, u := Eval(x, b, Invariant), Eval(Arith(Sub, x, Const(CInt(0))), b, Invariant);
      && (u.Ok? && u.value.VInt? ==> r == u)
      && (r.Ok? && r.value.VInt? && I256.InRange(r.value.n) ==> u == r)
  {
    var e := Arith(Sub, x, Const(CInt(0)));
    assert Eval(Const(CInt(0)), b, Invariant) == Ok(VInt(0));
    IntsOf(e, x, Const(CInt(0)), b);
    var ints := EvalInts(e, x, Const(CInt(0)), b, Invariant);
    if ints.Ok? { assert Eval(e, b, Invariant) == Calculate(Sub, ints.value.0, ints.value.1); }
  }

  /** Integer operands evaluate to the integers of their values. */
  lemma IntsOf(e: Expr, x: Expr, y: Expr, b: Bindings)
    requires hide *; x < e && y < e
    ensures var r, u := Eval(x, b, Invariant), Eval(y, b, Invariant);
      && (EvalInts(e, x, y, b, Invariant).Ok? <==> r.Ok? && r.value.VInt? && u.Ok? && u.value.VInt?)
      && (EvalInts(e, x, y, b, Invariant).Ok? ==> EvalInts(e, x, y, b, Invariant) == Ok((r.value.n, u.value.n)))
  {
    hide Eval;
  }

  predicate IsAmount(v: Option<Json>) {
    v.Some? && v.value.Int? && I256.InRange(v.value.n)
  }

  /** Both states show an int256 there, and the later one is not lower. */
  predicate NotLower(earlier: Option<Json>, later: Option<Json>) {
    IsAmount(earlier) && IsAmount(later) && later.value.n >= earlier.value.n
  }

  /** The claimed state after shows no less there than the claimed state before. */
  predicate NotLowered(trace: V.Trace, a: string, b: string) {
    NotLower(AtPath(trace, "before", a, b), AtPath(trace, "after", a, b))
  }

  lemma GteNamed()
    ensures OpNamed("gte") == Some(OpCmp(Gte))
  {
    assert |"gte"| == 3 && "gte"[0] == 'g' && "gte"[1] == 't' && "gte"[2] == 'e';
  }

  lemma OpsNamed()
    ensures OpNamed("sub") == Some(OpArith(Sub)) && OpNamed("eq") == Some(OpEq(false))
  {
    assert "sub"[0] == 's' && "eq"[0] == 'e' && |"eq"| == 2 && |"sub"| == 3 && "sub"[1] == 'u';
  }

  lemma JoinedIs(l: Expr, r: Expr)
    ensures Joined(OpCmp(Gte), l, r) == Cmp(Gte, l, r)
    ensures Joined(OpArith(Sub), l, r) == Arith(Sub, l, r) && Joined(OpEq(false), l, r) == Eq(false, l, r)
  {
  }

  lemma Constants()
    ensures BuildConst(Int(0)) == Ok(CInt(0)) && BuildConst(Bool(true)) == Ok(CBool(true))
  {
  }

  function Dotted(side: string, a: string, b: string): string {
    "state" + "." + (side + "." + (a + "." + b))
  }

  predicate Dotless(word: string) {
    '.' !in word
  }

  lemma DottedSplit(side: string, a: string, b: string)
    requires Dotless(side) && Dotless(a) && Dotless(b)
    ensures Split(Dotted(side, a, b)) == ["state", side, a, b]
  {
    hide Split;
    SplitFour("state", side, a, b);
  }

  lemma Words()
    ensures Dotless("after") && Dotless("before") && Dotless("treasury") && Dotless("nav")
    ensures Dotless("developer_fund_balance") && Dotless("failure_mode") && Dotless("is_bounded_mode")
  {
  }

  lemma SideText(side: string, a: string, b: string)
    requires side == "after" || side == "before"
    ensures (if side == "after" then "state.after." else "state.before.") + (a + "." + b) == Dotted(side, a, b)
  {
    assert "state.after." == "state" + "." + ("after" + ".") && "state.before." == "state" + "." + ("before" + ".");
    Reassociate("state" + ".", side + ".", a + "." + b);
    Reassociate(side, ".", a + "." + b);
  }

  lemma Reassociate(a: string, b: string, c: string)
    ensures a + b + c == a + (b + c)
  {
  }

  lemma Places()
    ensures V.FUND_BALANCE == "treasury" + "." + "developer_fund_balance"
      && V.NET_ASSET_VALUE == "treasury" + "." + "nav"
    ensures V.BOUNDED_FLAG == "failure_mode" + "." + "is_bounded_mode"
  {
    hide *;
    FundPlace();
    NavPlace();
    ModePlace();
  }

  lemma FundPlace()
    ensures V.FUND_BALANCE == "treasury" + "." + "developer_fund_balance"
  {
  }

  lemma NavPlace()
    ensures V.NET_ASSET_VALUE == "treasury" + "." + "nav"
  {
  }

  lemma ModePlace()
    ensures V.BOUNDED_FLAG == "failure_mode" + "." + "is_bounded_mode"
  {
  }

  predicate Named(word: string) {
    Dotless(word) && word != ""
  }

  /** A variable that reads two words deep into the claimed state before or after. */
  lemma SideParses(place: string, side: string, a: string, b: string)
    requires hide *; place == a + "." + b && (side == "before" || side == "after") && Named(a) && Named(b)
    ensures ParsesTo(if side == "after" then V.AfterVar(place) else V.BeforeVar(place), Var(["state", side, a, b]),
      Totals(1, 1, 8))
  {
    Words();
    SideText(side, a, b);
    hide Dotted; hide Split; hide V.VarNode; hide ParsesTo;
    DottedSplit(side, a, b);
    assert CheckPath(Invariant, V12, ["state", side, a, b]).Ok?;
    VarParses(Dotted(side, a, b));
  }

  lemma LaterOnes(trace: V.Trace, a: string, b: string)
    ensures hide *; var r := Eval(Var(["state", "after", a, b]), V.BeforeAfter(trace, None), Invariant);
      var u := Eval(Var(["state", "before", a, b]), V.BeforeAfter(trace, None), Invariant);
      && (r.Ok? && r.value.VInt? && u.Ok? && u.value.VInt? && r.value.n >= u.value.n <==> NotLowered(trace, a, b))
      && (u.Ok? && u.value.VInt? ==> I256.InRange(u.value.n))
  {
    VarRead(trace, "after", a, b);
    VarRead(trace, "before", a, b);
    hide Eval; hide V.BeforeAfter; hide AtPath; hide I256.InRange;
    var x, y := AtPath(trace, "after", a, b), AtPath(trace, "before", a, b);
    if IsAmount(x) { assert x == Some(Int(x.value.n)); }
    if IsAmount(y) { assert y == Some(Int(y.value.n)); }
  }

  lemma WithinEasily(d: nat, n: nat, c: nat)
    requires d <= 10 && n <= 100 && c <= 1000
    ensures Within(Totals(d, n, c))
  {
  }

  lemma MaxIs()
    ensures Max(1, Max(1, 0)) == 1 && Max(1, Max(2, 0)) == 2
  {
  }

  lemma FundExactly(c: V.Context)
    ensures V.InvariantHolds(c, V.FundInvariant()) <==> NotLowered(c.trace, "treasury", "developer_fund_balance")
  {
    hide *;
    NamedWords();
    Places();
    GteNamed();
    MaxIs();
    InvariantsAre();
    var a, b := "treasury", "developer_fund_balance";
    var l, r := V.AfterVar(V.FUND_BALANCE), V.BeforeVar(V.FUND_BALANCE);
    var x, y := Var(["state", "after", a, b]), Var(["state", "before", a, b]);
    SideParses(V.FUND_BALANCE, "after", a, b);
    SideParses(V.FUND_BALANCE, "before", a, b);
    SidesDiffer();
    BinaryParses("gte", OpCmp(Gte), l, r, x, y, Totals(1, 1, 8), Totals(1, 1, 8));
    JoinedIs(x, y);
    WithinEasily(2, 3, 17);
    HoldsAsTree(c, "gte", l, r, Cmp(Gte, x, y), Totals(2, 3, 17));
    AtLeastTrue(x, y, V.BeforeAfter(c.trace, None));
    LaterOnes(c.trace, a, b);
  }

  lemma SidesDiffer()
    ensures "before" != "after"
  {
    assert "before"[0] == 'b' && "after"[0] == 'a';
  }

  lemma InvariantsAre()
    ensures V.FundInvariant() == V.BinaryNode("gte", V.AfterVar(V.FUND_BALANCE), V.BeforeVar(V.FUND_BALANCE))
    ensures V.NavInvariant() == V.BinaryNode("gte", V.AfterVar(V.NET_ASSET_VALUE),
      V.BinaryNode("sub", V.BeforeVar(V.NET_ASSET_VALUE), V.ConstNode(Int(0))))
    ensures V.ModeInvariant() == V.BinaryNode("eq", V.AfterVar(V.BOUNDED_FLAG), V.ConstNode(Bool(true)))
  {
    hide V.BinaryNode; hide V.AfterVar; hide V.BeforeVar; hide V.ConstNode; hide V.FUND_BALANCE; hide V.NET_ASSET_VALUE;
    hide V.BOUNDED_FLAG;
  }

  lemma NavExactly(c: V.Context)
    ensures V.InvariantHolds(c, V.NavInvariant()) <==> NotLowered(c.trace, "treasury", "nav")
  {
    hide *;
    NamedWords();
    Places();
    GteNamed();
    OpsNamed();
    Constants();
    MaxIs();
    InvariantsAre();
    var l, z, zero := V.AfterVar(V.NET_ASSET_VALUE), V.BeforeVar(V.NET_ASSET_VALUE), V.ConstNode(Int(0));
    var x, y := Var(["state", "after", "treasury", "nav"]), Var(["state", "before", "treasury", "nav"]);
    var r, w := V.BinaryNode("sub", z, zero), Arith(Sub, y, Const(CInt(0)));
    SideParses(V.NET_ASSET_VALUE, "after", "treasury", "nav");
    SideParses(V.NET_ASSET_VALUE, "before", "treasury", "nav");
    SidesDiffer();
    ConstParses(Int(0));
    BinaryParses("sub", OpArith(Sub), z, zero, y, Const(CInt(0)), Totals(1, 1, 8), Totals(1, 1, 0));
    JoinedIs(y, Const(CInt(0)));
    BinaryParses("gte", OpCmp(Gte), l, r, x, w, Totals(1, 1, 8), Totals(2, 3, 9));
    JoinedIs(x, w);
    WithinEasily(3, 5, 18);
    HoldsAsTree(c, "gte", l, r, Cmp(Gte, x, w), Totals(3, 5, 18));
    AtLeastTrue(x, w, V.BeforeAfter(c.trace, None));
    SubZero(y, V.BeforeAfter(c.trace, None));
    LaterOnes(c.trace, "treasury", "nav");
  }

  lemma ModeExactly(c: V.Context)
    ensures V.InvariantHolds(c, V.ModeInvariant())
      <==> AtPath(c.trace, "after", "failure_mode", "is_bounded_mode") == Some(Bool(true))
  {
    hide *;
    NamedWords();
    Places();
    OpsNamed();
    Constants();
    MaxIs();
    InvariantsAre();
    var l, z := V.AfterVar(V.BOUNDED_FLAG), V.ConstNode(Bool(true));
    var x := Var(["state", "after", "failure_mode", "is_bounded_mode"]);
    SideParses(V.BOUNDED_FLAG, "after", "failure_mode", "is_bounded_mode");
    ConstParses(Bool(true));
    BinaryParses("eq", OpEq(false), l, z, x, Const(CBool(true)), Totals(1, 1, 8), Totals(1, 1, 0));
    JoinedIs(x, Const(CBool(true)));
    WithinEasily(2, 3, 9);
    HoldsAsTree(c, "eq", l, z, Eq(false, x, Const(CBool(true))), Totals(2, 3, 9));
    EqTrue(x, V.BeforeAfter(c.trace, None));
    VarRead(c.trace, "after", "failure_mode", "is_bounded_mode");
  }

  lemma NamedWords()
    ensures Named("treasury") && Named("nav") && Named("developer_fund_balance")
    ensures Named("failure_mode") && Named("is_bounded_mode")
  {
    Words();
    hide Dotless;
  }

  /** The claims pass the three injected invariants. */
  predicate ClaimsPass(trace: V.Trace) {
    && AtPath(trace, "after", "failure_mode", "is_bounded_mode") == Some(Bool(true))
    && NotLowered(trace, "treasury", "nav")
    && NotLowered(trace, "treasury", "developer_fund_balance")
  }

  predicate OwnInvariantsHold(c: V.Context) {
    hide *;
    var own := Gas.Items(c.cal.Get("invariants"));
    forall i :: 0 <= i < |own| ==> V.InvariantHolds(c, own[i])
  }

  /** In bounded mode the invariants hold exactly when the CAL's own do and the claims of the trace are
      still bounded and no lower in net asset value and developer fund. */
  lemma BoundedInvariants(c: V.Context)
    requires c.bounded
    ensures V.InvariantsHold(c) <==> OwnInvariantsHold(c) && ClaimsPass(c.trace)
  {
    FundExactly(c);
    NavExactly(c);
    ModeExactly(c);
    hide V.InvariantHolds; hide V.FundInvariant; hide V.NavInvariant; hide V.ModeInvariant; hide NotLowered;
    hide AtPath;
    var own, injected := Gas.Items(c.cal.Get("invariants")), V.EmergencyInvariants();
    var all := V.EffectiveInvariants(c);
    assert all == own + injected && |injected| == 3;
    forall i | 0 <= i < |own| ensures all[i] == own[i] {}
    forall i | 0 <= i < 3 ensures all[|own| + i] == injected[i] {}
    if OwnInvariantsHold(c) && ClaimsPass(c.trace) {
      forall i | 0 <= i < |all| ensures V.InvariantHolds(c, all[i]) {
        if i >= |own| { assert all[i] == injected[i - |own|]; }
      }
    }
    if V.InvariantsHold(c) {
      assert V.InvariantHolds(c, all[|own|]) && V.InvariantHolds(c, all[|own| + 1])
        && V.InvariantHolds(c, all[|own| + 2]);
    }
  }

  /** In bounded mode no CAL finalizes unless the state that its trace claims after it is still bounded
      and shows no less net asset value and developer fund than the one claimed before, whatever
      invariants the CAL declares. */
  lemma BoundedModeGuards(c: V.Context, before: seq<Events.Event>)
    requires hide *; c.bounded && V.PhaseB(c, before).Ok? && V.PhaseB(c, before).value.terminal == V.FINALIZED
    ensures ClaimsPass(c.trace)
  {
    hide *;
    Gates.FinalizedExactly(c, before);
    BoundedInvariants(c);
  }
}
