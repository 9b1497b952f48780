/** The budgets, read off the finished tree. */
module DslMeasure {
  import opened Wrappers
  import opened JsonTree
  import opened DslAst
  import opened DslParse

  function Parts(e: Expr): seq<Expr> {
    match e
    case Const(_) => []
    case Var(_) => []
    case Action(_) => []
    case Eq(_, l, r) => [l, r]
    case Cmp(_, l, r) => [l, r]
    case Arith(_, l, r) => [l, r]
    case BoolOp(_, args) => args
    case Not(a) => [a]
    case ContainsKey(l, r) => [l, r]
    case Size(a) => [a]
    case RequiresScope(l, r) => [l, r]
    case IsOwnerRequired(a) => [a]
  }

  function OwnCost(e: Expr): nat {
    match e
    case Const(_) => 0
    case Var(path) => C_PATH_SEGMENT * |path|
    case Action(_) => 0
    case Size(_) => C_SIZE
    case ContainsKey(_, _) => C_CONTAINS_KEY
    case RequiresScope(_, _) => C_GATE_OP
    case IsOwnerRequired(_) => C_GATE_OP
    case _ => C_BINARY
  }

  /** Depth, node count and cost as sums (a maximum for the depth) over the tree. */
  function Size3(e: Expr): Totals
    decreases e, 1, 0
  {
    var t := SizeFrom(e, 0);
    Totals(1 + t.depth, 1 + t.nodes, OwnCost(e) + t.cost)
  }

  function SizeFrom(e: Expr, i: nat): Totals
    requires i <= |Parts(e)|
    decreases e, 0, |Parts(e)| - i
  {
    if i == |Parts(e)| then Totals(0, 0, 0) else Plus(Size3(Parts(e)[i]), SizeFrom(e, i + 1))
  }

  lemma AssembledParts(h: Head, kids: seq<Expr>)
    requires |kids| == |Kids(h)| && (h.HOp? ==> Arity(h.op, |kids|))
    ensures Parts(Assemble(h, kids)) == kids && OwnCost(Assemble(h, kids)) == HeadCost(h)
  {
  }

  lemma {:induction false} MeasureIsSize(scope: Scope, version: Version, j: Json)
    requires hide *; Shaped(scope, version, j)
    ensures var m := Measured(scope, version, j); TotalsOf(m) == Size3(m.expr)
    decreases j, 1, 0
  {
    hide ReadHead; hide HeadCost; hide Assemble; hide ShapedKids; hide MeasuredKids; hide SizeFrom; hide Parts;
    hide OwnCost;
    hide Size3; hide Measured;
    var h := ReadHead(scope, version, j).value;
    MeasuredUnfolds(scope, version, j, h);
    var (kids, t) := MeasuredKids(scope, version, j, h, 0);
    ReadHeadArity(scope, version, j);
    AssembledParts(h, kids);
    KidsSize(scope, version, j, h, 0, Assemble(h, kids));
    SizeUnfolds(Assemble(h, kids));
  }

  lemma SizeUnfolds(e: Expr)
    ensures var t := SizeFrom(e, 0); Size3(e) == Totals(1 + t.depth, 1 + t.nodes, OwnCost(e) + t.cost)
  {
    hide SizeFrom; hide OwnCost;
  }

  lemma MeasuredUnfolds(scope: Scope, version: Version, j: Json, h: Head)
    requires hide *; Shaped(scope, version, j) && ReadHead(scope, version, j) == Ok(h)
    ensures ShapedKids(scope, version, j, h, 0)
    ensures var (kids, t) := MeasuredKids(scope, version, j, h, 0);
      && |kids| == |Kids(h)| && (h.HOp? ==> Arity(h.op, |kids|))
      && Measured(scope, version, j) == Measure(Assemble(h, kids), 1 + t.depth, 1 + t.nodes, HeadCost(h) + t.cost)
  {
    hide ReadHead; hide HeadCost; hide Assemble; hide MeasuredKids;
    ReadHeadArity(scope, version, j);
  }

  lemma {:induction false} KidsSize(scope: Scope, version: Version, j: Json, h: Head, i: nat, e: Expr)
    requires hide *; ReadHead(scope, version, j) == Ok(h) && i <= |Kids(h)| && ShapedKids(scope, version, j, h, i)
    requires |Parts(e)| == |Kids(h)| && Parts(e)[i..] == MeasuredKids(scope, version, j, h, i).0
    ensures SizeFrom(e, i) == MeasuredKids(scope, version, j, h, i).1
    decreases j, 0, |Kids(h)| - i
  {
    hide ReadHead; hide Measured; hide Shaped; hide Parts; hide Plus; hide Size3;
    if i < |Kids(h)| {
      KidsSmaller(scope, version, j, i);
      MeasureIsSize(scope, version, Kids(h)[i]);
      assert Parts(e)[i] == Parts(e)[i..][0] && Parts(e)[i + 1..] == Parts(e)[i..][1..];
      KidsSize(scope, version, j, h, i + 1, e);
    }
  }

  /** The parser is exact: it accepts the well-formed trees within the three limits and no others;
      the cost it reports, which gas pricing reuses, is the compositional cost of the tree. */
  lemma ParserExact(scope: Scope, version: Version, j: Json)
    ensures hide *; ParseExpression(j, scope, version).Ok? <==>
      Shaped(scope, version, j) &&
      var t := TotalsOf(Measured(scope, version, j));
      t.depth <= MAX_DEPTH && t.nodes <= MAX_NODES && t.cost <= MAX_EXPRESSION_COST
    ensures ParseExpression(j, scope, version).Ok? ==>
      var e := ParseExpression(j, scope, version).value;
      && e == Measured(scope, version, j).expr
      && Size3(e) == TotalsOf(Measured(scope, version, j))
      && ExpressionCost(j, scope, version) == Ok(Size3(e).cost)
    ensures ExpressionCost(j, scope, version).Ok? <==> ParseExpression(j, scope, version).Ok?
  {
    hide Build; hide Shaped; hide Measured; hide Size3;
    BuildExact(scope, version, j, 1, Budget(0, 0));
    if Shaped(scope, version, j) {
      MeasureIsSize(scope, version, j);
    }
  }
}
