/** The parser: one pass over the tree that spends a node budget and a cost budget as it goes.
    It accepts exactly the well-formed trees within the limits, and the cost it has spent at the
    end is the sum over the tree it built. */
module DslParse {
  import opened Wrappers
  import opened JsonTree
  import opened DslAst

  datatype Budget = Budget(nodes: nat, cost: nat)

  function Assemble(h: Head, kids: seq<Expr>): Expr
    requires |kids| == |Kids(h)| && (h.HOp? ==> Arity(h.op, |kids|))
  {
    match h
    case HConst(c) => Const(c)
    case HVar(path) => Var(path)
    case HAction(a) => Action(a)
    case HOp(op, _) =>
      match op
      case OpEq(neg) => Eq(neg, kids[0], kids[1])
      case OpCmp(c) => Cmp(c, kids[0], kids[1])
      case OpArith(a) => Arith(a, kids[0], kids[1])
      case OpBool(isAnd) => BoolOp(isAnd, kids)
      case OpNot => Not(kids[0])
      case OpSize => Size(kids[0])
      case OpContainsKey => ContainsKey(kids[0], kids[1])
      case OpRequiresScope => RequiresScope(kids[0], kids[1])
      case OpIsOwnerRequired => IsOwnerRequired(kids[0])
  }

  function Build(scope: Scope, version: Version, j: Json, depth: nat, b: Budget): Result<(Expr, Budget), Fault>
    decreases j, 1, 0
  {
    if depth > MAX_DEPTH then Err(ParseFault(DEPTH_LIMIT))
    else if b.nodes + 1 > MAX_NODES then Err(ParseFault(NODE_LIMIT))
    else
      var h :- ReadHead(scope, version, j);
      if b.cost + HeadCost(h) > MAX_EXPRESSION_COST then Err(Invalid(COST_EXCEEDED))
      else
        var (kids, spent) :- BuildKids(scope, version, j, h, 0, depth + 1, Budget(b.nodes + 1, b.cost + HeadCost(h)));
        Ok((Assemble(h, kids), spent))
  }

  /** The operands from i on, left to right, each spending from what the one before left. */
  function BuildKids(scope: Scope, version: Version, j: Json, h: Head, i: nat, depth: nat, b: Budget)
    : (r: Result<(seq<Expr>, Budget), Fault>)
    requires ReadHead(scope, version, j) == Ok(h) && i <= |Kids(h)|
    ensures r.Ok? ==> |r.value.0| == |Kids(h)| - i
    decreases j, 0, |Kids(h)| - i
  {
    hide *;
    if i == |Kids(h)| then Ok(([], b))
    else
      KidsSmaller(scope, version, j, i);
      var (e, b1) :- Build(scope, version, Kids(h)[i], depth, b);
      var (rest, b2) :- BuildKids(scope, version, j, h, i + 1, depth, b1);
      Ok(([e] + rest, b2))
  }

  function ParseExpression(j: Json, scope: Scope, version: Version): Result<Expr, Fault> {
    var (e, _) :- Build(scope, version, j, 1, Budget(0, 0));
    Ok(e)
  }

  function ExpressionCost(j: Json, scope: Scope, version: Version): Result<nat, Fault> {
    var (_, b) :- Build(scope, version, j, 1, Budget(0, 0));
    Ok(b.cost)
  }

  /** The parser as the source runs it: the budgets are fields that every node updates. */
  class Parser {
    const scope: Scope
    const version: Version
    var nodes: nat
    var cost: nat

    constructor (s: Scope, v: Version)
      ensures scope == s && version == v && nodes == 0 && cost == 0
    {
      scope, version := s, v;
      nodes, cost := 0, 0;
    }

    function Spent(): Budget
      reads this
    {
      Budget(nodes, cost)
    }

    ghost predicate Agrees<T>(got: Result<T, Fault>, spec: Result<(T, Budget), Fault>)
      reads this
    {
      match spec
      case Err(f) => got == Err(f)
      case Ok((v, b)) => got == Ok(v) && Spent() == b
    }

    method BuildNode(j: Json, depth: nat) returns (r: Result<Expr, Fault>)
      modifies this
      ensures Agrees(r, Build(scope, version, j, depth, old(Spent())))
      decreases j
    {
      hide ReadHead; hide HeadCost; hide Assemble; hide BuildKids;
      if depth > MAX_DEPTH {
        return Err(ParseFault(DEPTH_LIMIT));
      }
      nodes := nodes + 1;
      if nodes > MAX_NODES {
        return Err(ParseFault(NODE_LIMIT));
      }
      var head := ReadHead(scope, version, j);
      if head.Err? {
        return Err(head.error);
      }
      var h := head.value;
      cost := cost + HeadCost(h);
      if cost > MAX_EXPRESSION_COST {
        return Err(Invalid(COST_EXCEEDED));
      }
      var kids: seq<Expr> := [];
      ghost var all := BuildKids(scope, version, j, h, 0, depth + 1, Spent());
      KidsEnds(scope, version, j, h, depth + 1, Spent());
      for i := 0 to |Kids(h)|
        invariant |kids| == i
        invariant all == After(kids, BuildKids(scope, version, j, h, i, depth + 1, Spent()))
      {
        KidsSmaller(scope, version, j, i);
        KidsTurn(scope, version, j, h, i, depth + 1, Spent(), kids);
        var e := BuildNode(Kids(h)[i], depth + 1);
        if e.Err? {
          return e;
        }
        kids := kids + [e.value];
      }
      KidsEnds(scope, version, j, h, depth + 1, Spent());
      assert kids + [] == kids;
      ReadHeadArity(scope, version, j);
      return Ok(Assemble(h, kids));
    }
  }

  /** The operands already built, in front of what is still to come. */
  function After(kids: seq<Expr>, r: Result<(seq<Expr>, Budget), Fault>): Result<(seq<Expr>, Budget), Fault> {
    match r case Err(f) => Err(f) case Ok((rest, b)) => Ok((kids + rest, b))
  }

  lemma KidsEnds(scope: Scope, version: Version, j: Json, h: Head, depth: nat, b: Budget)
    requires hide *; ReadHead(scope, version, j) == Ok(h)
    ensures After([], BuildKids(scope, version, j, h, 0, depth, b)) == BuildKids(scope, version, j, h, 0, depth, b)
    ensures BuildKids(scope, version, j, h, |Kids(h)|, depth, b) == Ok(([], b))
  {
    hide ReadHead; hide Build;
    var r := BuildKids(scope, version, j, h, 0, depth, b);
    if r.Ok? { assert [] + r.value.0 == r.value.0; }
  }

  lemma KidsTurn(scope: Scope, version: Version, j: Json, h: Head, i: nat, depth: nat, b: Budget, kids: seq<Expr>)
    requires hide *; ReadHead(scope, version, j) == Ok(h) && i < |Kids(h)|
    ensures After(kids, BuildKids(scope, version, j, h, i, depth, b)) ==
      match Build(scope, version, Kids(h)[i], depth, b)
      case Err(f) => Err(f)
      case Ok((e, b1)) => After(kids + [e], BuildKids(scope, version, j, h, i + 1, depth, b1))
  {
    hide ReadHead; hide Build;
    var r := Build(scope, version, Kids(h)[i], depth, b);
    if r.Ok? {
      var rest := BuildKids(scope, version, j, h, i + 1, depth, r.value.1);
      if rest.Ok? {
        assert kids + ([r.value.0] + rest.value.0) == kids + [r.value.0] + rest.value.0;
      }
    }
  }

  lemma ReadHeadArity(scope: Scope, version: Version, j: Json)
    ensures hide *; var r := ReadHead(scope, version, j); r.Ok? && r.value.HOp? ==> Arity(r.value.op, |Kids(r.value)|)
  {
  }

  // --- what the parser accepts, without any budget ---

  predicate Shaped(scope: Scope, version: Version, j: Json)
    decreases j, 1, 0
  {
    hide *;
    && ReadHead(scope, version, j).Ok?
    && ShapedKids(scope, version, j, ReadHead(scope, version, j).value, 0)
  }

  predicate ShapedKids(scope: Scope, version: Version, j: Json, h: Head, i: nat)
    requires ReadHead(scope, version, j) == Ok(h) && i <= |Kids(h)|
    decreases j, 0, |Kids(h)| - i
  {
    hide *;
    i == |Kids(h)| || (
      KidsSmaller(scope, version, j, i);
      Shaped(scope, version, Kids(h)[i]) && ShapedKids(scope, version, j, h, i + 1))
  }

  function Max(a: nat, b: nat): nat {
    if a < b then b else a
  }

  datatype Measure = Measure(expr: Expr, depth: nat, nodes: nat, cost: nat)

  /** The tree of a well-formed node with its depth, node count and cost, all compositional. */
  function Measured(scope: Scope, version: Version, j: Json): (m: Measure)
    requires Shaped(scope, version, j)
    ensures m.depth >= 1 && m.nodes >= 1
    decreases j, 1, 0
  {
    var h := ReadHead(scope, version, j).value;
    var (kids, m) := MeasuredKids(scope, version, j, h, 0);
    Measure(Assemble(h, kids), 1 + m.depth, 1 + m.nodes, HeadCost(h) + m.cost)
  }

  function Plus(a: Totals, b: Totals): Totals {
    Totals(Max(a.depth, b.depth), a.nodes + b.nodes, a.cost + b.cost)
  }

  function Charged(b: Budget, t: Totals): Budget {
    Budget(b.nodes + t.nodes, b.cost + t.cost)
  }

  datatype Totals = Totals(depth: nat, nodes: nat, cost: nat)

  function MeasuredKids(scope: Scope, version: Version, j: Json, h: Head, i: nat): (r: (seq<Expr>, Totals))
    requires ReadHead(scope, version, j) == Ok(h) && i <= |Kids(h)| && ShapedKids(scope, version, j, h, i)
    ensures |r.0| == |Kids(h)| - i
    ensures if i < |Kids(h)| then r.1.depth >= 1 && r.1.nodes >= 1 else r.1 == Totals(0, 0, 0)
    decreases j, 0, |Kids(h)| - i
  {
    hide *;
    if i == |Kids(h)| then ([], Totals(0, 0, 0))
    else
      KidsSmaller(scope, version, j, i);
      var m := Measured(scope, version, Kids(h)[i]);
      var (rest, t) := MeasuredKids(scope, version, j, h, i + 1);
      ([m.expr] + rest, Plus(TotalsOf(m), t))
  }

  /** Within the limits when started at this depth with this much spent. */
  predicate Fits(t: Totals, depth: nat, b: Budget) {
    && (t.nodes > 0 ==> depth + t.depth <= MAX_DEPTH + 1)
    && b.nodes + t.nodes <= MAX_NODES
    && b.cost + t.cost <= MAX_EXPRESSION_COST
  }

  function TotalsOf(m: Measure): Totals {
    Totals(m.depth, m.nodes, m.cost)
  }

  lemma FitsSplit(a: Totals, t: Totals, depth: nat, b: Budget)
    requires a.nodes >= 1 && (t.nodes == 0 ==> t.depth == 0)
    ensures Fits(Plus(a, t), depth, b) <==> Fits(a, depth, b) && Fits(t, depth, Charged(b, a))
    ensures Charged(Charged(b, a), t) == Charged(b, Plus(a, t))
  {
  }

  lemma NodeFits(t: Totals, c: nat, depth: nat, b: Budget)
    requires t.nodes == 0 ==> t.depth == 0
    ensures var node, b2 := Totals(1 + t.depth, 1 + t.nodes, c + t.cost), Budget(b.nodes + 1, b.cost + c);
      && (Fits(node, depth, b) <==>
          depth <= MAX_DEPTH && b2.nodes <= MAX_NODES && b2.cost <= MAX_EXPRESSION_COST && Fits(t, depth + 1, b2))
      && Charged(b2, t) == Charged(b, node)
  {
  }

  lemma NodeUnfolds(scope: Scope, version: Version, j: Json, h: Head, depth: nat, b: Budget)
    requires ReadHead(scope, version, j) == Ok(h)
    ensures var b2 := Budget(b.nodes + 1, b.cost + HeadCost(h));
      var ok := depth <= MAX_DEPTH && b2.nodes <= MAX_NODES && b2.cost <= MAX_EXPRESSION_COST;
      && (Build(scope, version, j, depth, b).Ok? <==> ok && BuildKids(scope, version, j, h, 0, depth + 1, b2).Ok?)
      && (Build(scope, version, j, depth, b).Ok? ==>
          var (kids, spent) := BuildKids(scope, version, j, h, 0, depth + 1, b2).value;
          Build(scope, version, j, depth, b).value == (Assemble(h, kids), spent))
    ensures Shaped(scope, version, j) <==> ShapedKids(scope, version, j, h, 0)
    ensures Shaped(scope, version, j) ==>
      var (kids, t) := MeasuredKids(scope, version, j, h, 0);
      Measured(scope, version, j) == Measure(Assemble(h, kids), 1 + t.depth, 1 + t.nodes, HeadCost(h) + t.cost)
  {
    hide ReadHead; hide HeadCost; hide Assemble; hide BuildKids; hide ShapedKids; hide MeasuredKids;
  }

  /** The parser succeeds exactly on the well-formed trees whose depth, node count and cost are
      within the limits, builds their tree, and has then spent exactly their nodes and cost. */
  lemma {:induction false} BuildExact(scope: Scope, version: Version, j: Json, depth: nat, b: Budget)
    requires hide *; b.nodes <= MAX_NODES && b.cost <= MAX_EXPRESSION_COST
    ensures var r := Build(scope, version, j, depth, b);
      && (r.Ok? <==> Shaped(scope, version, j) && Fits(TotalsOf(Measured(scope, version, j)), depth, b))
      && (r.Ok? ==> var m := Measured(scope, version, j); r.value == (m.expr, Charged(b, TotalsOf(m))))
    decreases j, 1, 0
  {
    hide ReadHead; hide Build; hide Shaped; hide Measured; hide Fits; hide Charged;
    var head := ReadHead(scope, version, j);
    if head.Ok? {
      NodeExact(scope, version, j, head.value, depth, b);
    } else {
      NoHead(scope, version, j, depth, b);
    }
  }

  lemma NoHead(scope: Scope, version: Version, j: Json, depth: nat, b: Budget)
    requires ReadHead(scope, version, j).Err?
    ensures Build(scope, version, j, depth, b).Err? && !Shaped(scope, version, j)
  {
    hide ReadHead;
  }

  lemma {:induction false} NodeExact(scope: Scope, version: Version, j: Json, h: Head, depth: nat, b: Budget)
    requires hide *; ReadHead(scope, version, j) == Ok(h)
    requires b.nodes <= MAX_NODES && b.cost <= MAX_EXPRESSION_COST
    ensures var r := Build(scope, version, j, depth, b);
      && (r.Ok? <==> Shaped(scope, version, j) && Fits(TotalsOf(Measured(scope, version, j)), depth, b))
      && (r.Ok? ==> var m := Measured(scope, version, j); r.value == (m.expr, Charged(b, TotalsOf(m))))
    decreases j, 0, |Kids(h)| + 1
  {
    hide ReadHead; hide HeadCost; hide Assemble; hide Build; hide Shaped; hide Measured;
    hide BuildKids; hide ShapedKids; hide MeasuredKids; hide Fits; hide Charged;
    NodeUnfolds(scope, version, j, h, depth, b);
    var b2 := Budget(b.nodes + 1, b.cost + HeadCost(h));
    if b2.nodes <= MAX_NODES && b2.cost <= MAX_EXPRESSION_COST {
      KidsExact(scope, version, j, h, 0, depth + 1, b2);
    }
    if ShapedKids(scope, version, j, h, 0) {
      NodeFits(MeasuredKids(scope, version, j, h, 0).1, HeadCost(h), depth, b);
    }
  }

  lemma {:induction false} KidsExact(scope: Scope, version: Version, j: Json, h: Head, i: nat, depth: nat, b: Budget)
    requires hide *; ReadHead(scope, version, j) == Ok(h) && i <= |Kids(h)|
    requires b.nodes <= MAX_NODES && b.cost <= MAX_EXPRESSION_COST
    ensures var r := BuildKids(scope, version, j, h, i, depth, b);
      && (r.Ok? <==> ShapedKids(scope, version, j, h, i) && Fits(MeasuredKids(scope, version, j, h, i).1, depth, b))
      && (r.Ok? ==> var (kids, t) := MeasuredKids(scope, version, j, h, i); r.value == (kids, Charged(b, t)))
    decreases j, 0, |Kids(h)| - i
  {
    hide ReadHead; hide Build; hide BuildKids; hide Shaped; hide ShapedKids; hide Measured; hide MeasuredKids;
    hide Plus; hide Charged;
    hide Fits; hide Kids;
    if i == |Kids(h)| {
      KidsEnd(scope, version, j, h, depth, b);
      NothingLeft(depth, b);
    } else {
      KidsSmaller(scope, version, j, i);
      KidsUnfold(scope, version, j, h, i, depth, b);
      var kid := Kids(h)[i];
      BuildExact(scope, version, kid, depth, b);
      var r := Build(scope, version, kid, depth, b);
      if r.Ok? {
        WithinLimits(TotalsOf(Measured(scope, version, kid)), depth, b);
        KidsExact(scope, version, j, h, i + 1, depth, r.value.1);
      }
      if Shaped(scope, version, kid) && ShapedKids(scope, version, j, h, i + 1) {
        FitsSplit(TotalsOf(Measured(scope, version, kid)), MeasuredKids(scope, version, j, h, i + 1).1, depth, b);
      }
    }
  }

  lemma KidsUnfold(scope: Scope, version: Version, j: Json, h: Head, i: nat, depth: nat, b: Budget)
    requires hide *; ReadHead(scope, version, j) == Ok(h) && i < |Kids(h)|
    ensures ShapedKids(scope, version, j, h, i)
      <==> Shaped(scope, version, Kids(h)[i]) && ShapedKids(scope, version, j, h, i + 1)
    ensures BuildKids(scope, version, j, h, i, depth, b) ==
      match Build(scope, version, Kids(h)[i], depth, b)
      case Err(f) => Err(f)
      case Ok((e, b1)) =>
        (match BuildKids(scope, version, j, h, i + 1, depth, b1)
         case Err(f) => Err(f)
         case Ok((rest, b2)) => Ok(([e] + rest, b2)))
    ensures ShapedKids(scope, version, j, h, i) ==>
      var m, (rest, t) := Measured(scope, version, Kids(h)[i]), MeasuredKids(scope, version, j, h, i + 1);
      MeasuredKids(scope, version, j, h, i) == ([m.expr] + rest, Plus(TotalsOf(m), t))
  {
    hide ReadHead; hide Build; hide Shaped; hide Measured; hide Plus; hide Kids;
  }

  lemma KidsEnd(scope: Scope, version: Version, j: Json, h: Head, depth: nat, b: Budget)
    requires hide *; ReadHead(scope, version, j) == Ok(h)
    ensures var n := |Kids(h)|;
      && BuildKids(scope, version, j, h, n, depth, b) == Ok(([], b))
      && ShapedKids(scope, version, j, h, n)
      && MeasuredKids(scope, version, j, h, n) == ([], Totals(0, 0, 0))
  {
  }

  lemma NothingLeft(depth: nat, b: Budget)
    requires b.nodes <= MAX_NODES && b.cost <= MAX_EXPRESSION_COST
    ensures Fits(Totals(0, 0, 0), depth, b) && Charged(b, Totals(0, 0, 0)) == b
  {
  }

  lemma WithinLimits(t: Totals, depth: nat, b: Budget)
    requires Fits(t, depth, b)
    ensures Charged(b, t).nodes <= MAX_NODES && Charged(b, t).cost <= MAX_EXPRESSION_COST
  {
  }
}
