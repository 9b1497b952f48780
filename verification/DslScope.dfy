/** What parsing guarantees to evaluation: scopes do not interfere, and version 1.1 is a part of
    version 1.2. */
module DslScope {
  import opened Wrappers
  import opened JsonTree
  import opened DslAst
  import opened DslParse
  import opened DslEval

  lemma {:induction false} AdmittedFrom(scope: Scope, version: Version, e: Expr, i: nat)
    requires e.BoolOp? && i <= |e.args| && forall k :: i <= k < |e.args| ==> Admitted(scope, version, e.args[k])
    ensures AdmittedAll(scope, version, e, i)
    decreases |e.args| - i
  {
    hide Admitted;
    if i < |e.args| {
      AdmittedFrom(scope, version, e, i + 1);
    }
  }

  ghost predicate AllAdmitted(scope: Scope, version: Version, kids: seq<Expr>) {
    forall i :: 0 <= i < |kids| ==> Admitted(scope, version, kids[i])
  }

  lemma AdmittedCons(scope: Scope, version: Version, e: Expr, rest: seq<Expr>)
    requires Admitted(scope, version, e) && AllAdmitted(scope, version, rest)
    ensures AllAdmitted(scope, version, [e] + rest)
  {
    hide Admitted;
  }

  lemma NoneAdmitted(scope: Scope, version: Version)
    ensures AllAdmitted(scope, version, [])
  {
  }

  lemma HeadAdmits(scope: Scope, version: Version, j: Json)
    requires hide *; ReadHead(scope, version, j).Ok? && ReadHead(scope, version, j).value.HVar?
    ensures var path := ReadHead(scope, version, j).value.path; path != [] && CheckPath(scope, version, path).Ok?
  {
    hide CheckPath; hide Operands; hide OpNamed; hide BuildConst; hide CheckAction;
  }

  lemma AssembleAdmitted(scope: Scope, version: Version, h: Head, kids: seq<Expr>)
    requires |kids| == |Kids(h)| && (h.HOp? ==> Arity(h.op, |kids|))
    requires h.HVar? ==> h.path != [] && CheckPath(scope, version, h.path).Ok?
    requires AllAdmitted(scope, version, kids)
    ensures Admitted(scope, version, Assemble(h, kids))
  {
    hide CheckPath;
    if h.HOp? && h.op.OpBool? {
      AdmittedFrom(scope, version, Assemble(h, kids), 0);
    }
  }

  lemma {:induction false} ParsedAdmitted(scope: Scope, version: Version, j: Json, depth: nat, b: Budget)
    ensures hide *; var r := Build(scope, version, j, depth, b); r.Ok? ==> Admitted(scope, version, r.value.0)
    decreases j, 1, 0
  {
    hide ReadHead; hide HeadCost; hide Assemble; hide BuildKids; hide Admitted; hide AllAdmitted; hide CheckPath;
    var r := Build(scope, version, j, depth, b);
    if r.Ok? {
      var h := ReadHead(scope, version, j).value;
      var b2 := Budget(b.nodes + 1, b.cost + HeadCost(h));
      KidsAdmitted(scope, version, j, h, 0, depth + 1, b2);
      ReadHeadArity(scope, version, j);
      if h.HVar? { HeadAdmits(scope, version, j); }
      AssembleAdmitted(scope, version, h, BuildKids(scope, version, j, h, 0, depth + 1, b2).value.0);
    }
  }

  lemma {:induction false} KidsAdmitted(scope: Scope, version: Version, j: Json, h: Head, i: nat, depth: nat, b: Budget)
    requires hide *; ReadHead(scope, version, j) == Ok(h) && i <= |Kids(h)|
    ensures var r := BuildKids(scope, version, j, h, i, depth, b);
      r.Ok? ==> AllAdmitted(scope, version, r.value.0)
    decreases j, 0, |Kids(h)| - i
  {
    hide ReadHead; hide Build; hide Admitted; hide AllAdmitted;
    if i == |Kids(h)| {
      NoneAdmitted(scope, version);
    }
    if i < |Kids(h)| {
      KidsSmaller(scope, version, j, i);
      ParsedAdmitted(scope, version, Kids(h)[i], depth, b);
      var r := Build(scope, version, Kids(h)[i], depth, b);
      if r.Ok? {
        KidsAdmitted(scope, version, j, h, i + 1, depth, r.value.1);
        var rest := BuildKids(scope, version, j, h, i + 1, depth, r.value.1);
        if rest.Ok? { AdmittedCons(scope, version, r.value.0, rest.value.0); }
      }
    }
  }

  /** Scopes do not interfere: the outcome of an expression, fault and reason included, depends
      only on the bindings that its scope may read. */
  lemma ScopeNonInterference(j: Json, scope: Scope, version: Version, b: Bindings, c: Bindings)
    requires SameView(scope, b, c)
    ensures Run(j, scope, version, b) == Run(j, scope, version, c)
  {
    hide Build; hide SameView; hide Admitted; hide Eval;
    ParsedAdmitted(scope, version, j, 1, Budget(0, 0));
    var r := Build(scope, version, j, 1, Budget(0, 0));
    if r.Ok? {
      EvalSameView(r.value.0, scope, version, b, c);
    }
  }

  // --- version 1.1 inside version 1.2 ---

  const UNSUPPORTED := Invalid(V11_UNSUPPORTED)

  lemma HeadConservative(scope: Scope, j: Json)
    ensures ReadHead(scope, V11, j) == ReadHead(scope, V12, j) || ReadHead(scope, V11, j) == Err(UNSUPPORTED)
  {
    hide BuildConst; hide OpNamed; hide Split; hide Bracketed;
  }

  lemma {:induction false} BuildConservative(scope: Scope, j: Json, depth: nat, b: Budget)
    ensures Build(scope, V11, j, depth, b) == Build(scope, V12, j, depth, b)
      || Build(scope, V11, j, depth, b) == Err(UNSUPPORTED)
    decreases j, 1, 0
  {
    hide ReadHead; hide HeadCost; hide Assemble; hide BuildKids;
    HeadConservative(scope, j);
    if ReadHead(scope, V11, j).Ok? {
      var h := ReadHead(scope, V11, j).value;
      KidsConservative(scope, j, h, 0, depth + 1, Budget(b.nodes + 1, b.cost + HeadCost(h)));
    }
  }

  lemma {:induction false} KidsConservative(scope: Scope, j: Json, h: Head, i: nat, depth: nat, b: Budget)
    requires hide *; ReadHead(scope, V11, j) == Ok(h) && ReadHead(scope, V12, j) == Ok(h) && i <= |Kids(h)|
    ensures BuildKids(scope, V11, j, h, i, depth, b) == BuildKids(scope, V12, j, h, i, depth, b)
      || BuildKids(scope, V11, j, h, i, depth, b) == Err(UNSUPPORTED)
    decreases j, 0, |Kids(h)| - i
  {
    hide ReadHead; hide Build;
    if i < |Kids(h)| {
      KidsSmaller(scope, V11, j, i);
      BuildConservative(scope, Kids(h)[i], depth, b);
      var r := Build(scope, V11, Kids(h)[i], depth, b);
      if r.Ok? {
        KidsConservative(scope, j, h, i + 1, depth, r.value.1);
      }
    }
  }

  /** Version 1.1 gives exactly the 1.2 outcome, reason included, or says that it lacks the feature. */
  lemma VersionConservative(j: Json, scope: Scope, b: Bindings)
    ensures Run(j, scope, V11, b) == Run(j, scope, V12, b)
      || Run(j, scope, V11, b) == Faulted(ValidationPhase, V11_UNSUPPORTED)
  {
    hide Build; hide Eval;
    BuildConservative(scope, j, 1, Budget(0, 0));
  }
}
