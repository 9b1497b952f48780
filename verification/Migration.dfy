/** The v1 to v2 registry upgrade: the loop over agent ids is one pointwise rewrite, and the owner
    gate answers as before. */
module Migration {
  import opened Wrappers
  import opened JsonTree
  import opened Text
  import Gas
  import Owners
  import Quorum
  import opened Reducer
  import Taxonomy
  import V = Validator

  const AGENTS: Path := ["registry", "agents"]

  predicate IsV2(rec: Json) {
    rec.Get("owners").Some? && rec.Get("owners").value.Arr?
  }

  /** A record is rewritten when it has an owner key and no owners list. */
  predicate NeedsMigration(rec: Json) {
    !IsV2(rec) && rec.Get("owner_pubkey").Some?
  }

  function OwnerKey(rec: Json): string {
    V.StrOr(rec.Get("owner_pubkey"), "")
  }

  function NewOwners(pk: string): Json {
    Arr(if pk == "" then [] else [Str(pk)])
  }

  function NewThreshold(pk: string): Json {
    Int(if pk == "" then 0 else 1)
  }

  function MigrateRecord(rec: Json): Json {
    if !NeedsMigration(rec) then rec
    else
      var pk := OwnerKey(rec);
      Obj(rec.fields["owners" := NewOwners(pk)]["threshold" := NewThreshold(pk)] - {"owner_pubkey"})
  }

  function MigrateAgents(agents: map<string, Json>): map<string, Json> {
    map id | id in agents :: MigrateRecord(agents[id])
  }

  /** Every agent record rewritten on its own; nothing else touched. */
  function Migrated(state: Json): Json {
    match GetIn(state, AGENTS)
    case Some(Obj(agents)) => SetIn(state, AGENTS, Obj(MigrateAgents(agents)))
    case _ => state
  }

  // --- the state-threading loop ---

  lemma {:induction false} SetSet(v: Json, p: Path, x: Json, y: Json)
    ensures SetIn(SetIn(v, p, x), p, y) == SetIn(v, p, y)
    decreases |p|
  {
    if p != [] {
      SetSet(v.Get(p[0]).GetOr(Null), p[1..], x, y);
      var z := SetIn(v.Get(p[0]).GetOr(Null), p[1..], x);
      assert Fields(v)[p[0] := z][p[0] := SetIn(z, p[1..], y)] == Fields(v)[p[0] := SetIn(z, p[1..], y)];
    }
  }

  lemma {:induction false} SetSame(v: Json, p: Path)
    requires GetIn(v, p).Some?
    ensures SetIn(v, p, GetIn(v, p).value) == v
    decreases |p|
  {
    if p != [] {
      SetSame(v.fields[p[0]], p[1..]);
      assert v.fields[p[0] := v.fields[p[0]]] == v.fields;
    }
  }

  lemma SetBelow(v: Json, p: Path, x: Json, q: Path, y: Json)
    ensures SetIn(SetIn(v, p, x), p + q, y) == SetIn(v, p, SetIn(x, q, y))
  {
    GetSet(v, p, x);
    SetAppend(SetIn(v, p, x), p, q, y);
    SetSet(v, p, x, SetIn(x, q, y));
  }

  lemma {:induction false} DeleteBelow(v: Json, p: Path, x: Json, q: Path)
    requires q != []
    ensures DeleteIn(SetIn(v, p, x), p + q) == SetIn(v, p, DeleteIn(x, q))
    decreases |p|
  {
    if p == [] {
      assert p + q == q;
    } else {
      assert (p + q)[0] == p[0] && (p + q)[1..] == p[1..] + q;
      var w := v.Get(p[0]).GetOr(Null);
      DeleteBelow(w, p[1..], x, q);
      assert Fields(v)[p[0] := SetIn(w, p[1..], x)][p[0] := SetIn(w, p[1..], DeleteIn(x, q))]
          == Fields(v)[p[0] := SetIn(w, p[1..], DeleteIn(x, q))];
    }
  }

  /** Agents whose ids are in done are rewritten, the others not yet. */
  function Partly(agents: map<string, Json>, done: set<string>): map<string, Json> {
    map id | id in agents :: if id in done then MigrateRecord(agents[id]) else agents[id]
  }

  function Rewritten(s: Json, id: string, pk: string): Json {
    var s1 := SetIn(s, AGENTS + [id, "owners"], NewOwners(pk));
    var s2 := SetIn(s1, AGENTS + [id, "threshold"], NewThreshold(pk));
    DeleteIn(s2, AGENTS + [id, "owner_pubkey"])
  }

  lemma SetField(m: map<string, Json>, id: string, field: string, y: Json)
    requires id in m && m[id].Obj?
    ensures SetIn(Obj(m), [id, field], y) == Obj(m[id := Obj(m[id].fields[field := y])])
  {
    assert [id, field][1..] == [field] && [field][1..] == [];
    assert SetIn(m[id], [field], y) == Obj(m[id].fields[field := y]);
  }

  lemma DeleteField(m: map<string, Json>, id: string, field: string)
    requires id in m && m[id].Obj?
    ensures DeleteIn(Obj(m), [id, field]) == Obj(m[id := Obj(m[id].fields - {field})])
  {
    assert [id, field][1..] == [field];
  }

  lemma RewriteOne(state: Json, m: map<string, Json>, id: string)
    requires id in m && NeedsMigration(m[id])
    ensures Rewritten(SetIn(state, AGENTS, Obj(m)), id, OwnerKey(m[id]))
      == SetIn(state, AGENTS, Obj(m[id := MigrateRecord(m[id])]))
  {
    hide SetIn; hide DeleteIn; hide GetIn; hide AGENTS; hide OwnerKey; hide NewOwners; hide NewThreshold;
    var pk, f := OwnerKey(m[id]), m[id].fields;
    var m1 := m[id := Obj(f["owners" := NewOwners(pk)])];
    var m2 := m1[id := Obj(f["owners" := NewOwners(pk)]["threshold" := NewThreshold(pk)])];
    SetBelow(state, AGENTS, Obj(m), [id, "owners"], NewOwners(pk));
    SetField(m, id, "owners", NewOwners(pk));
    SetBelow(state, AGENTS, Obj(m1), [id, "threshold"], NewThreshold(pk));
    SetField(m1, id, "threshold", NewThreshold(pk));
    DeleteBelow(state, AGENTS, Obj(m2), [id, "owner_pubkey"]);
    DeleteField(m2, id, "owner_pubkey");
    assert m2[id := MigrateRecord(m[id])] == m[id := MigrateRecord(m[id])];
  }

  lemma AgentAt(state: Json, m: map<string, Json>, id: string)
    ensures GetIn(SetIn(state, AGENTS, Obj(m)), AGENTS + [id]) == if id in m then Some(m[id]) else None
  {
    hide AGENTS;
    GetSet(state, AGENTS, Obj(m));
    GetAppend(SetIn(state, AGENTS, Obj(m)), AGENTS, [id]);
    assert [id][1..] == [];
  }

  lemma StartPartly(state: Json, agents: map<string, Json>)
    requires GetIn(state, AGENTS) == Some(Obj(agents))
    ensures SetIn(state, AGENTS, Obj(Partly(agents, {}))) == state
  {
    assert Partly(agents, {}) == agents;
    SetSame(state, AGENTS);
  }

  lemma PartlyStep(agents: map<string, Json>, done: set<string>, id: string)
    requires id in agents && id !in done
    ensures Partly(agents, done)[id] == agents[id]
    ensures Partly(agents, done + {id}) == Partly(agents, done)[id := MigrateRecord(agents[id])]
    ensures MigrateRecord(agents[id]) == agents[id] ==> Partly(agents, done + {id}) == Partly(agents, done)
  {
    hide MigrateRecord;
    assert Partly(agents, done + {id}) == Partly(agents, done)[id := MigrateRecord(agents[id])];
    assert Partly(agents, done)[id := agents[id]] == Partly(agents, done);
  }

  /** The state before turn i of the loop. */
  function Turn(state: Json, agents: map<string, Json>, ids: seq<string>, i: nat): Json
    requires i <= |ids|
  {
    SetIn(state, AGENTS, Obj(Partly(agents, Elements(ids[..i]))))
  }

  lemma OneTurn(state: Json, agents: map<string, Json>, ids: seq<string>, i: nat)
    requires Ascending(ids) && Elements(ids) == agents.Keys && i < |ids|
    ensures var s := Turn(state, agents, ids, i);
      var rec := GetIn(s, AGENTS + [ids[i]]);
      && rec.Some?
      && Turn(state, agents, ids, i + 1) == if NeedsMigration(rec.value) then Rewritten(s, ids[i], OwnerKey(rec.value))
        else s
  {
    hide AGENTS; hide SetIn; hide GetIn; hide DeleteIn; hide MigrateRecord; hide OwnerKey; hide NewOwners;
    hide NewThreshold; hide Partly;
    hide NeedsMigration; hide Rewritten; hide Ascending;
    var id, done := ids[i], Elements(ids[..i]);
    assert id in Elements(ids);
    FreshId(ids, i);
    PartlyStep(agents, done, id);
    PartlyKeys(agents, done);
    AgentAt(state, Partly(agents, done), id);
    Unneeded(agents[id]);
    if NeedsMigration(agents[id]) {
      RewriteOne(state, Partly(agents, done), id);
    }
  }

  lemma FirstTurn(state: Json, agents: map<string, Json>, ids: seq<string>)
    requires GetIn(state, AGENTS) == Some(Obj(agents)) && Elements(ids) == agents.Keys
    ensures Turn(state, agents, ids, 0) == state
    ensures Turn(state, agents, ids, |ids|) == SetIn(state, AGENTS, Obj(MigrateAgents(agents)))
  {
    assert ids[..0] == [] && ids[..|ids|] == ids;
    assert Elements([]) == {};
    StartPartly(state, agents);
    AllPartly(agents);
  }

  /** One agent after the other in key order, each rewrite on the state the last one left. */
  method MigrateRegistry(state: Json) returns (s: Json)
    ensures s == Migrated(state)
  {
    hide AGENTS; hide GetIn; hide Turn; hide OwnerKey; hide NeedsMigration; hide MigrateAgents; hide SetIn;
    hide DeleteIn;
    hide NewOwners; hide NewThreshold;
    s := state;
    match GetIn(state, AGENTS) {
      case Some(Obj(agents)) =>
        var ids := Sorted(agents.Keys);
        FirstTurn(state, agents, ids);
        for i := 0 to |ids|
          invariant s == Turn(state, agents, ids, i)
        {
          OneTurn(state, agents, ids, i);
          var rec := GetIn(s, AGENTS + [ids[i]]);
          if rec.Some? && NeedsMigration(rec.value) {
            var pk := OwnerKey(rec.value);
            s := SetIn(s, AGENTS + [ids[i], "owners"], NewOwners(pk));
            s := SetIn(s, AGENTS + [ids[i], "threshold"], NewThreshold(pk));
            s := DeleteIn(s, AGENTS + [ids[i], "owner_pubkey"]);
          }
        }
      case _ =>
    }
  }

  lemma Unneeded(rec: Json)
    ensures !NeedsMigration(rec) ==> MigrateRecord(rec) == rec
  {
  }

  lemma PartlyKeys(agents: map<string, Json>, done: set<string>)
    ensures Partly(agents, done).Keys == agents.Keys
  {
  }

  lemma FreshId(ids: seq<string>, i: nat)
    requires Ascending(ids) && i < |ids|
    ensures ids[i] !in Elements(ids[..i]) && Elements(ids[..i + 1]) == Elements(ids[..i]) + {ids[i]}
  {
    if ids[i] in ids[..i] {
      var j :| 0 <= j < i && ids[j] == ids[i];
      AscendingPairs(ids, j, i);
      LessIrreflexive(ids[i]);
    }
    assert ids[..i + 1] == ids[..i] + [ids[i]];
  }

  lemma AllPartly(agents: map<string, Json>)
    ensures Partly(agents, agents.Keys) == MigrateAgents(agents)
  {
  }

  // --- what the rewrite does and leaves alone ---

  lemma RecordOnce(rec: Json)
    ensures !NeedsMigration(MigrateRecord(rec))
    ensures MigrateRecord(MigrateRecord(rec)) == MigrateRecord(rec)
  {
    if NeedsMigration(rec) {
      assert MigrateRecord(rec).Get("owner_pubkey").None?;
    }
  }

  lemma MigratedAgents(state: Json)
    ensures GetIn(Migrated(state), AGENTS) ==
      match GetIn(state, AGENTS)
      case Some(Obj(agents)) => Some(Obj(MigrateAgents(agents)))
      case other => other
  {
    hide AGENTS;
    if GetIn(state, AGENTS).Some? && GetIn(state, AGENTS).value.Obj? {
      GetSet(state, AGENTS, Obj(MigrateAgents(GetIn(state, AGENTS).value.fields)));
    }
  }

  /** Migrating twice is migrating once. */
  lemma MigrationIdempotent(state: Json)
    ensures Migrated(Migrated(state)) == Migrated(state)
  {
    MigratedAgents(state);
    hide AGENTS; hide SetIn; hide GetIn; hide MigrateRecord;
    match GetIn(state, AGENTS) {
      case Some(Obj(agents)) =>
        forall id | id in agents ensures MigrateRecord(MigrateRecord(agents[id])) == MigrateRecord(agents[id]) {
          RecordOnce(agents[id]);
        }
        assert MigrateAgents(MigrateAgents(agents)) == MigrateAgents(agents);
        SetSet(state, AGENTS, Obj(MigrateAgents(agents)), Obj(MigrateAgents(agents)));
      case _ =>
    }
  }

  predicate IsOwnerField(f: string) {
    f == "owners" || f == "threshold" || f == "owner_pubkey"
  }

  /** Every path off the agent table reads as before, and so does every path at or below another field
      of an agent. */
  lemma OtherPathsKept(state: Json, q: Path)
    requires Disjoint(q, AGENTS) || (|q| >= 4 && AGENTS <= q && !IsOwnerField(q[3]))
    ensures GetIn(Migrated(state), q) == GetIn(state, q)
  {
    if Disjoint(q, AGENTS) {
      hide AGENTS; hide MigrateAgents;
      match GetIn(state, AGENTS) {
        case Some(Obj(agents)) => GetSetDisjoint(state, AGENTS, q, Obj(MigrateAgents(agents)));
        case _ =>
      }
    } else {
      FieldRead(state, q[2], q[3]);
      BelowField(state, q);
    }
  }

  lemma BelowField(state: Json, q: Path)
    requires |q| >= 4 && AGENTS <= q
    requires GetIn(Migrated(state), AGENTS + [q[2], q[3]]) == GetIn(state, AGENTS + [q[2], q[3]])
    ensures GetIn(Migrated(state), q) == GetIn(state, q)
  {
    hide Migrated; hide GetIn;
    var p, rest := AGENTS + [q[2], q[3]], q[4..];
    assert q == p + rest;
    GetAppend(state, p, rest);
    GetAppend(Migrated(state), p, rest);
  }

  /** A field of an agent after the migration is that field of the rewritten record. */
  lemma FieldRead(state: Json, id: string, f: string)
    ensures var agents := ObjAt(state, AGENTS);
      && GetIn(state, AGENTS + [id, f]) == (if id in agents then agents[id].Get(f) else None)
      && GetIn(Migrated(state), AGENTS + [id, f]) == (if id in agents then MigrateRecord(agents[id]).Get(f) else None)
    ensures !IsOwnerField(f) ==> GetIn(Migrated(state), AGENTS + [id, f]) == GetIn(state, AGENTS + [id, f])
  {
    MigratedAgents(state);
    GetAppend(state, AGENTS, [id, f]);
    GetAppend(Migrated(state), AGENTS, [id, f]);
    hide AGENTS; hide Migrated; hide OwnerKey; hide NewOwners; hide NewThreshold;
    TwoKeys(ObjAt(state, AGENTS), id, f);
    TwoKeys(MigrateAgents(ObjAt(state, AGENTS)), id, f);
  }

  lemma TwoKeys(m: map<string, Json>, id: string, f: string)
    ensures GetIn(Obj(m), [id, f]) == if id in m then m[id].Get(f) else None
    ensures forall j: Json :: !j.Obj? ==> GetIn(j, [id, f]) == None
  {
    assert [id, f][1..] == [f] && [f][1..] == [];
    if id in m {
      assert GetIn(m[id], [f]) == m[id].Get(f);
    }
  }

  // --- the owner gate before and after ---

  lemma MigratedRecord(rec: Json)
    requires NeedsMigration(rec)
    ensures var out := MigrateRecord(rec);
      && out.Get("owners") == Some(NewOwners(OwnerKey(rec)))
      && out.Get("threshold") == Some(NewThreshold(OwnerKey(rec)))
      && out.Get("owner_pubkey") == None
  {
  }

  /** A migrated record is a well-formed 1-of-1 record exactly when there was a key. */
  lemma MigratedWellFormed(rec: Json)
    requires NeedsMigration(rec)
    ensures Owners.WellFormed(MigrateRecord(rec).Get("owners"), MigrateRecord(rec).Get("threshold"))
      <==> OwnerKey(rec) != ""
  {
    MigratedRecord(rec);
    hide MigrateRecord; hide OwnerKey;
  }

  /** One envelope as the node reports it for a v1 record and for the migrated one: a valid owner
      signature lists the only owner and nobody else, a refused one gives any other listing. */
  predicate Bridges(trace: V.Trace, migrated: V.Trace, pk: string) {
    && migrated == trace.(ownerSigners := migrated.ownerSigners)
    && (trace.ownerSigPresent <==> migrated.ownerSigners == Some([pk]))
  }

  lemma SingleQuorum(pk: string, signers: seq<string>)
    requires pk != ""
    ensures Quorum.MultisigQuorum([pk], 1, signers).None? <==> signers == [pk]
  {
  }

  lemma GateOnRecord(s: Json, agent: string, trace: V.Trace)
    ensures V.OwnerGate(s, agent, trace) == (
      match GetIn(s, V.AgentPath(agent, "owners"))
      case Some(Arr(items)) =>
        if V.Strings(items) == [] then Some(V.CAPABILITY_DENIED)
        else
          (match Quorum.MultisigQuorum(V.Strings(items), Gas.AsBig(GetIn(s, V.AgentPath(agent, "threshold")), 0),
            V.Presented(trace))
           case Some(f) =>
             Some(if f.INVALID_SIGNATURE_SET? then V.Reason.INVALID_SIGNATURE_SET else V.Reason.QUORUM_NOT_MET)
           case None => None)
      case _ =>
        if !trace.ownerSigPresent then Some(V.CAPABILITY_DENIED)
        else if V.StrOr(GetIn(s, V.AgentPath(agent, "owner_pubkey")), "") == "" then Some(V.CAPABILITY_DENIED)
        else None)
  {
  }

  lemma PathOf(agent: string, f: string)
    ensures AGENTS + [agent, f] == V.AgentPath(agent, f)
  {
  }

  lemma NewOwnersRead(pk: string)
    ensures NewOwners(pk).Arr? && V.Strings(NewOwners(pk).items) == (if pk == "" then [] else [pk])
    ensures pk != "" ==> Gas.AsBig(Some(NewThreshold(pk)), 0) == 1
  {
    if pk != "" {
      assert NewOwners(pk).items[1..] == [];
    }
  }

  /** The migration keeps the owner gate: it opens for the v1 record exactly when it opens for the
      migrated one, and then the priced number of owner signatures is the same. */
  lemma OwnerGateKept(s: Json, agent: string, trace: V.Trace, migrated: V.Trace)
    requires agent in ObjAt(s, AGENTS) && NeedsMigration(ObjAt(s, AGENTS)[agent])
    requires Bridges(trace, migrated, OwnerKey(ObjAt(s, AGENTS)[agent]))
    ensures V.OwnerGate(s, agent, trace).None? <==> V.OwnerGate(Migrated(s), agent, migrated).None?
    ensures V.OwnerGate(s, agent, trace).None?
      ==> V.OwnerCount(s, agent, trace) == V.OwnerCount(Migrated(s), agent, migrated)
  {
    var rec := ObjAt(s, AGENTS)[agent];
    var pk := OwnerKey(rec);
    assert V.NonEmpty([pk]) == if pk == "" then 0 else 1 by { assert [pk][1..] == []; }
    hide AGENTS; hide Migrated; hide GetIn; hide ObjAt; hide MigrateRecord; hide NewOwners; hide NewThreshold;
    hide V.OwnerGate;
    hide V.AgentPath; hide Quorum.MultisigQuorum; hide V.Strings; hide Gas.AsBig; hide V.NonEmpty;
    FieldRead(s, agent, "owners");
    FieldRead(s, agent, "threshold");
    FieldRead(s, agent, "owner_pubkey");
    PathOf(agent, "owners");
    PathOf(agent, "threshold");
    PathOf(agent, "owner_pubkey");
    MigratedRecord(rec);
    NewOwnersRead(pk);
    GateOnRecord(s, agent, trace);
    GateOnRecord(Migrated(s), agent, migrated);
    if pk != "" {
      SingleQuorum(pk, V.Presented(migrated));
    }
  }

  lemma OffTable(agent: string)
    ensures Disjoint(Gas.FLAT_FEE, AGENTS) && Disjoint(Gas.GAS_PRICE, AGENTS) && Disjoint(BOUNDED_MODE, AGENTS)
    ensures Disjoint(BALANCES + [agent], AGENTS)
  {
    assert Gas.FLAT_FEE[0] == "governance" && Gas.GAS_PRICE[0] == "governance" && BOUNDED_MODE[0] == "failure_mode";
    assert (BALANCES + [agent])[0] == "ptra" && AGENTS[0] == "registry";
  }

  lemma PricesKept(s: Json, agent: string)
    ensures Gas.FlatFee(Migrated(s)) == Gas.FlatFee(s) && V.IsBounded(Migrated(s)) == V.IsBounded(s)
    ensures Balance(Migrated(s), agent) == Balance(s, agent)
  {
    OffTable(agent);
    hide AGENTS; hide GetIn; hide Migrated; hide BALANCES; hide Gas.FLAT_FEE; hide Gas.GAS_PRICE; hide BOUNDED_MODE;
    hide Disjoint;
    OtherPathsKept(s, Gas.FLAT_FEE);
    OtherPathsKept(s, BOUNDED_MODE);
    OtherPathsKept(s, BALANCES + [agent]);
  }

  lemma CapabilityKept(s: Json, agent: string, action: string)
    ensures V.CapabilityGrants(Migrated(s), agent, action) == V.CapabilityGrants(s, agent, action)
    ensures GetIn(Migrated(s), V.AgentPath(agent, "operator_pubkey")) == GetIn(s, V.AgentPath(agent, "operator_pubkey"))
  {
    assert !IsOwnerField("granted_scopes") && !IsOwnerField("operator_pubkey") by {
      assert "granted_scopes"[0] == 'g' && "operator_pubkey"[1] == 'p' && "owners"[1] == 'w'
        && "owner_pubkey"[1] == 'w';
    }
    hide AGENTS; hide GetIn; hide Migrated; hide IsOwnerField; hide V.AgentPath; hide Taxonomy.RequiredScopes;
    hide V.Granted;
    FieldRead(s, agent, "granted_scopes");
    FieldRead(s, agent, "operator_pubkey");
    PathOf(agent, "granted_scopes");
    PathOf(agent, "operator_pubkey");
  }

  lemma SpamChargeKept(cal: Json, s: Json)
    ensures hide *; Gas.Settle(Gas.FailedPrecond, cal, s, 0, 0) == Gas.Settle(Gas.FailedPrecond, cal, Migrated(s), 0, 0)
  {
    hide Gas.FlatFee; hide V.IsBounded; hide Balance; hide Migrated; hide Gas.MaxGas; hide Gas.AgentId;
    hide Gas.ConsumedBill;
    PricesKept(s, "");
    if Gas.AgentId(cal).Some? { PricesKept(s, Gas.AgentId(cal).value); }
  }

  /** All signature gates answer alike before and after the migration; an accepted envelope is
      priced the same, a refused one is charged the same. */
  lemma SignatureGateKept(cal: Json, ch: string, s: Json, trace: V.Trace, migrated: V.Trace)
    requires hide *; V.StrOr(cal.Get("agent_id"), "") in ObjAt(s, AGENTS)
    requires var rec := ObjAt(s, AGENTS)[V.StrOr(cal.Get("agent_id"), "")];
      NeedsMigration(rec) && Bridges(trace, migrated, OwnerKey(rec))
    ensures var c, d := V.BuildContext(cal, ch, s, trace), V.BuildContext(cal, ch, Migrated(s), migrated);
      && (V.SignatureGate(c).None? <==> V.SignatureGate(d).None?)
      && (V.SignatureGate(c).None? ==> c.ownerAuth == d.ownerAuth)
      && Gas.Settle(Gas.FailedPrecond, cal, s, 0, 0) == Gas.Settle(Gas.FailedPrecond, cal, Migrated(s), 0, 0)
  {
    var agent, action := V.StrOr(cal.Get("agent_id"), ""), V.StrOr(cal.Get("action"), "");
    SpamChargeKept(cal, s);
    hide V.StrOr; hide Gas.FlatFee; hide V.IsBounded; hide Balance; hide V.CapabilityGrants; hide GetIn;
    hide V.OwnerGate;
    hide V.OwnerCount; hide Migrated; hide V.AgentPath; hide Gas.MaxGas; hide Gas.AsBig; hide NeedsMigration;
    hide OwnerKey;
    hide Gas.OwnerAuthUnits; hide V.OwnerGated; hide ObjAt; hide AGENTS; hide Gas.Settle;
    PricesKept(s, agent);
    CapabilityKept(s, agent, action);
    OwnerGateKept(s, agent, trace, migrated);
  }
}
