/** The typed view of the protected part of the state: balances, fee window, nonces and in-flight
    CALs. `Step` is the reducer on that view; `Refines` ties it to `Apply` on the state tree. */
module Ledgers {
  import opened Wrappers
  import opened JsonTree
  import opened Deltas
  import opened Reducer

  datatype Ledger = Ledger(balances: map<string, nat>, fees: nat, nonces: map<string, nat>,
    flights: map<string, Flight>)

  function Amounts(m: map<string, Json>): map<string, nat> {
    map k | k in m :: UintOf(Some(m[k]))
  }

  function Counters(m: map<string, Json>): map<string, nat> {
    map k | k in m :: NatOf(Some(m[k]))
  }

  ghost predicate Represents(s: Json, l: Ledger) {
    && l.balances == Amounts(ObjAt(s, BALANCES))
    && l.fees == Fees(s)
    && l.nonces == Counters(ObjAt(s, NONCES))
    && l.flights.Keys == ObjAt(s, IN_FLIGHT).Keys
    && forall ch :: ch in l.flights ==> ObjAt(s, IN_FLIGHT)[ch] == Entry(l.flights[ch])
  }

  /** Paths that neither contain nor lie inside the protected part. */
  predicate Outside(q: Path) {
    Disjoint(q, ["cal"]) && Disjoint(q, BALANCES) && Disjoint(q, FEES)
  }

  ghost predicate SameOutside(s: Json, t: Json) {
    forall q: Path :: Outside(q) ==> GetIn(t, q) == GetIn(s, q)
  }

  function At(m: map<string, nat>, a: string): nat {
    if a in m then m[a] else 0
  }

  // --- reads and writes of the state tree, seen on the ledger ---

  lemma ChildAt(s: Json, p: Path, k: string)
    ensures GetIn(s, p + [k]) == if k in ObjAt(s, p) then Some(ObjAt(s, p)[k]) else None
  {
    GetAppend(s, p, [k]);
  }

  lemma SetChild(s: Json, p: Path, k: string, rest: Path, x: Json)
    ensures ObjAt(SetIn(s, p + [k] + rest, x), p)
      == ObjAt(s, p)[k := SetIn(if k in ObjAt(s, p) then ObjAt(s, p)[k] else Null, rest, x)]
  {
    var o := GetIn(s, p).GetOr(Null);
    assert p + [k] + rest == p + ([k] + rest);
    SetAppend(s, p, [k] + rest, x);
    GetSet(s, p, SetIn(o, [k] + rest, x));
    assert ([k] + rest)[1..] == rest;
  }

  lemma PutChild(s: Json, p: Path, k: string, x: Json)
    ensures ObjAt(SetIn(s, p + [k], x), p) == ObjAt(s, p)[k := x]
  {
    SetChild(s, p, k, [], x);
    assert p + [k] + [] == p + [k];
  }

  lemma DeleteChild(s: Json, p: Path, k: string)
    ensures ObjAt(DeleteIn(s, p + [k]), p) == ObjAt(s, p) - {k}
    decreases |p|
  {
    if p == [] {
      assert p + [k] == [k];
    } else if s.Obj? && p[0] in s.fields {
      assert (p + [k])[1..] == p[1..] + [k];
      DeleteChild(s.fields[p[0]], p[1..], k);
    }
  }

  lemma Untouched(s: Json, p: Path, x: Json, q: Path)
    requires Disjoint(p, q)
    ensures ObjAt(SetIn(s, p, x), q) == ObjAt(s, q) && GetIn(SetIn(s, p, x), q) == GetIn(s, q)
    ensures p != [] ==> ObjAt(DeleteIn(s, p), q) == ObjAt(s, q) && GetIn(DeleteIn(s, p), q) == GetIn(s, q)
  {
    GetSetDisjoint(s, p, q, x);
    if p != [] {
      GetDeleteDisjoint(s, p, q);
    }
  }

  /** p extends r, and r and q part ways: so do p and q. */
  lemma DisjointExtend(r: Path, rest: Path, q: Path)
    requires Disjoint(r, q)
    ensures Disjoint(r + rest, q) && Disjoint(q, r + rest)
  {
    assert |q| <= |r| ==> (r + rest)[..|q|] == r[..|q|];
    assert r == (r + rest)[..|r|];
  }

  predicate IsRegister(p: Path) {
    p == BALANCES || p == FEES || p == NONCES || p == IN_FLIGHT
  }

  lemma Registers(p: Path, r: Path)
    requires IsRegister(p) && IsRegister(r) && p != r
    ensures Disjoint(p, r)
  {
    assert BALANCES[0] == "ptra" && FEES[0] == "treasury" && NONCES[0] == "cal" && IN_FLIGHT[0] == "cal";
    assert NONCES[1] == "nonces" && IN_FLIGHT[1] == "in_flight";
    assert |BALANCES| == |FEES| == |NONCES| == |IN_FLIGHT| == 2;
  }

  lemma RegistersDiffer()
    ensures BALANCES != FEES && BALANCES != NONCES && BALANCES != IN_FLIGHT
    ensures FEES != NONCES && FEES != IN_FLIGHT && NONCES != IN_FLIGHT
    ensures ["cal"] <= NONCES && ["cal"] <= IN_FLIGHT
  {
    assert BALANCES[0] == "ptra" && FEES[0] == "treasury" && NONCES[0] == "cal" && IN_FLIGHT[0] == "cal";
    assert NONCES[1] == "nonces" && IN_FLIGHT[1] == "in_flight";
  }

  ghost predicate Kept(s: Json, t: Json, r: Path) {
    ObjAt(t, r) == ObjAt(s, r) && GetIn(t, r) == GetIn(s, r)
  }

  ghost predicate Elsewhere(s: Json, t: Json, p: Path) {
    && (p != BALANCES ==> Kept(s, t, BALANCES))
    && (p != FEES ==> Kept(s, t, FEES))
    && (p != NONCES ==> Kept(s, t, NONCES))
    && (p != IN_FLIGHT ==> Kept(s, t, IN_FLIGHT))
  }

  /** Writing or deleting below one register leaves the other three alone, and the outside. */
  lemma OthersKept(s: Json, p: Path, rest: Path, x: Json)
    requires IsRegister(p)
    ensures Elsewhere(s, SetIn(s, p + rest, x), p) && Elsewhere(s, DeleteIn(s, p + rest), p)
    ensures SameOutside(s, SetIn(s, p + rest, x)) && SameOutside(s, DeleteIn(s, p + rest))
  {
    RegistersDiffer();
    forall r | IsRegister(r) && r != p
      ensures Kept(s, SetIn(s, p + rest, x), r) && Kept(s, DeleteIn(s, p + rest), r)
    {
      Registers(p, r);
      hide *;
      DisjointExtend(p, rest, r);
      Untouched(s, p + rest, x, r);
    }
    OutsideKeeps(s, p + rest, x);
  }

  lemma OutsideKeeps(s: Json, p: Path, x: Json)
    requires p != [] && (["cal"] <= p || BALANCES <= p || FEES <= p)
    ensures SameOutside(s, SetIn(s, p, x))
    ensures SameOutside(s, DeleteIn(s, p))
  {
    hide BALANCES; hide FEES;
    forall q: Path | Outside(q)
      ensures GetIn(SetIn(s, p, x), q) == GetIn(s, q)
      ensures GetIn(DeleteIn(s, p), q) == GetIn(s, q)
    {
      var r := if ["cal"] <= p then ["cal"] else if BALANCES <= p then BALANCES else FEES;
      assert p == r + p[|r|..];
      DisjointExtend(r, p[|r|..], q);
      Untouched(s, p, x, q);
    }
  }

  lemma SameOutsideTransitive(s: Json, t: Json, u: Json)
    requires SameOutside(s, t) && SameOutside(t, u)
    ensures SameOutside(s, u)
  {
  }

  lemma PutBalance(s: Json, l: Ledger, a: string, n: nat)
    requires Represents(s, l) && n <= UINT256_MAX
    ensures Represents(SetBalance(s, a, n), l.(balances := l.balances[a := n]))
    ensures SameOutside(s, SetBalance(s, a, n))
    ensures Balance(s, a) == At(l.balances, a)
  {
    RegistersDiffer();
    hide BALANCES; hide FEES; hide NONCES; hide IN_FLIGHT; hide Entry; hide SameOutside; hide SetIn; hide GetIn;
    OthersKept(s, BALANCES, [a], Int(n));
    ChildAt(s, BALANCES, a);
    PutChild(s, BALANCES, a, Int(n));
  }

  lemma PutFees(s: Json, l: Ledger, n: nat)
    requires Represents(s, l) && n <= UINT256_MAX
    ensures Represents(SetIn(s, FEES, Int(n)), l.(fees := n))
    ensures SameOutside(s, SetIn(s, FEES, Int(n)))
  {
    RegistersDiffer();
    hide BALANCES; hide FEES; hide NONCES; hide IN_FLIGHT; hide Entry; hide SameOutside; hide SetIn; hide GetIn;
    assert FEES + [] == FEES;
    OthersKept(s, FEES, [], Int(n));
    GetSet(s, FEES, Int(n));
  }

  lemma PutNonce(s: Json, l: Ledger, a: string)
    requires Represents(s, l)
    ensures Represents(BumpNonce(s, a), l.(nonces := l.nonces[a := At(l.nonces, a) + 1]))
    ensures SameOutside(s, BumpNonce(s, a))
    ensures Nonce(s, a) == At(l.nonces, a)
  {
    RegistersDiffer();
    hide BALANCES; hide FEES; hide NONCES; hide IN_FLIGHT; hide Entry; hide SameOutside; hide SetIn; hide GetIn;
    OthersKept(s, NONCES, [a], Int(Nonce(s, a) + 1));
    ChildAt(s, NONCES, a);
    PutChild(s, NONCES, a, Int(Nonce(s, a) + 1));
  }

  lemma PutFlight(s: Json, l: Ledger, ch: string, rest: Path, x: Json, f: Flight)
    requires Represents(s, l)
    requires SetIn(if ch in l.flights then Entry(l.flights[ch]) else Null, rest, x) == Entry(f)
    ensures Represents(SetIn(s, IN_FLIGHT + [ch] + rest, x), l.(flights := l.flights[ch := f]))
    ensures SameOutside(s, SetIn(s, IN_FLIGHT + [ch] + rest, x))
  {
    RegistersDiffer();
    hide BALANCES; hide FEES; hide NONCES; hide IN_FLIGHT; hide Entry; hide SameOutside; hide SetIn; hide GetIn;
    assert IN_FLIGHT + [ch] + rest == IN_FLIGHT + ([ch] + rest);
    OthersKept(s, IN_FLIGHT, [ch] + rest, x);
    SetChild(s, IN_FLIGHT, ch, rest, x);
  }

  lemma DropFlight(s: Json, l: Ledger, ch: string)
    requires Represents(s, l)
    ensures Represents(DeleteIn(s, IN_FLIGHT + [ch]), l.(flights := l.flights - {ch}))
    ensures SameOutside(s, DeleteIn(s, IN_FLIGHT + [ch]))
  {
    RegistersDiffer();
    hide BALANCES; hide FEES; hide NONCES; hide IN_FLIGHT; hide Entry; hide SameOutside; hide SetIn; hide GetIn;
    OthersKept(s, IN_FLIGHT, [ch], Null);
    DeleteChild(s, IN_FLIGHT, ch);
  }

  /** A register never lies on a path that is outside. */
  lemma OutsideRegister(p: Path, r: Path)
    requires Outside(p) && IsRegister(r)
    ensures Disjoint(p, r)
  {
    var cal := ["cal"];
    assert NONCES == cal + NONCES[1..] && IN_FLIGHT == cal + IN_FLIGHT[1..];
    DisjointExtend(cal, NONCES[1..], p);
    DisjointExtend(cal, IN_FLIGHT[1..], p);
  }

  lemma PutOutside(s: Json, l: Ledger, p: Path, x: Json)
    requires Represents(s, l) && Outside(p) && p != []
    ensures Represents(SetIn(s, p, x), l) && Represents(DeleteIn(s, p), l)
  {
    OutsideRegister(p, FEES);
    OutsideRegister(p, BALANCES);
    OutsideRegister(p, NONCES);
    OutsideRegister(p, IN_FLIGHT);
    hide BALANCES; hide FEES; hide NONCES; hide IN_FLIGHT; hide Entry; hide SetIn; hide GetIn; hide Disjoint;
    Untouched(s, p, x, FEES);
    Untouched(s, p, x, BALANCES);
    Untouched(s, p, x, NONCES);
    Untouched(s, p, x, IN_FLIGHT);
  }

  // --- the fields of an entry ---

  lemma EntryFields(f: Flight)
    ensures AgentOf(Entry(f)) == Some(f.agent)
    ensures forall st: Stage :: IsAt(Entry(f), st) <==> st == f.stage
    ensures f.escrow <= UINT256_MAX ==> EscrowOf(Entry(f)) == f.escrow
    ensures StagedOf(Entry(f)) == f.staged
  {
    forall st: Stage ensures IsAt(Entry(f), st) <==> st == f.stage {
      assert |StageName(CREATED)| == 7 && |StageName(SIGNED)| == 6 && |StageName(VALIDATED)| == 9;
      assert |StageName(EXECUTED)| == 8 && |StageName(SETTLED)| == 7 && StageName(SETTLED)[0] == 'S'
        && StageName(CREATED)[0] == 'C';
    }
  }

  lemma EntryStage(f: Flight, st: Stage)
    ensures SetIn(Entry(f), ["stage"], Str(StageName(st))) == Entry(f.(stage := st))
  {
  }

  lemma EntryEscrow(f: Flight, e: nat)
    ensures SetIn(Entry(f), ["escrowed_ptra"], Int(e)) == Entry(f.(escrow := e))
  {
  }

  lemma EntryGas(f: Flight, g: nat)
    ensures SetIn(Entry(f), ["gas_consumed_ptra"], Int(g)) == Entry(f.(gas := g))
  {
  }

  lemma EntryStaged(f: Flight, ds: seq<Json>)
    ensures SetIn(Entry(f), ["staged"], Arr(ds)) == Entry(f.(staged := ds))
  {
  }
}
