/** Binary Merkle trees and the state root. Byte strings and text are both sequences of symbols;
    the hash is a parameter, so binding is proved up to an explicit collision of it. */
module Merkle {
  import opened Wrappers
  import opened JsonTree
  import opened Text
  import opened JcsText
  import opened Jcs
  import JcsRoundTrip

  type Digest = s: string | |s| == 32 witness seq(32, _ => 'x')
  type Hash = string -> Digest

  const STATE_V1 := "PARADIGM_TERRA_STATE_V1"
  const STATE_ROOT_V1 := "PARADIGM_TERRA_STATE_ROOT_V1"
  const MERKLE_LEAF_V1 := "PARADIGM_TERRA_MERKLE_LEAF_V1"
  const CAL_V1 := "PARADIGM_TERRA_CAL_V1"

  function DomainHash(sha: Hash, tag: string, payload: string): Digest {
    sha(tag + payload)
  }

  /** Two different inputs with one digest. */
  predicate Collides(sha: Hash, x: string, y: string) {
    x != y && sha(x) == sha(y)
  }

  lemma DomainBinds(sha: Hash, tag: string, p: string, q: string)
    requires DomainHash(sha, tag, p) == DomainHash(sha, tag, q)
    ensures p == q || Collides(sha, tag + p, tag + q)
  {
    if tag + p == tag + q {
      assert (tag + p)[|tag|..] == p && (tag + q)[|tag|..] == q;
    }
  }

  datatype MerkleCode = MERKLE_EMPTY | STATE_ROOT_EMPTY | DUPLICATE_NAMESPACE | NAME_TOO_LONG
    | NONCANONICAL(code: JcsCode)

  // --- the level loop ---

  function Right(level: seq<Digest>, i: nat): Digest
    requires 2 * i < |level|
  {
    if 2 * i + 1 < |level| then level[2 * i + 1] else level[2 * i]
  }

  function NodeHash(sha: Hash, tag: string, level: seq<Digest>, i: nat): Digest
    requires 2 * i < |level|
  {
    DomainHash(sha, tag, level[2 * i] + Right(level, i))
  }

  function NextLevel(sha: Hash, tag: string, level: seq<Digest>): (next: seq<Digest>)
    ensures |next| == (|level| + 1) / 2
  {
    seq((|level| + 1) / 2, i requires 0 <= i < (|level| + 1) / 2 => NodeHash(sha, tag, level, i))
  }

  function Root(sha: Hash, tag: string, level: seq<Digest>): Digest
    requires level != []
    decreases |level|
  {
    if |level| == 1 then level[0] else Root(sha, tag, NextLevel(sha, tag, level))
  }

  /** Rebuilds the level until one digest is left; an odd last digest is paired with itself. */
  method BinaryMerkle(sha: Hash, tag: string, leaves: seq<Digest>) returns (r: Result<Digest, MerkleCode>)
    ensures r == if leaves == [] then Err(MERKLE_EMPTY) else Ok(Root(sha, tag, leaves))
  {
    if leaves == [] {
      return Err(MERKLE_EMPTY);
    }
    var level := leaves;
    while |level| > 1
      invariant level != []
      invariant Root(sha, tag, level) == Root(sha, tag, leaves)
      decreases |level|
    {
      var next: seq<Digest> := [];
      var i := 0;
      while i < |level|
        invariant i % 2 == 0 && i <= |level| + 1 && |next| == i / 2
        invariant forall k :: 0 <= k < |next| ==> next[k] == NodeHash(sha, tag, level, k)
      {
        var left: string := level[i];
        var right: string := if i + 1 < |level| then level[i + 1] else left;
        next := next + [DomainHash(sha, tag, left + right)];
        i := i + 2;
      }
      assert next == NextLevel(sha, tag, level);
      level := next;
    }
    return Ok(level[0]);
  }

  lemma Halves(l: Digest, r: Digest, l': Digest, r': Digest)
    requires l + r == l' + r'
    ensures l == l' && r == r'
  {
    assert (l + r)[..32] == l && (l' + r')[..32] == l' && (l + r)[32..] == r && (l' + r')[32..] == r';
  }

  lemma LevelBinds(sha: Hash, tag: string, a: seq<Digest>, b: seq<Digest>) returns (x: string, y: string)
    requires |a| == |b| && NextLevel(sha, tag, a) == NextLevel(sha, tag, b)
    ensures a == b || Collides(sha, x, y)
  {
    x, y := "", "";
    if a != b {
      var j :| 0 <= j < |a| && a[j] != b[j];
      var i := j / 2;
      assert NextLevel(sha, tag, a)[i] == NextLevel(sha, tag, b)[i];
      var p, q := a[2 * i] + Right(a, i), b[2 * i] + Right(b, i);
      if p == q { Halves(a[2 * i], Right(a, i), b[2 * i], Right(b, i)); }
      DomainBinds(sha, tag, p, q);
      x, y := tag + p, tag + q;
    }
  }

  /** Equal roots over equally many leaves: the same leaves, or a collision in hand. */
  lemma {:induction false} RootBinds(sha: Hash, tag: string, a: seq<Digest>, b: seq<Digest>)
      returns (x: string, y: string)
    requires |a| == |b| && a != [] && Root(sha, tag, a) == Root(sha, tag, b)
    ensures a == b || Collides(sha, x, y)
    decreases |a|
  {
    if |a| == 1 {
      x, y := "", "";
    } else {
      x, y := RootBinds(sha, tag, NextLevel(sha, tag, a), NextLevel(sha, tag, b));
      if !Collides(sha, x, y) {
        x, y := LevelBinds(sha, tag, a, b);
      }
    }
  }

  /** Why the leaf count matters: repeating the last of an odd number of leaves keeps the root. */
  lemma RepeatedLastLeaf(sha: Hash, tag: string, a: seq<Digest>)
    requires |a| % 2 == 1 && |a| > 1
    ensures Root(sha, tag, a + [a[|a| - 1]]) == Root(sha, tag, a)
  {
    var b := a + [a[|a| - 1]];
    forall i | 0 <= i < (|a| + 1) / 2 ensures NodeHash(sha, tag, b, i) == NodeHash(sha, tag, a, i) {
      assert b[2 * i] == a[2 * i] && Right(b, i) == Right(a, i);
    }
    assert NextLevel(sha, tag, b) == NextLevel(sha, tag, a);
  }

  // --- the state root ---

  function EncodeUint16(n: nat): string
    requires n < 0x10000
  {
    [(n / 256) as char, (n % 256) as char]
  }

  datatype Namespace = Namespace(name: string, bytes: string)

  function LeafHash(sha: Hash, ns: Namespace): Digest
    requires |ns.name| < 0x10000
  {
    var inner := DomainHash(sha, STATE_V1, ns.bytes);
    DomainHash(sha, STATE_ROOT_V1, EncodeUint16(|ns.name|) + ns.name + inner)
  }

  lemma LeafBinds(sha: Hash, a: Namespace, b: Namespace) returns (x: string, y: string)
    requires |a.name| < 0x10000 && |b.name| < 0x10000 && LeafHash(sha, a) == LeafHash(sha, b)
    ensures a == b || Collides(sha, x, y)
  {
    var ia, ib := DomainHash(sha, STATE_V1, a.bytes), DomainHash(sha, STATE_V1, b.bytes);
    var pa, pb := EncodeUint16(|a.name|) + a.name + ia, EncodeUint16(|b.name|) + b.name + ib;
    DomainBinds(sha, STATE_ROOT_V1, pa, pb);
    x, y := STATE_ROOT_V1 + pa, STATE_ROOT_V1 + pb;
    if pa == pb {
      assert |pa| == 2 + |a.name| + 32 && |pb| == 2 + |b.name| + 32;
      assert pa[2..2 + |a.name|] == a.name && pb[2..2 + |b.name|] == b.name;
      assert pa[2 + |a.name|..] == ia && pb[2 + |b.name|..] == ib;
      DomainBinds(sha, STATE_V1, a.bytes, b.bytes);
      x, y := STATE_V1 + a.bytes, STATE_V1 + b.bytes;
    }
  }

  /** Name to canonical bytes; on duplicates the first one stands, but those are refused. */
  function ByName(nss: seq<Namespace>): map<string, string> {
    if nss == [] then map[] else ByName(nss[1..])[nss[0].name := nss[0].bytes]
  }

  predicate Distinct(nss: seq<Namespace>) {
    forall i, j :: 0 <= i < j < |nss| ==> nss[i].name != nss[j].name
  }

  function Leaves(sha: Hash, m: map<string, string>, keys: seq<string>): seq<Digest>
    requires forall k :: k in keys ==> k in m && |k| < 0x10000
  {
    seq(|keys|, i requires 0 <= i < |keys| => LeafHash(sha, Namespace(keys[i], m[keys[i]])))
  }

  predicate NamesFit(m: map<string, string>) {
    forall k :: k in m ==> |k| < 0x10000
  }

  function StateRoot(sha: Hash, nss: seq<Namespace>): Result<Digest, MerkleCode> {
    if nss == [] then Err(STATE_ROOT_EMPTY)
    else if !Distinct(nss) then Err(DUPLICATE_NAMESPACE)
    else
      var m := ByName(nss);
      if !NamesFit(m) then Err(NAME_TOO_LONG)
      else
        var keys := Sorted(m.Keys);
        SortedIn(m);
        if keys == [] then Err(MERKLE_EMPTY)
        else Ok(Root(sha, STATE_ROOT_V1, Leaves(sha, m, keys)))
  }

  lemma SortedIn(m: map<string, string>)
    ensures forall k :: k in Sorted(m.Keys) <==> k in m
  {
    forall k ensures k in Sorted(m.Keys) <==> k in m {
      assert k in Sorted(m.Keys) <==> k in Elements(Sorted(m.Keys));
    }
  }

  lemma {:induction false} ByNameAt(nss: seq<Namespace>, i: nat)
    requires Distinct(nss) && i < |nss|
    ensures nss[i].name in ByName(nss) && ByName(nss)[nss[i].name] == nss[i].bytes
    ensures forall k :: k in ByName(nss) ==> exists j :: 0 <= j < |nss| && nss[j].name == k
  {
    if i > 0 {
      assert nss[1..][i - 1] == nss[i];
      ByNameAt(nss[1..], i - 1);
      forall k | k in ByName(nss) ensures exists j :: 0 <= j < |nss| && nss[j].name == k {
        if k != nss[0].name {
          var j :| 0 <= j < |nss[1..]| && nss[1..][j].name == k;
          assert nss[j + 1].name == k;
        }
      }
    } else if |nss| > 1 {
      ByNameAt(nss[1..], 0);
      forall k | k in ByName(nss) ensures exists j :: 0 <= j < |nss| && nss[j].name == k {
        if k != nss[0].name {
          var j :| 0 <= j < |nss[1..]| && nss[1..][j].name == k;
          assert nss[j + 1].name == k;
        }
      }
    } else {
      assert nss[1..] == [];
    }
  }

  /** The duplicate scan and the leaf loop of the source. */
  method ComputeStateRoot(sha: Hash, nss: seq<Namespace>) returns (r: Result<Digest, MerkleCode>)
    ensures r == StateRoot(sha, nss)
  {
    hide LeafHash; hide Root; hide ByName; hide Sorted;
    if nss == [] {
      return Err(STATE_ROOT_EMPTY);
    }
    var seen: set<string> := {};
    for i := 0 to |nss|
      invariant seen == set j | 0 <= j < i :: nss[j].name
      invariant forall j, k :: 0 <= j < k < i ==> nss[j].name != nss[k].name
    {
      if nss[i].name in seen {
        return Err(DUPLICATE_NAMESPACE);
      }
      seen := seen + {nss[i].name};
    }
    var m := ByName(nss);
    var keys := Sorted(m.Keys);
    SortedIn(m);
    var leaves: seq<Digest> := [];
    for i := 0 to |keys|
      invariant forall j :: 0 <= j < i ==> |keys[j]| < 0x10000
      invariant |leaves| == i && forall j :: 0 <= j < i ==> leaves[j] == LeafHash(sha, Namespace(keys[j], m[keys[j]]))
    {
      if |keys[i]| >= 0x10000 {
        return Err(NAME_TOO_LONG);
      }
      leaves := leaves + [LeafHash(sha, Namespace(keys[i], m[keys[i]]))];
    }
    assert forall k :: k in m ==> k in keys;
    assert leaves == Leaves(sha, m, keys);
    r := BinaryMerkle(sha, STATE_ROOT_V1, leaves);
  }

  /** One root, one set of names: the same bytes under every name, or a collision. */
  lemma StateRootBinds(sha: Hash, a: seq<Namespace>, b: seq<Namespace>) returns (x: string, y: string)
    requires StateRoot(sha, a).Ok? && StateRoot(sha, a) == StateRoot(sha, b)
    requires ByName(a).Keys == ByName(b).Keys
    ensures ByName(a) == ByName(b) || Collides(sha, x, y)
  {
    hide LeafHash; hide Root; hide ByName; hide Distinct; hide Sorted;
    var m, n := ByName(a), ByName(b);
    var keys := Sorted(m.Keys);
    SortedIn(m);
    SortedIn(n);
    x, y := RootBinds(sha, STATE_ROOT_V1, Leaves(sha, m, keys), Leaves(sha, n, keys));
    if !Collides(sha, x, y) && m != n {
      var k :| k in m && m[k] != n[k];
      assert k in keys;
      var i :| 0 <= i < |keys| && keys[i] == k;
      assert Leaves(sha, m, keys)[i] == Leaves(sha, n, keys)[i];
      x, y := LeafBinds(sha, Namespace(k, m[k]), Namespace(k, n[k]));
    }
  }

  const NAMESPACES: seq<string> :=
    ["cal", "failure_mode", "governance", "oracles", "ptra", "registry", "tick", "treasury"]

  function Content(state: Json, name: string): Json {
    GetIn(state, [name]).GetOr(Null)
  }

  predicate Canonicalizable(state: Json) {
    forall i :: 0 <= i < |NAMESPACES| ==> BomFree(Content(state, NAMESPACES[i]))
  }

  function NamespacesOf(state: Json): (nss: seq<Namespace>)
    ensures |nss| == |NAMESPACES|
    ensures forall i :: 0 <= i < |NAMESPACES| ==>
      nss[i] == Namespace("state." + NAMESPACES[i], Print(Content(state, NAMESPACES[i])))
  {
    seq(|NAMESPACES|, i requires 0 <= i < |NAMESPACES| =>
      Namespace("state." + NAMESPACES[i], Print(Content(state, NAMESPACES[i]))))
  }

  /** The STATE_ROOT: an absent namespace counts as null, a byte-order mark makes it fail. */
  function StateRootOf(sha: Hash, state: Json): Result<Digest, MerkleCode> {
    if Canonicalizable(state) then StateRoot(sha, NamespacesOf(state)) else Err(NONCANONICAL(BOM_FORBIDDEN))
  }

  lemma NamesDiffer(i: nat, j: nat)
    requires i < j < |NAMESPACES|
    ensures NAMESPACES[i] != NAMESPACES[j]
  {
    assert |NAMESPACES[0]| == 3 && |NAMESPACES[1]| == 12 && |NAMESPACES[2]| == 10 && |NAMESPACES[3]| == 7;
    assert |NAMESPACES[4]| == 4 && |NAMESPACES[5]| == 8 && |NAMESPACES[6]| == 4 && |NAMESPACES[7]| == 8;
    assert NAMESPACES[4][0] == 'p' && NAMESPACES[6][0] == 't' && NAMESPACES[5][0] == 'r' && NAMESPACES[7][0] == 't';
  }

  lemma NamespacesDistinct(state: Json)
    ensures Distinct(NamespacesOf(state))
  {
    hide Print; hide Content;
    var nss := NamespacesOf(state);
    forall i, j | 0 <= i < j < |nss| ensures nss[i].name != nss[j].name {
      NamesDiffer(i, j);
      assert nss[i].name[6..] == NAMESPACES[i] && nss[j].name[6..] == NAMESPACES[j];
    }
  }

  lemma NamesOf(s: Json, t: Json)
    ensures ByName(NamespacesOf(s)).Keys == ByName(NamespacesOf(t)).Keys
  {
    hide ByName; hide Distinct; hide NamespacesOf; hide NAMESPACES;
    NamespacesDistinct(s);
    NamespacesDistinct(t);
    forall k ensures k in ByName(NamespacesOf(s)) <==> k in ByName(NamespacesOf(t)) {
      if k in ByName(NamespacesOf(s)) { SameName(s, t, k); }
      if k in ByName(NamespacesOf(t)) { SameName(t, s, k); }
    }
  }

  lemma SameName(s: Json, t: Json, k: string)
    requires Distinct(NamespacesOf(s)) && Distinct(NamespacesOf(t)) && k in ByName(NamespacesOf(s))
    ensures k in ByName(NamespacesOf(t))
  {
    var a, b := NamespacesOf(s), NamespacesOf(t);
    assert |a| > 0;
    hide ByName; hide Distinct; hide NamespacesOf; hide Print;
    ByNameAt(a, 0);
    var j :| 0 <= j < |a| && a[j].name == k;
    ByNameAt(b, j);
    assert b[j].name == k;
  }

  /** Both states have the same contents of all eight namespaces; an absent one counts as null. */
  predicate SameContents(s: Json, t: Json) {
    forall i :: 0 <= i < |NAMESPACES| ==> Content(s, NAMESPACES[i]) == Content(t, NAMESPACES[i])
  }

  /** The state root binds the state: equal roots mean equal contents of all eight namespaces, or
      the proof hands over a collision of the hash. */
  lemma StateBinds(sha: Hash, s: Json, t: Json) returns (x: string, y: string)
    requires StateRootOf(sha, s).Ok? && StateRootOf(sha, s) == StateRootOf(sha, t)
    ensures Collides(sha, x, y) || SameContents(s, t)
  {
    hide Print; hide Content; hide StateRoot; hide ByName; hide BomFree;
    NamesOf(s, t);
    NamespacesDistinct(s);
    NamespacesDistinct(t);
    var a, b := NamespacesOf(s), NamespacesOf(t);
    x, y := StateRootBinds(sha, a, b);
    if !Collides(sha, x, y) {
      forall i | 0 <= i < |NAMESPACES| ensures Content(s, NAMESPACES[i]) == Content(t, NAMESPACES[i]) {
        ByNameAt(a, i);
        ByNameAt(b, i);
        JcsRoundTrip.PrintInjective(Content(s, NAMESPACES[i]), Content(t, NAMESPACES[i]));
      }
    }
  }
}
