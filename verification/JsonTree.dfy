module JsonTree {
  import opened Wrappers

  datatype Json =
    | Null
    | Bool(b: bool)
    | Int(n: int)
    | Str(s: string)
    | Arr(items: seq<Json>)
    | Obj(fields: map<string, Json>)
  {
    function Get(key: string): Option<Json> {
      if Obj? && key in fields then Some(fields[key]) else None
    }
    function AsStr(): Option<string> {
      if Str? then Some(s) else None
    }
  }

  type Path = seq<string>

  predicate Disjoint(p: Path, q: Path) {
    !(p <= q) && !(q <= p)
  }

  function GetIn(v: Json, path: Path): Option<Json>
  {
    if path == [] then Some(v)
    else match v.Get(path[0])
      case None => None
      case Some(child) => GetIn(child, path[1..])
  }

  function Fields(v: Json): map<string, Json> {
    if v.Obj? then v.fields else map[]
  }

  function SetIn(v: Json, path: Path, x: Json): Json
    decreases |path|
  {
    if path == [] then x
    else
      var child := v.Get(path[0]).GetOr(Null);
      Obj(Fields(v)[path[0] := SetIn(child, path[1..], x)])
  }

  function DeleteIn(v: Json, path: Path): Json
    requires path != []
    decreases |path|
  {
    if !v.Obj? then v
    else if |path| == 1 then Obj(v.fields - {path[0]})
    else if path[0] in v.fields then Obj(v.fields[path[0] := DeleteIn(v.fields[path[0]], path[1..])])
    else v
  }

  lemma {:induction false} GetAppend(v: Json, p: Path, q: Path)
    ensures GetIn(v, p + q) == match GetIn(v, p) case None => None case Some(c) => GetIn(c, q)
    decreases |p|
  {
    if p == [] {
      assert p + q == q;
    } else {
      assert (p + q)[0] == p[0] && (p + q)[1..] == p[1..] + q;
      match v.Get(p[0]) {
        case None =>
        case Some(child) => GetAppend(child, p[1..], q);
      }
    }
  }

  lemma {:induction false} GetSet(v: Json, p: Path, x: Json)
    ensures GetIn(SetIn(v, p, x), p) == Some(x)
    decreases |p|
  {
    if p != [] {
      GetSet(v.Get(p[0]).GetOr(Null), p[1..], x);
    }
  }

  lemma {:induction false} SetAppend(v: Json, p: Path, q: Path, x: Json)
    ensures SetIn(v, p + q, x) == SetIn(v, p, SetIn(GetIn(v, p).GetOr(Null), q, x))
    decreases |p|
  {
    if p == [] {
      assert p + q == q;
    } else {
      assert (p + q)[0] == p[0] && (p + q)[1..] == p[1..] + q;
      var child := v.Get(p[0]).GetOr(Null);
      SetAppend(child, p[1..], q, x);
      if v.Get(p[0]).None? {
        assert GetIn(Null, p[1..]).GetOr(Null) == Null;
      }
    }
  }

  lemma DisjointTail(p: Path, q: Path)
    requires p != [] && q != [] && p[0] == q[0] && Disjoint(p, q)
    ensures Disjoint(p[1..], q[1..])
  {
    assert p == [p[0]] + p[1..] && q == [q[0]] + q[1..];
  }

  lemma {:induction false} GetSetDisjoint(v: Json, p: Path, q: Path, x: Json)
    requires Disjoint(p, q)
    ensures GetIn(SetIn(v, p, x), q) == GetIn(v, q)
    decreases |p|
  {
    if p[0] == q[0] {
      DisjointTail(p, q);
      GetSetDisjoint(v.Get(p[0]).GetOr(Null), p[1..], q[1..], x);
    }
  }

  lemma {:induction false} GetDeleteDisjoint(v: Json, p: Path, q: Path)
    requires Disjoint(p, q)
    ensures GetIn(DeleteIn(v, p), q) == GetIn(v, q)
    decreases |p|
  {
    if v.Obj? && p[0] == q[0] && p[0] in v.fields {
      assert |p| != 1;
      DisjointTail(p, q);
      GetDeleteDisjoint(v.fields[p[0]], p[1..], q[1..]);
    }
  }
}
