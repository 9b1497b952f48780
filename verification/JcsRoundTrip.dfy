/** The parser undoes the printer on every value. */
module JcsRoundTrip {
  import opened Wrappers
  import opened JsonTree
  import opened Text
  import opened Decimal
  import opened JcsText

  lemma HasSplit(src: string, pos: nat, a: string, b: string)
    requires Has(src, pos, a + b)
    ensures Has(src, pos, a) && Has(src, pos + |a|, b)
  {
    var t := src[pos..pos + |a + b|];
    assert t[..|a|] == a && t[|a|..] == b;
    assert t[..|a|] == src[pos..pos + |a|] && t[|a|..] == src[pos + |a|..pos + |a| + |b|];
  }

  lemma HasAt(src: string, pos: nat, t: string, i: nat)
    requires Has(src, pos, t) && i < |t|
    ensures pos + |t| <= |src| && src[pos + i] == t[i]
  {
    assert src[pos..pos + |t|][i] == src[pos + i];
  }

  lemma HexBack(d: nat)
    requires d < 16
    ensures HexValue(HexChar(d)) == Some(d)
  {
  }

  lemma CharBack(src: string, pos: nat, c: char)
    requires Has(src, pos, EscapeChar(c))
    ensures pos < |src| && src[pos] != '"' && ReadChar(src, pos) == Ok((c, pos + |EscapeChar(c)|))
  {
    var t := EscapeChar(c);
    HasAt(src, pos, t, 0);
    if |t| >= 2 { HasAt(src, pos, t, 1); }
    if |t| == 6 {
      HasAt(src, pos, t, 2);
      HasAt(src, pos, t, 3);
      HasAt(src, pos, t, 4);
      HasAt(src, pos, t, 5);
      HexBack(c as int / 16);
      HexBack(c as int % 16);
    }
  }

  lemma EscapeHead(s: string)
    requires s != ""
    ensures Escape(s) + "\"" == EscapeChar(s[0]) + (Escape(s[1..]) + "\"")
    ensures |Escape(s)| == |EscapeChar(s[0])| + |Escape(s[1..])|
  {
  }

  lemma EscapeEmpty()
    ensures Escape("") == "" && Escape("") + "\"" == "\""
  {
  }

  lemma {:induction false} CharsBack(src: string, pos: nat, s: string, acc: string)
    requires Has(src, pos, Escape(s) + "\"")
    ensures pos <= |src| && ReadChars(src, pos, acc) == Ok((acc + s, pos + |Escape(s)| + 1))
    decreases |s|
  {
    hide Has; hide EscapeChar; hide ReadChar; hide Escape;
    if s == "" {
      EscapeEmpty();
      HasAt(src, pos, "\"", 0);
      assert acc + s == acc;
    } else {
      EscapeHead(s);
      var t := EscapeChar(s[0]);
      HasSplit(src, pos, t, Escape(s[1..]) + "\"");
      CharBack(src, pos, s[0]);
      CharsBack(src, pos + |t|, s[1..], acc + [s[0]]);
      assert acc + [s[0]] + s[1..] == acc + s;
    }
  }

  lemma QuoteText(s: string)
    ensures Quote(s) == "\"" + (Escape(s) + "\"") && |Quote(s)| == |Escape(s)| + 2
  {
  }

  lemma StringBack(src: string, pos: nat, s: string)
    requires Has(src, pos, Quote(s))
    ensures pos < |src| && src[pos] == '"' && ReadString(src, pos) == Ok((s, pos + |Quote(s)|))
  {
    hide Has; hide Escape; hide ReadChars; hide Quote;
    QuoteText(s);
    HasSplit(src, pos, "\"", Escape(s) + "\"");
    HasAt(src, pos, "\"", 0);
    CharsBack(src, pos + 1, s, "");
    assert "" + s == s;
  }

  /** What may follow a value in canonical text. */
  predicate Ends(src: string, p: nat) {
    p == |src| || (p < |src| && (src[p] == ',' || src[p] == ']' || src[p] == '}'))
  }

  lemma {:induction false} DigitsEndAt(src: string, pos: nat, end: nat)
    requires pos <= end <= |src| && AllDigits(src[pos..end])
    requires end == |src| || !IsDigit(src[end])
    ensures DigitsEnd(src, pos) == end
    decreases end - pos
  {
    if pos < end {
      assert src[pos..end][0] == src[pos];
      assert src[pos + 1..end] == src[pos..end][1..];
      DigitsEndAt(src, pos + 1, end);
    }
  }

  lemma DigitsBack(src: string, pos: nat, n: nat)
    requires Has(src, pos, DecText(n)) && Ends(src, pos + |DecText(n)|)
    ensures pos < |src| && IsDigit(src[pos]) && (src[pos] == '0' <==> n == 0)
    ensures src[pos] == '0' ==> |DecText(n)| == 1
    ensures src[pos] != '0' ==> DigitsEnd(src, pos) == pos + |DecText(n)|
    ensures src[pos..pos + |DecText(n)|] == DecText(n)
  {
    HasAt(src, pos, DecText(n), 0);
    DigitsEndAt(src, pos, pos + |DecText(n)|);
  }

  lemma NumberBack(src: string, pos: nat, n: int)
    requires Has(src, pos, IntText(n)) && Ends(src, pos + |IntText(n)|)
    ensures pos < |src| && (src[pos] == '-' || IsDigit(src[pos]))
    ensures ReadNumber(src, pos) == Ok((n, pos + |IntText(n)|))
  {
    hide DecText; hide ReadNumber; hide Ends; hide Has; hide DigitsEnd; hide Number;
    if n < 0 {
      HasSplit(src, pos, "-", DecText(-n));
      HasAt(src, pos, "-", 0);
      DigitsBack(src, pos + 1, -n);
      DigitsRead(src, pos, true, -n);
    } else {
      DigitsBack(src, pos, n);
      DigitsRead(src, pos, false, n);
    }
  }

  /** The digits of n, after a minus sign if there is one, are read as that number. */
  lemma DigitsRead(src: string, pos: nat, neg: bool, n: nat)
    requires pos < |src| && (src[pos] == '-' <==> neg) && (neg ==> n != 0)
    requires var start := if neg then pos + 1 else pos;
      Has(src, start, DecText(n)) && Ends(src, start + |DecText(n)|)
    ensures var start := if neg then pos + 1 else pos;
      ReadNumber(src, pos) == Ok((if neg then -(n as int) else n, start + |DecText(n)|))
  {
    hide Has; hide DigitsEnd; hide DecText; hide Number;
    DigitsBack(src, if neg then pos + 1 else pos, n);
    NumberOf(n);
  }

  lemma NumberOf(n: nat)
    ensures Number(DecText(n)) == n
  {
  }

  lemma NoSpace(src: string, pos: nat)
    requires pos <= |src| && (pos == |src| || !IsSpace(src[pos]))
    ensures SkipSpace(src, pos) == pos
  {
  }

  /** Every printed value starts with a character that is not space and not a closing bracket. */
  lemma PrintStarts(v: Json)
    ensures Print(v) != "" && !IsSpace(Print(v)[0]) && Print(v)[0] != ']' && Print(v)[0] != '}'
  {
    if v.Int? {
      assert v.n >= 0 ==> IsDigit(DecText(v.n)[0]);
    }
  }

  lemma {:induction false} ValueBack(src: string, pos: nat, v: Json)
    requires hide *; Has(src, pos, Print(v)) && Ends(src, pos + |Print(v)|)
    ensures pos <= |src| && ReadValue(src, pos) == Ok((v, pos + |Print(v)|))
    decreases v, 2, 0
  {
    match v {
      case Arr(_) => ArrayBack(src, pos, v);
      case Obj(_) => ObjectBack(src, pos, v);
      case _ => ScalarBack(src, pos, v);
    }
  }

  lemma ScalarBack(src: string, pos: nat, v: Json)
    requires hide *; !v.Arr? && !v.Obj? && Has(src, pos, Print(v)) && Ends(src, pos + |Print(v)|)
    ensures pos <= |src| && ReadValue(src, pos) == Ok((v, pos + |Print(v)|))
  {
    hide ReadNumber; hide ReadString; hide ReadItems; hide ReadMembers; hide Escape; hide IntText;
    PrintStarts(v);
    HasAt(src, pos, Print(v), 0);
    NoSpace(src, pos);
    match v {
      case Null =>
      case Bool(b) => if !b { LiteralFalse(src, pos); }
      case Int(n) => NumberBack(src, pos, n);
      case Str(s) => StringBack(src, pos, s);
    }
  }

  lemma LiteralFalse(src: string, pos: nat)
    requires Has(src, pos, "false")
    ensures !Has(src, pos, "true")
  {
    HasAt(src, pos, "false", 0);
    if Has(src, pos, "true") { HasAt(src, pos, "true", 0); }
  }

  lemma ItemsText(v: Json, i: nat)
    requires v.Arr? && i < |v.items|
    ensures PrintItems(v, i) + "]" == (if i > 0 then "," else "") + (Print(v.items[i]) + (PrintItems(v, i + 1) + "]"))
    ensures i + 1 == |v.items| ==> PrintItems(v, i + 1) + "]" == "]"
  {
    hide Print;
  }

  lemma ArrayText(v: Json)
    requires v.Arr?
    ensures Print(v) == "[" + (PrintItems(v, 0) + "]")
    ensures v.items == [] ==> PrintItems(v, 0) + "]" == "]"
    ensures v.items != [] ==> PrintItems(v, 0) + "]" == Print(v.items[0]) + (PrintItems(v, 1) + "]")
    ensures v.items != [] ==> StartsValue(PrintItems(v, 0) + "]")
  {
    if v.items != [] {
      ItemsText(v, 0);
      PrintStarts(v.items[0]);
    }
  }

  predicate StartsValue(t: string) {
    t != "" && !IsSpace(t[0]) && t[0] != ']' && t[0] != '}'
  }

  lemma {:induction false} ArrayBack(src: string, pos: nat, v: Json)
    requires hide *; v.Arr? && Has(src, pos, Print(v)) && Ends(src, pos + |Print(v)|)
    ensures pos <= |src| && ReadValue(src, pos) == Ok((v, pos + |Print(v)|))
    decreases v, 1, 0
  {
    hide Has; hide Print; hide PrintItems; hide ReadItems; hide ReadMembers; hide ReadString; hide ReadNumber;
    hide Ends;
    ArrayText(v);
    var body := PrintItems(v, 0) + "]";
    HasSplit(src, pos, "[", body);
    HasAt(src, pos, "[", 0);
    HasAt(src, pos + 1, body, 0);
    NoSpace(src, pos);
    NoSpace(src, pos + 1);
    if v.items != [] {
      ItemsBack(src, pos + 1, v, 0, []);
    }
  }

  lemma ItemsTurn(src: string, pos: nat, x: Json, p: nat, acc: seq<Json>)
    requires pos <= |src| && ReadValue(src, pos) == Ok((x, p)) && p < |src|
    ensures src[p] == ',' ==> ReadItems(src, pos, acc) == ReadItems(src, p + 1, acc + [x])
    ensures src[p] == ']' ==> ReadItems(src, pos, acc) == Ok((acc + [x], p + 1))
  {
    hide ReadValue;
    if src[p] == ',' || src[p] == ']' { NoSpace(src, p); }
  }

  lemma {:induction false} ItemsBack(src: string, pos: nat, v: Json, i: nat, acc: seq<Json>)
    requires hide *; v.Arr? && i < |v.items| && acc == v.items[..i]
    requires Has(src, pos, Print(v.items[i]) + (PrintItems(v, i + 1) + "]"))
    ensures pos <= |src|
    ensures ReadItems(src, pos, acc) == Ok((v.items, pos + |Print(v.items[i]) + (PrintItems(v, i + 1) + "]")|))
    decreases v, 0, |v.items| - i
  {
    hide Print; hide PrintItems; hide Has; hide ReadValue; hide ReadItems;
    var t, rest := Print(v.items[i]), PrintItems(v, i + 1) + "]";
    if i + 1 < |v.items| { ItemsText(v, i + 1); } else { ItemsText(v, i); }
    HasSplit(src, pos, t, rest);
    HasAt(src, pos + |t|, rest, 0);
    assert acc + [v.items[i]] == v.items[..i + 1];
    ValueBack(src, pos, v.items[i]);
    ItemsTurn(src, pos, v.items[i], pos + |t|, acc);
    if i + 1 < |v.items| {
      var next := Print(v.items[i + 1]) + (PrintItems(v, i + 2) + "]");
      HasSplit(src, pos + |t|, ",", next);
      ItemsBack(src, pos + |t| + 1, v, i + 1, acc + [v.items[i]]);
    } else {
      assert v.items[..i + 1] == v.items;
    }
  }

  lemma KeysOf(fields: map<string, Json>)
    ensures forall k :: k in Sorted(fields.Keys) ==> k in fields
    ensures forall i, j :: 0 <= i < j < |Sorted(fields.Keys)| ==> Sorted(fields.Keys)[i] != Sorted(fields.Keys)[j]
    ensures fields != map[] ==> Sorted(fields.Keys) != []
  {
    var keys := Sorted(fields.Keys);
    forall k | k in keys ensures k in fields {
      assert k in Elements(keys);
    }
    forall i, j | 0 <= i < j < |keys| ensures keys[i] != keys[j] {
      AscendingPairs(keys, i, j);
      LessIrreflexive(keys[i]);
    }
    if keys == [] { assert Elements(keys) == {}; }
  }

  /** The members read so far: the first i keys with their values. */
  function Taken(fields: map<string, Json>, keys: seq<string>, i: nat): map<string, Json>
    requires i <= |keys| && forall k :: k in keys ==> k in fields
  {
    map k | k in keys[..i] :: fields[k]
  }

  function MemberText(v: Json, keys: seq<string>, i: nat): string
    requires v.Obj? && i < |keys| && forall k :: k in keys ==> k in v.fields
  {
    Quote(keys[i]) + ":" + Print(v.fields[keys[i]])
  }

  lemma MembersText(v: Json, keys: seq<string>, i: nat)
    requires v.Obj? && i < |keys| && forall k :: k in keys ==> k in v.fields
    ensures PrintMembers(v, keys, i) + "}"
      == (if i > 0 then "," else "") + (MemberText(v, keys, i) + (PrintMembers(v, keys, i + 1) + "}"))
    ensures i + 1 == |keys| ==> PrintMembers(v, keys, i + 1) + "}" == "}"
  {
    hide Print; hide Quote;
  }

  lemma MemberStarts(v: Json, keys: seq<string>, i: nat)
    requires v.Obj? && i < |keys| && forall k :: k in keys ==> k in v.fields
    ensures MemberText(v, keys, i) != "" && MemberText(v, keys, i)[0] == '"'
  {
    hide Print; hide Escape;
  }

  lemma ObjectText(v: Json, keys: seq<string>)
    requires v.Obj? && keys == Sorted(v.fields.Keys) && forall k :: k in keys ==> k in v.fields
    ensures Print(v) == "{" + (PrintMembers(v, keys, 0) + "}")
    ensures keys == [] ==> v.fields == map[] && PrintMembers(v, keys, 0) + "}" == "}"
    ensures keys != [] ==>
      PrintMembers(v, keys, 0) + "}" == MemberText(v, keys, 0) + (PrintMembers(v, keys, 1) + "}")
    ensures keys != [] ==> StartsValue(PrintMembers(v, keys, 0) + "}")
    ensures Taken(v.fields, keys, 0) == map[]
  {
    hide Sorted; hide MemberText; hide Quote;
    if keys != [] {
      MembersText(v, keys, 0);
      MemberStarts(v, keys, 0);
    } else {
      assert Elements(keys) == {};
    }
  }

  lemma {:induction false} ObjectBack(src: string, pos: nat, v: Json)
    requires hide *; v.Obj? && Has(src, pos, Print(v)) && Ends(src, pos + |Print(v)|)
    ensures pos <= |src| && ReadValue(src, pos) == Ok((v, pos + |Print(v)|))
    decreases v, 1, 0
  {
    hide Has; hide Print; hide PrintMembers; hide MemberText; hide ReadItems; hide ReadMembers; hide ReadString;
    hide ReadNumber; hide Ends; hide Sorted; hide Taken;
    var keys := Sorted(v.fields.Keys);
    KeysOf(v.fields);
    ObjectText(v, keys);
    var body := PrintMembers(v, keys, 0) + "}";
    HasSplit(src, pos, "{", body);
    HasAt(src, pos, "{", 0);
    HasAt(src, pos + 1, body, 0);
    NoSpace(src, pos);
    NoSpace(src, pos + 1);
    if keys != [] {
      MembersBack(src, pos + 1, v, keys, 0, map[]);
    }
  }

  lemma MemberConcat(v: Json, keys: seq<string>, i: nat, rest: string)
    requires v.Obj? && i < |keys| && forall k :: k in keys ==> k in v.fields
    ensures MemberText(v, keys, i) + rest == Quote(keys[i]) + (":" + (Print(v.fields[keys[i]]) + rest))
    ensures |MemberText(v, keys, i) + rest| == |Quote(keys[i])| + 1 + |Print(v.fields[keys[i]])| + |rest|
  {
    hide Quote; hide Print;
  }

  /** One member read back: key, colon and value, up to the separator. */
  lemma MemberSplit(src: string, pos: nat, v: Json, keys: seq<string>, i: nat, rest: string)
    requires v.Obj? && i < |keys| && forall k :: k in keys ==> k in v.fields
    requires Has(src, pos, MemberText(v, keys, i) + rest)
    ensures var q, t := Quote(keys[i]), Print(v.fields[keys[i]]);
      && Has(src, pos, q) && Has(src, pos + |q|, ":") && Has(src, pos + |q| + 1, t)
      && Has(src, pos + |q| + 1 + |t|, rest)
      && |MemberText(v, keys, i) + rest| == |q| + 1 + |t| + |rest|
  {
    hide Has; hide Quote; hide Print; hide MemberText;
    var q, t := Quote(keys[i]), Print(v.fields[keys[i]]);
    MemberConcat(v, keys, i, rest);
    HasSplit(src, pos, q, ":" + (t + rest));
    HasSplit(src, pos + |q|, ":", t + rest);
    HasSplit(src, pos + |q| + 1, t, rest);
  }

  lemma MembersTurn(src: string, pos: nat, key: string, p: nat, x: Json, q: nat, acc: map<string, Json>)
    requires pos < |src| && src[pos] == '"' && ReadString(src, pos) == Ok((key, p)) && key !in acc
    requires p < |src| && src[p] == ':' && ReadValue(src, p + 1) == Ok((x, q)) && q < |src|
    ensures src[q] == ',' ==> ReadMembers(src, pos, acc) == ReadMembers(src, q + 1, acc[key := x])
    ensures src[q] == '}' ==> ReadMembers(src, pos, acc) == Ok((acc[key := x], q + 1))
  {
    hide ReadValue; hide ReadString;
    NoSpace(src, pos);
    NoSpace(src, p);
    if src[q] == ',' || src[q] == '}' { NoSpace(src, q); }
  }

  lemma {:induction false} MembersBack(src: string, pos: nat, v: Json, keys: seq<string>, i: nat,
      acc: map<string, Json>)
    requires hide *; v.Obj? && i < |keys| && keys == Sorted(v.fields.Keys)
    requires forall k :: k in keys ==> k in v.fields
    requires acc == Taken(v.fields, keys, i)
    requires Has(src, pos, MemberText(v, keys, i) + (PrintMembers(v, keys, i + 1) + "}"))
    ensures pos <= |src| && ReadMembers(src, pos, acc)
      == Ok((v.fields, pos + |MemberText(v, keys, i) + (PrintMembers(v, keys, i + 1) + "}")|))
    decreases v, 0, |keys| - i
  {
    hide Has; hide Quote; hide Print; hide PrintMembers; hide MemberText; hide ReadMembers; hide ReadValue;
    hide ReadString; hide Sorted; hide Taken;
    var key := keys[i];
    var q, t, rest := Quote(key), Print(v.fields[key]), PrintMembers(v, keys, i + 1) + "}";
    TakeOne(v.fields, keys, i);
    if i + 1 < |keys| { MembersText(v, keys, i + 1); } else { MembersText(v, keys, i); AllTaken(v.fields, keys); }
    MemberSplit(src, pos, v, keys, i, rest);
    var p := pos + |q|;
    var end := p + 1 + |t|;
    StringBack(src, pos, key);
    HasAt(src, p, ":", 0);
    HasAt(src, end, rest, 0);
    ValueBack(src, p + 1, v.fields[key]);
    MembersTurn(src, pos, key, p, v.fields[key], end, acc);
    if i + 1 < |keys| {
      var next := MemberText(v, keys, i + 1) + (PrintMembers(v, keys, i + 2) + "}");
      HasSplit(src, end, ",", next);
      MembersBack(src, end + 1, v, keys, i + 1, acc[key := v.fields[key]]);
    }
  }

  lemma TakeOne(fields: map<string, Json>, keys: seq<string>, i: nat)
    requires i < |keys| && keys == Sorted(fields.Keys) && forall k :: k in keys ==> k in fields
    ensures keys[i] !in Taken(fields, keys, i)
    ensures Taken(fields, keys, i)[keys[i] := fields[keys[i]]] == Taken(fields, keys, i + 1)
  {
    hide Sorted;
    KeysOf(fields);
  }

  lemma AllTaken(fields: map<string, Json>, keys: seq<string>)
    requires keys == Sorted(fields.Keys) && forall k :: k in keys ==> k in fields
    ensures Taken(fields, keys, |keys|) == fields
  {
    assert keys[..|keys|] == keys;
    assert forall k :: k in fields ==> k in Elements(keys);
  }

  /** Parsing printed text gives the value back, whatever the value. */
  lemma RoundTrip(v: Json)
    ensures Parse(Print(v)) == Ok(v)
  {
    var src := Print(v);
    PrintStarts(v);
    NoSpace(src, 0);
    assert Has(src, 0, src);
    ValueBack(src, 0, v);
    NoSpace(src, |src|);
  }

  /** So canonical text determines the value. */
  lemma PrintInjective(v: Json, w: Json)
    requires Print(v) == Print(w)
    ensures v == w
  {
    RoundTrip(v);
    RoundTrip(w);
  }
}
