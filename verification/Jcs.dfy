/** The restricted canonical-JSON parser and serializer as the source runs them: a cursor that
    moves over the text, and an output string that is appended to. */
module Jcs {
  import opened Wrappers
  import opened JsonTree
  import opened Text
  import opened Decimal
  import opened JcsText
  import opened JcsRoundTrip

  class JcsParser {
    const src: string
    var pos: nat

    constructor (text: string)
      ensures src == text && pos == 0
    {
      src := text;
      pos := 0;
    }

    /** The cursor stays inside the text and the outcome is the one the specification gives. */
    ghost predicate Agrees<T>(got: Result<T, JcsCode>, spec: Result<(T, nat), JcsCode>)
      reads this
    {
      && pos <= |src|
      && match spec
         case Err(c) => got == Err(c)
         case Ok((v, p)) => got == Ok(v) && pos == p
    }

    method SkipWhitespace()
      requires pos <= |src|
      modifies this`pos
      ensures pos == SkipSpace(src, old(pos))
    {
      while pos < |src| && IsSpace(src[pos])
        invariant pos <= |src|
        invariant SkipSpace(src, pos) == SkipSpace(src, old(pos))
      {
        pos := pos + 1;
      }
    }

    method ParseUnicode() returns (r: Result<char, JcsCode>)
      requires pos <= |src|
      modifies this`pos
      ensures Agrees(r, ReadUnicode(src, old(pos)))
    {
      if pos + 4 > |src| {
        return Err(BAD_UNICODE_ESCAPE);
      }
      var a, b, c, d := HexValue(src[pos]), HexValue(src[pos + 1]), HexValue(src[pos + 2]), HexValue(src[pos + 3]);
      pos := pos + 4;
      if a.None? || b.None? || c.None? || d.None? {
        return Err(BAD_UNICODE_ESCAPE);
      }
      var code := ((a.value * 16 + b.value) * 16 + c.value) * 16 + d.value;
      if 0xd800 <= code <= 0xdfff {
        return Err(SURROGATE_ESCAPE);
      }
      if code >= 0x10000 {
        return Err(BAD_UNICODE_ESCAPE);
      }
      return Ok(code as char);
    }

    method ParseString() returns (r: Result<string, JcsCode>)
      requires pos <= |src|
      modifies this`pos
      ensures Agrees(r, ReadString(src, old(pos)))
    {
      if !Sees(src, pos, '"') {
        return Err(EXPECTED_CHAR);
      }
      pos := pos + 1;
      var result := "";
      while true
        invariant pos <= |src|
        invariant ReadString(src, old(pos)) == ReadChars(src, pos, result)
        decreases |src| - pos
      {
        if pos == |src| {
          return Err(STRING_UNTERMINATED);
        }
        var c := src[pos];
        if c == '"' {
          pos := pos + 1;
          return Ok(result);
        }
        if c == '\\' {
          pos := pos + 1;
          if pos == |src| {
            return Err(BAD_ESCAPE);
          }
          var esc := src[pos];
          pos := pos + 1;
          if esc == 'u' {
            var u := ParseUnicode();
            if u.Err? {
              return Err(u.error);
            }
            result := result + [u.value];
          } else {
            var d := Unescape(esc);
            if d.None? {
              return Err(BAD_ESCAPE);
            }
            result := result + [d.value];
          }
        } else {
          if c as int < 0x20 {
            return Err(CONTROL_IN_STRING);
          }
          result := result + [c];
          pos := pos + 1;
        }
      }
    }

    method ParseNumber() returns (r: Result<int, JcsCode>)
      requires pos <= |src|
      modifies this`pos
      ensures Agrees(r, ReadNumber(src, old(pos)))
    {
      var neg := Sees(src, pos, '-');
      if neg {
        pos := pos + 1;
      }
      var start := pos;
      if pos == |src| || !IsDigit(src[pos]) {
        return Err(BAD_NUMBER);
      }
      if src[pos] == '0' {
        pos := pos + 1;
      } else {
        while pos < |src| && IsDigit(src[pos])
          invariant start <= pos <= |src|
          invariant DigitsEnd(src, pos) == DigitsEnd(src, start)
        {
          pos := pos + 1;
        }
      }
      if Sees(src, pos, '.') {
        return Err(FRACTIONAL_FORBIDDEN);
      }
      if Sees(src, pos, 'e') || Sees(src, pos, 'E') {
        return Err(EXPONENT_FORBIDDEN);
      }
      if neg && src[start] == '0' {
        return Err(NEGATIVE_ZERO);
      }
      var n := Number(src[start..pos]);
      return Ok(if neg then -(n as int) else n);
    }

    method ParseValue() returns (r: Result<Json, JcsCode>)
      requires pos <= |src|
      modifies this`pos
      ensures Agrees(r, ReadValue(src, old(pos)))
      decreases |src| - pos, 1
    {
      hide ReadObject; hide ReadArray; hide ReadString; hide ReadNumber;
      SkipWhitespace();
      if pos == |src| {
        return Err(UNEXPECTED_EOF);
      }
      var c := src[pos];
      if c == '{' {
        r := ParseObject();
      } else if c == '[' {
        r := ParseArray();
      } else if c == '"' {
        var s := ParseString();
        r := if s.Err? then Err(s.error) else Ok(Str(s.value));
      } else if c == 't' || c == 'f' {
        if Has(src, pos, "true") {
          pos := pos + 4;
          return Ok(Bool(true));
        }
        if Has(src, pos, "false") {
          pos := pos + 5;
          return Ok(Bool(false));
        }
        return Err(BAD_LITERAL);
      } else if c == 'n' {
        if Has(src, pos, "null") {
          pos := pos + 4;
          return Ok(Null);
        }
        return Err(BAD_LITERAL);
      } else if c == '-' || IsDigit(c) {
        var n := ParseNumber();
        r := if n.Err? then Err(n.error) else Ok(Int(n.value));
      } else {
        return Err(UNEXPECTED_CHAR);
      }
    }

    method ParseArray() returns (r: Result<Json, JcsCode>)
      requires pos < |src| && src[pos] == '['
      modifies this`pos
      ensures Agrees(r, ReadArray(src, old(pos)))
      decreases |src| - pos, 0
    {
      hide ReadValue;
      pos := pos + 1;
      SkipWhitespace();
      if Sees(src, pos, ']') {
        pos := pos + 1;
        return Ok(Arr([]));
      }
      var items := [];
      ghost var first := pos;
      while true
        invariant old(pos) < pos <= |src|
        invariant ReadItems(src, first, []) == ReadItems(src, pos, items)
        decreases |src| - pos
      {
        var v := ParseValue();
        if v.Err? {
          return Err(v.error);
        }
        items := items + [v.value];
        SkipWhitespace();
        if Sees(src, pos, ',') {
          pos := pos + 1;
        } else if Sees(src, pos, ']') {
          pos := pos + 1;
          return Ok(Arr(items));
        } else {
          return Err(EXPECTED_COMMA_OR_BRACKET);
        }
      }
    }

    /** The colon after a key and the value of the member. */
    method ParseAfterKey() returns (r: Result<Json, JcsCode>)
      requires pos <= |src|
      modifies this`pos
      ensures Agrees(r, ReadAfterKey(src, old(pos)))
      decreases |src| - pos, 3
    {
      hide ReadValue;
      SkipWhitespace();
      if !Sees(src, pos, ':') {
        return Err(EXPECTED_CHAR);
      }
      pos := pos + 1;
      r := ParseValue();
    }

    method ParseObject() returns (r: Result<Json, JcsCode>)
      requires pos < |src| && src[pos] == '{'
      modifies this`pos
      ensures Agrees(r, ReadObject(src, old(pos)))
      decreases |src| - pos, 0
    {
      hide ReadValue; hide ReadString; hide ReadAfterKey;
      pos := pos + 1;
      SkipWhitespace();
      if Sees(src, pos, '}') {
        pos := pos + 1;
        return Ok(Obj(map[]));
      }
      var out: map<string, Json>, seen: set<string> := map[], {};
      ghost var first := pos;
      while true
        invariant old(pos) < pos <= |src| && seen == out.Keys
        invariant ReadMembers(src, first, map[]) == ReadMembers(src, pos, out)
        decreases |src| - pos
      {
        SkipWhitespace();
        if !Sees(src, pos, '"') {
          return Err(KEY_NOT_STRING);
        }
        var key := ParseString();
        if key.Err? {
          return Err(key.error);
        }
        if key.value in seen {
          return Err(DUPLICATE_KEY);
        }
        seen := seen + {key.value};
        var v := ParseAfterKey();
        if v.Err? {
          return Err(v.error);
        }
        out := out[key.value := v.value];
        SkipWhitespace();
        if Sees(src, pos, ',') {
          pos := pos + 1;
        } else if Sees(src, pos, '}') {
          pos := pos + 1;
          return Ok(Obj(out));
        } else {
          return Err(EXPECTED_COMMA_OR_BRACE);
        }
      }
    }

    method ParseDocument() returns (r: Result<Json, JcsCode>)
      requires pos == 0
      modifies this`pos
      ensures r == Parse(src)
    {
      SkipWhitespace();
      var v := ParseValue();
      if v.Err? {
        return v;
      }
      SkipWhitespace();
      return if pos == |src| then v else Err(TRAILING_INPUT);
    }
  }

  // --- the serializer ---

  predicate Bomless(s: string) {
    s == "" || s[0] as int != 0xfeff
  }

  /** No string token, key or value, starts with a byte-order mark. */
  predicate BomFree(v: Json) {
    match v
    case Str(s) => Bomless(s)
    case Arr(items) => forall i :: 0 <= i < |items| ==> BomFree(items[i])
    case Obj(fields) => forall k :: k in fields ==> Bomless(k) && BomFree(fields[k])
    case _ => true
  }

  lemma {:induction false} EscapePush(s: string, c: char)
    ensures Escape(s + [c]) == Escape(s) + EscapeChar(c)
  {
    if s == "" {
      assert s + [c] == [c] && [c][1..] == "";
      assert Escape([c]) == EscapeChar(c) + Escape("");
    } else {
      assert (s + [c])[0] == s[0] && (s + [c])[1..] == s[1..] + [c];
      EscapePush(s[1..], c);
      hide EscapeChar;
    }
  }

  method EscapeString(s: string, out: string) returns (r: Result<string, JcsCode>)
    ensures r == if Bomless(s) then Ok(out + Quote(s)) else Err(BOM_FORBIDDEN)
  {
    hide EscapeChar;
    if s != "" && s[0] as int == 0xfeff {
      return Err(BOM_FORBIDDEN);
    }
    var text := out + "\"";
    for i := 0 to |s|
      invariant text == out + "\"" + Escape(s[..i])
    {
      text := text + EscapeChar(s[i]);
      assert s[..i + 1] == s[..i] + [s[i]];
      EscapePush(s[..i], s[i]);
    }
    assert s[..|s|] == s;
    QuoteText(s);
    assert text + "\"" == out + ("\"" + (Escape(s) + "\""));
    return Ok(text + "\"");
  }

  method Serialize(v: Json, out: string) returns (r: Result<string, JcsCode>)
    ensures r == if BomFree(v) then Ok(out + Print(v)) else Err(BOM_FORBIDDEN)
    decreases v, 1
  {
    match v {
      case Null => return Ok(out + "null");
      case Bool(b) => return Ok(out + if b then "true" else "false");
      case Int(n) => return Ok(out + IntText(n));
      case Str(s) => r := EscapeString(s, out);
      case Arr(items) => r := SerializeArray(v, out);
      case Obj(fields) => r := SerializeObject(v, out);
    }
  }

  method SerializeArray(v: Json, out: string) returns (r: Result<string, JcsCode>)
    requires v.Arr?
    ensures r == if BomFree(v) then Ok(out + Print(v)) else Err(BOM_FORBIDDEN)
    decreases v, 0
  {
    hide Print; hide PrintItems;
    ArrayText(v);
    var text := out + "[";
    for i := 0 to |v.items|
      invariant forall j :: 0 <= j < i ==> BomFree(v.items[j])
      invariant text + (PrintItems(v, i) + "]") == out + Print(v)
    {
      ItemsText(v, i);
      ghost var rest := PrintItems(v, i + 1) + "]";
      if i > 0 {
        text := text + ",";
      }
      ghost var item := Print(v.items[i]);
      assert text + (item + rest) == out + Print(v);
      var one := Serialize(v.items[i], text);
      if one.Err? {
        return one;
      }
      assert text + item + rest == text + (item + rest);
      text := one.value;
    }
    if v.items != [] { ItemsText(v, |v.items| - 1); }
    return Ok(text + "]");
  }

  method SerializeObject(v: Json, out: string) returns (r: Result<string, JcsCode>)
    requires v.Obj?
    ensures r == if BomFree(v) then Ok(out + Print(v)) else Err(BOM_FORBIDDEN)
    decreases v, 0
  {
    hide Print; hide PrintMembers; hide Quote; hide MemberText; hide Sorted; hide Taken;
    var keys := Sorted(v.fields.Keys);
    KeysOf(v.fields);
    ObjectText(v, keys);
    var text := out + "{";
    for i := 0 to |keys|
      invariant forall j :: 0 <= j < i ==> Bomless(keys[j]) && BomFree(v.fields[keys[j]])
      invariant text + (PrintMembers(v, keys, i) + "}") == out + Print(v)
    {
      MembersText(v, keys, i);
      ghost var rest := PrintMembers(v, keys, i + 1) + "}";
      if i > 0 {
        text := text + ",";
      }
      assert text + (MemberText(v, keys, i) + rest) == out + Print(v);
      MemberConcat(v, keys, i, rest);
      ghost var base := text;
      var k := EscapeString(keys[i], text);
      if k.Err? {
        return k;
      }
      var one := Serialize(v.fields[keys[i]], k.value + ":");
      if one.Err? {
        return one;
      }
      text := one.value;
      Regrouped(base, Quote(keys[i]), Print(v.fields[keys[i]]), rest);
    }
    if keys != [] { MembersText(v, keys, |keys| - 1); }
    AllKeys(v.fields, keys);
    return Ok(text + "}");
  }

  lemma Regrouped(base: string, q: string, t: string, rest: string)
    ensures base + q + ":" + t + rest == base + (q + (":" + (t + rest)))
  {
  }

  lemma AllKeys(fields: map<string, Json>, keys: seq<string>)
    requires keys == Sorted(fields.Keys)
    ensures forall k :: k in fields ==> k in keys
  {
    forall k | k in fields ensures k in keys { assert k in Elements(keys); }
  }

  function CanonicalizeValue(v: Json): Result<string, JcsCode> {
    if BomFree(v) then Ok(Print(v)) else Err(BOM_FORBIDDEN)
  }

  function CanonicalizeString(text: string): Result<string, JcsCode> {
    var v :- Parse(text);
    CanonicalizeValue(v)
  }

  /** Canonical text is a fixed point, it denotes the value the input denoted, and an input equals
      its canonical form exactly when some value prints as it. */
  lemma CanonicalFixedPoint(text: string)
    ensures hide *; var r := CanonicalizeString(text);
      r.Ok? ==> Parse(r.value) == Parse(text) && CanonicalizeString(r.value) == r
    ensures CanonicalizeString(text) == Ok(text) <==> exists v :: BomFree(v) && Print(v) == text
  {
    hide Parse; hide Print; hide BomFree;
    if Parse(text).Ok? {
      RoundTrip(Parse(text).value);
    }
    forall v | BomFree(v) && Print(v) == text ensures CanonicalizeString(text) == Ok(text) {
      RoundTrip(v);
    }
  }
}
