/** Canonical JSON text: what the serializer writes and, as functions of position, what the parser
    reads. Keys are sorted by code point, which on UTF-8 is byte order; strings are NFC already. */
module JcsText {
  import opened Wrappers
  import opened JsonTree
  import opened Text
  import opened Decimal

  datatype JcsCode =
    | TRAILING_INPUT | UNEXPECTED_EOF | UNEXPECTED_CHAR | KEY_NOT_STRING | DUPLICATE_KEY
    | EXPECTED_CHAR | EXPECTED_COMMA_OR_BRACE | EXPECTED_COMMA_OR_BRACKET
    | STRING_UNTERMINATED | BAD_ESCAPE | BAD_UNICODE_ESCAPE | SURROGATE_ESCAPE | CONTROL_IN_STRING
    | BAD_NUMBER | FRACTIONAL_FORBIDDEN | EXPONENT_FORBIDDEN | NEGATIVE_ZERO | BAD_LITERAL
    | BOM_FORBIDDEN

  // --- printing ---

  function HexChar(d: nat): char
    requires d < 16
  {
    if d < 10 then CharOf(d) else ('a' as int + d - 10) as char
  }

  function EscapeChar(c: char): string {
    if c == '"' then "\\\""
    else if c == '\\' then "\\\\"
    else if c as int == 0x08 then "\\b"
    else if c == '\t' then "\\t"
    else if c == '\n' then "\\n"
    else if c as int == 0x0c then "\\f"
    else if c == '\r' then "\\r"
    else if c as int < 0x20 then "\\u00" + [HexChar(c as int / 16), HexChar(c as int % 16)]
    else [c]
  }

  function Escape(s: string): string {
    if s == "" then "" else EscapeChar(s[0]) + Escape(s[1..])
  }

  function Quote(s: string): string {
    "\"" + Escape(s) + "\""
  }

  function Print(v: Json): string
    decreases v, 1, 0
  {
    match v
    case Null => "null"
    case Bool(b) => if b then "true" else "false"
    case Int(n) => IntText(n)
    case Str(s) => Quote(s)
    case Arr(items) => "[" + PrintItems(v, 0) + "]"
    case Obj(fields) => "{" + PrintMembers(v, Sorted(fields.Keys), 0) + "}"
  }

  /** The items from i on, each but the first with a comma in front. */
  function PrintItems(v: Json, i: nat): string
    requires v.Arr? && i <= |v.items|
    decreases v, 0, |v.items| - i
  {
    if i == |v.items| then ""
    else (if i > 0 then "," else "") + Print(v.items[i]) + PrintItems(v, i + 1)
  }

  function PrintMembers(v: Json, keys: seq<string>, i: nat): string
    requires v.Obj? && i <= |keys| && forall k :: k in keys ==> k in v.fields
    decreases v, 0, |keys| - i
  {
    if i == |keys| then ""
    else
      (if i > 0 then "," else "") + (Quote(keys[i]) + ":" + Print(v.fields[keys[i]])) + PrintMembers(v, keys, i + 1)
  }

  // --- parsing, as functions of the position ---

  predicate IsSpace(c: char) {
    c == ' ' || c == '\t' || c == '\n' || c == '\r'
  }

  function SkipSpace(src: string, pos: nat): (p: nat)
    requires pos <= |src|
    ensures pos <= p <= |src|
    decreases |src| - pos
  {
    if pos < |src| && IsSpace(src[pos]) then SkipSpace(src, pos + 1) else pos
  }

  predicate Sees(src: string, pos: nat, c: char) {
    pos < |src| && src[pos] == c
  }

  function HexValue(c: char): Option<nat> {
    if IsDigit(c) then Some(DigitOf(c))
    else if 'a' <= c <= 'f' then Some(c as int - 'a' as int + 10)
    else if 'A' <= c <= 'F' then Some(c as int - 'A' as int + 10)
    else None
  }

  /** Four hex digits of a code unit that is not a surrogate. */
  function ReadUnicode(src: string, pos: nat): (r: Result<(char, nat), JcsCode>)
    requires pos <= |src|
    ensures r.Ok? ==> pos < r.value.1 <= |src|
  {
    if pos + 4 > |src| then Err(BAD_UNICODE_ESCAPE)
    else
      match (HexValue(src[pos]), HexValue(src[pos + 1]), HexValue(src[pos + 2]), HexValue(src[pos + 3]))
      case (Some(a), Some(b), Some(c), Some(d)) =>
        var code := ((a * 16 + b) * 16 + c) * 16 + d;
        if 0xd800 <= code <= 0xdfff then Err(SURROGATE_ESCAPE)
        else if code < 0x10000 then Ok((code as char, pos + 4))
        else Err(BAD_UNICODE_ESCAPE)
      case _ => Err(BAD_UNICODE_ESCAPE)
  }

  /** One character of a string body: plain, or an escape. */
  function ReadChar(src: string, pos: nat): (r: Result<(char, nat), JcsCode>)
    requires pos < |src|
    ensures r.Ok? ==> pos < r.value.1 <= |src|
  {
    var c := src[pos];
    if c != '\\' then
      if c as int < 0x20 then Err(CONTROL_IN_STRING) else Ok((c, pos + 1))
    else if pos + 1 == |src| then Err(BAD_ESCAPE)
    else
      var esc := src[pos + 1];
      if esc == 'u' then ReadUnicode(src, pos + 2)
      else
        match Unescape(esc)
        case Some(d) => Ok((d, pos + 2))
        case None => Err(BAD_ESCAPE)
  }

  function Unescape(esc: char): Option<char> {
    if esc == '"' || esc == '\\' || esc == '/' then Some(esc)
    else if esc == 'b' then Some(0x08 as char)
    else if esc == 'f' then Some(0x0c as char)
    else if esc == 'n' then Some('\n')
    else if esc == 'r' then Some('\r')
    else if esc == 't' then Some('\t')
    else None
  }

  function ReadChars(src: string, pos: nat, acc: string): (r: Result<(string, nat), JcsCode>)
    requires pos <= |src|
    ensures r.Ok? ==> pos < r.value.1 <= |src|
    decreases |src| - pos
  {
    if pos == |src| then Err(STRING_UNTERMINATED)
    else if src[pos] == '"' then Ok((acc, pos + 1))
    else
      var (c, p) :- ReadChar(src, pos);
      ReadChars(src, p, acc + [c])
  }

  function ReadString(src: string, pos: nat): (r: Result<(string, nat), JcsCode>)
    requires pos <= |src|
    ensures r.Ok? ==> pos < r.value.1 <= |src|
  {
    if Sees(src, pos, '"') then ReadChars(src, pos + 1, "") else Err(EXPECTED_CHAR)
  }

  function DigitsEnd(src: string, pos: nat): (p: nat)
    requires pos <= |src|
    ensures pos <= p <= |src| && AllDigits(src[pos..p])
    decreases |src| - pos
  {
    if pos < |src| && IsDigit(src[pos]) then
      var p := DigitsEnd(src, pos + 1);
      assert src[pos..p] == [src[pos]] + src[pos + 1..p];
      p
    else pos
  }

  /** An integer: no fraction, exponent, leading zero or minus zero. */
  function ReadNumber(src: string, pos: nat): (r: Result<(int, nat), JcsCode>)
    requires pos <= |src|
    ensures r.Ok? ==> pos < r.value.1 <= |src|
  {
    var neg := Sees(src, pos, '-');
    var start := if neg then pos + 1 else pos;
    if start == |src| || !IsDigit(src[start]) then Err(BAD_NUMBER)
    else
      var end := if src[start] == '0' then start + 1 else DigitsEnd(src, start);
      if Sees(src, end, '.') then Err(FRACTIONAL_FORBIDDEN)
      else if Sees(src, end, 'e') || Sees(src, end, 'E') then Err(EXPONENT_FORBIDDEN)
      else
        var n := Number(src[start..end]);
        if neg && src[start] == '0' then Err(NEGATIVE_ZERO)
        else Ok((if neg then -(n as int) else n, end))
  }

  predicate Has(src: string, pos: nat, t: string) {
    pos + |t| <= |src| && src[pos..pos + |t|] == t
  }

  function ReadValue(src: string, at: nat): (r: Result<(Json, nat), JcsCode>)
    requires at <= |src|
    ensures r.Ok? ==> at < r.value.1 <= |src|
    decreases |src| - at, 1
  {
    hide *;
    var pos := SkipSpace(src, at);
    if pos == |src| then Err(UNEXPECTED_EOF)
    else
      var c := src[pos];
      if c == '{' then ReadObject(src, pos)
      else if c == '[' then ReadArray(src, pos)
      else if c == '"' then
        var (s, p) :- ReadString(src, pos);
        Ok((Str(s), p))
      else if c == 't' || c == 'f' then
        if Has(src, pos, "true") then Ok((Bool(true), pos + 4))
        else if Has(src, pos, "false") then Ok((Bool(false), pos + 5))
        else Err(BAD_LITERAL)
      else if c == 'n' then
        if Has(src, pos, "null") then Ok((Null, pos + 4)) else Err(BAD_LITERAL)
      else if c == '-' || IsDigit(c) then
        var (n, p) :- ReadNumber(src, pos);
        Ok((Int(n), p))
      else Err(UNEXPECTED_CHAR)
  }

  function ReadArray(src: string, pos: nat): (r: Result<(Json, nat), JcsCode>)
    requires pos < |src| && src[pos] == '['
    ensures r.Ok? ==> pos < r.value.1 <= |src|
    decreases |src| - pos, 0
  {
    hide *;
    var p := SkipSpace(src, pos + 1);
    if Sees(src, p, ']') then Ok((Arr([]), p + 1))
    else
      var (items, q) :- ReadItems(src, p, []);
      Ok((Arr(items), q))
  }

  function ReadObject(src: string, pos: nat): (r: Result<(Json, nat), JcsCode>)
    requires pos < |src| && src[pos] == '{'
    ensures r.Ok? ==> pos < r.value.1 <= |src|
    decreases |src| - pos, 0
  {
    hide *;
    var p := SkipSpace(src, pos + 1);
    if Sees(src, p, '}') then Ok((Obj(map[]), p + 1))
    else
      var (m, q) :- ReadMembers(src, p, map[]);
      Ok((Obj(m), q))
  }

  function ReadItems(src: string, pos: nat, acc: seq<Json>): (r: Result<(seq<Json>, nat), JcsCode>)
    requires pos <= |src|
    ensures r.Ok? ==> pos < r.value.1 <= |src|
    decreases |src| - pos, 2
  {
    hide *;
    var (v, p) :- ReadValue(src, pos);
    var q := SkipSpace(src, p);
    if Sees(src, q, ',') then ReadItems(src, q + 1, acc + [v])
    else if Sees(src, q, ']') then Ok((acc + [v], q + 1))
    else Err(EXPECTED_COMMA_OR_BRACKET)
  }

  /** What follows the key of a member: the colon and the value. */
  function ReadAfterKey(src: string, p: nat): (r: Result<(Json, nat), JcsCode>)
    requires p <= |src|
    ensures r.Ok? ==> p < r.value.1 <= |src|
    decreases |src| - p, 3
  {
    var q := SkipSpace(src, p);
    if !Sees(src, q, ':') then Err(EXPECTED_CHAR) else ReadValue(src, q + 1)
  }

  function ReadMembers(src: string, at: nat, acc: map<string, Json>): (r: Result<(map<string, Json>, nat), JcsCode>)
    requires at <= |src|
    ensures r.Ok? ==> at < r.value.1 <= |src|
    decreases |src| - at, 2
  {
    hide *;
    var pos := SkipSpace(src, at);
    if !Sees(src, pos, '"') then Err(KEY_NOT_STRING)
    else
      var (key, p) :- ReadString(src, pos);
      if key in acc then Err(DUPLICATE_KEY)
      else
        var (v, p2) :- ReadAfterKey(src, p);
        var q2 := SkipSpace(src, p2);
        if Sees(src, q2, ',') then ReadMembers(src, q2 + 1, acc[key := v])
        else if Sees(src, q2, '}') then Ok((acc[key := v], q2 + 1))
        else Err(EXPECTED_COMMA_OR_BRACE)
  }

  /** A whole document: one value with nothing but space around it. */
  function Parse(src: string): Result<Json, JcsCode> {
    var (v, p) :- ReadValue(src, SkipSpace(src, 0));
    if SkipSpace(src, p) == |src| then Ok(v) else Err(TRAILING_INPUT)
  }
}
