/** A JSON value and the text Go's `encoding/json` writes for it through an
    `Encoder` with `SetIndent("", unit)`: one member or element per line,
    `": "` after keys, `{}` and `[]` for empty containers. */
module Json {
  import opened StrConv

  /** A parsed JSON value. Numbers keep their lexeme, as Go hands the raw
      bytes of a number to `UnmarshalJSON`. Object members keep their order
      and any repeated key. */
  datatype JValue =
    | JNull
    | JBool(b: bool)
    | JNumber(lexeme: string)
    | JString(s: string)
    | JArray(elems: seq<JValue>)
    | JObject(members: seq<Member>)

  datatype Member = Member(key: string, value: JValue)

  /** Which of the HTML-sensitive characters `&`, `<`, `>` a string literal
      writes as a six-character unicode escape (backslash, `u`, four hex
      digits). `json.Marshal` escapes all three; an `Encoder` after
      `SetEscapeHTML(false)` none. */
  datatype Escaping = Escaping(amp: bool, lt: bool, gt: bool) {
    predicate Escapes(c: char) {
      (c == '&' && amp) || (c == '<' && lt) || (c == '>' && gt)
    }

    function Without(c: char): (e: Escaping)
      ensures !e.Escapes(c)
      ensures forall d :: d != c ==> (e.Escapes(d) <==> Escapes(d))
    {
      Escaping(amp && c != '&', lt && c != '<', gt && c != '>')
    }
  }

  const HtmlEscaping := Escaping(true, true, true)
  const NoHtmlEscaping := Escaping(false, false, false)

  predicate IsHexDigit(c: char) {
    IsDigit(c) || 'a' <= c <= 'f' || 'A' <= c <= 'F'
  }

  function HexValue(c: char): (n: nat)
    requires IsHexDigit(c)
    ensures n < 16
  {
    if IsDigit(c) then DigitValue(c)
    else if 'a' <= c <= 'f' then c as int - 'a' as int + 10
    else c as int - 'A' as int + 10
  }

  /** Go's lower-case hex alphabet. */
  function HexDigit(n: nat): (c: char)
    requires n < 16
    ensures IsHexDigit(c) && HexValue(c) == n
  {
    if n < 10 then DigitChar(n) else ('a' as int + n - 10) as char
  }

  /** `\uXXXX` with four lower-case hex digits. */
  function UnicodeEscape(n: nat): (s: string)
    requires n < 0x10000
    ensures |s| == 6 && s[0] == '\\' && s[1] == 'u'
  {
    ['\\', 'u', HexDigit(n / 16 / 16 / 16), HexDigit(n / 16 / 16 % 16), HexDigit(n / 16 % 16), HexDigit(n % 16)]
  }

  /** How `encoding/json` writes one character inside a string literal
      (Go 1.22 and later: `\b` and `\f` have short forms). */
  function EscapeChar(c: char, e: Escaping): string {
    if c == '"' then ['\\', '"']
    else if c == '\\' then ['\\', '\\']
    else if c == 8 as char then ['\\', 'b']
    else if c == 12 as char then ['\\', 'f']
    else if c == '\n' then ['\\', 'n']
    else if c == '\r' then ['\\', 'r']
    else if c == '\t' then ['\\', 't']
    else if c as int < 0x20 || e.Escapes(c) || c as int == 0x2028 || c as int == 0x2029 then
      UnicodeEscape(c as int)
    else [c]
  }

  function Escape(s: string, e: Escaping): string {
    if s == [] then [] else EscapeChar(s[0], e) + Escape(s[1..], e)
  }

  /** A string literal. */
  function Quote(s: string, e: Escaping): string {
    ['"'] + (Escape(s, e) + ['"'])
  }

  /** `depth` copies of the indent unit. */
  function Indentation(unit: string, depth: nat): string {
    if depth == 0 then [] else Indentation(unit, depth - 1) + unit
  }

  /** A line break followed by the indentation of `depth`. */
  function Newline(unit: string, depth: nat): string {
    "\n" + Indentation(unit, depth)
  }

  /** The indented text of `v` at nesting `depth`. Keys of this object are
      written with `keys`, every other string (nested keys included) with
      `values`; this is how the top-level Rock-on map, written by the
      `Encoder` itself, differs from the details, written by `json.Marshal`. */
  function Print(v: JValue, unit: string, depth: nat, keys: Escaping, values: Escaping): string {
    match v
    case JNull => "null"
    case JBool(b) => if b then "true" else "false"
    case JNumber(lexeme) => lexeme
    case JString(s) => Quote(s, values)
    case JArray(elems) =>
      if elems == [] then "[]"
      else "[" + (PrintElements(elems, unit, depth + 1, values) + (Newline(unit, depth) + "]"))
    case JObject(members) =>
      if members == [] then "{}"
      else "{" + (PrintMembers(members, unit, depth + 1, keys, values) + (Newline(unit, depth) + "}"))
  }

  function PrintElements(elems: seq<JValue>, unit: string, depth: nat, values: Escaping): string
    requires elems != []
  {
    Newline(unit, depth) + (Print(elems[0], unit, depth, values, values)
    + (if |elems| == 1 then "" else "," + PrintElements(elems[1..], unit, depth, values)))
  }

  function PrintMembers(members: seq<Member>, unit: string, depth: nat, keys: Escaping, values: Escaping): string
    requires members != []
  {
    Newline(unit, depth) + (Quote(members[0].key, keys) + (": "
    + (Print(members[0].value, unit, depth, values, values)
    + (if |members| == 1 then "" else "," + PrintMembers(members[1..], unit, depth, keys, values)))))
  }

  /** The lexeme of a Go integer: an optional minus sign and decimal digits
      without a leading zero. */
  predicate IntegerLexeme(l: string) {
    var digits := if l != [] && l[0] == '-' then l[1..] else l;
    digits != [] && AllDigits(digits) && (|digits| > 1 ==> digits[0] != '0')
  }

  /** Every number in `v` is an integer lexeme: true of anything the schema
      encoders produce. */
  predicate WellFormed(v: JValue) {
    match v
    case JNumber(lexeme) => IntegerLexeme(lexeme)
    case JArray(elems) => forall i | 0 <= i < |elems| :: WellFormed(elems[i])
    case JObject(members) => forall i | 0 <= i < |members| :: WellFormed(members[i].value)
    case _ => true
  }

  lemma FormatUintLexeme(n: nat)
    ensures IntegerLexeme(FormatUint(n))
  {
  }

  lemma ItoaLexeme(n: int)
    ensures IntegerLexeme(Itoa(n))
  {
    if n < 0 {
      assert Itoa(n)[1..] == FormatUint(-n);
    }
  }
}
