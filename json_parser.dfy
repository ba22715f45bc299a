/** The JSON grammar as Go's `encoding/json` scanner accepts it (RFC 8259):
    `Parse(text)` is `Some(v)` exactly when `json.Valid(text)` holds, and `v`
    is what the decoder then walks. Every function takes the remaining input
    and gives back what is left after the construct it reads. */
module JsonParser {
  import opened Wrappers
  import opened StrConv
  import opened Text
  import opened Json

  predicate IsWs(c: char) {
    c == ' ' || c == '\t' || c == '\n' || c == '\r'
  }

  predicate AllWs(w: string) {
    forall i | 0 <= i < |w| :: IsWs(w[i])
  }

  /** Drops leading insignificant whitespace. */
  function SkipWs(s: string): (r: string)
    ensures |r| <= |s|
    ensures r == [] || !IsWs(r[0])
  {
    if s != [] && IsWs(s[0]) then SkipWs(s[1..]) else s
  }

  /** Length of the run of decimal digits that starts `s`. */
  function DigitRun(s: string): (n: nat)
    ensures n <= |s| && AllDigits(s[..n])
    ensures n < |s| ==> !IsDigit(s[n])
  {
    if s != [] && IsDigit(s[0]) then
      var n := 1 + DigitRun(s[1..]);
      assert s[..n] == [s[0]] + s[1..][..n - 1];
      n
    else 0
  }

  /** Length of an optional fraction `.digits`; `None` for a dot without digits. */
  function FractionLength(s: string): (r: Option<nat>)
    ensures r.Some? ==> r.value <= |s|
  {
    if s != [] && s[0] == '.' then
      var n := DigitRun(s[1..]);
      if n == 0 then None else Some(1 + n)
    else Some(0)
  }

  /** Length of an optional exponent `e[+-]digits`; `None` when it has no digits. */
  function ExponentLength(s: string): (r: Option<nat>)
    ensures r.Some? ==> r.value <= |s|
  {
    if s != [] && (s[0] == 'e' || s[0] == 'E') then
      var k := if |s| > 1 && (s[1] == '+' || s[1] == '-') then 2 else 1;
      var n := DigitRun(s[k..]);
      if n == 0 then None else Some(k + n)
    else Some(0)
  }

  /** Length of the number at the start of `s`: `-`? then `0` or a digit
      run not starting with `0`, then fraction and exponent. */
  function NumberLength(s: string): (r: Option<nat>)
    ensures r.Some? ==> 0 < r.value <= |s|
  {
    var i := if s != [] && s[0] == '-' then 1 else 0;
    if i >= |s| || !IsDigit(s[i]) then None
    else
      var j := if s[i] == '0' then i + 1 else i + DigitRun(s[i..]);
      match FractionLength(s[j..])
      case None => None
      case Some(f) =>
        match ExponentLength(s[j + f..])
        case None => None
        case Some(x) => Some(j + f + x)
  }

  /** Value of four hex digits at `s[i..i + 4]`. */
  function Hex4(s: string, i: nat): (r: Option<nat>)
    ensures r.Some? ==> r.value < 0x10000
  {
    if i + 4 <= |s| && IsHexDigit(s[i]) && IsHexDigit(s[i + 1]) && IsHexDigit(s[i + 2]) && IsHexDigit(s[i + 3]) then
      Some(((HexValue(s[i]) * 16 + HexValue(s[i + 1])) * 16 + HexValue(s[i + 2])) * 16 + HexValue(s[i + 3]))
    else None
  }

  /** The character an escape sequence at the start of `s` stands for and the
      number of characters it spans. `\u` escapes of a UTF-16 surrogate pair
      combine into one character; a surrogate that is not part of a pair
      becomes U+FFFD, as Go's decoder does. */
  function ParseEscape(s: string): (r: Option<(char, nat)>)
    requires s != [] && s[0] == '\\'
    ensures r.Some? ==> 2 <= r.value.1 <= |s|
  {
    if |s| < 2 then None
    else if s[1] == '"' then Some(('"', 2))
    else if s[1] == '\\' then Some(('\\', 2))
    else if s[1] == '/' then Some(('/', 2))
    else if s[1] == 'b' then Some((8 as char, 2))
    else if s[1] == 'f' then Some((12 as char, 2))
    else if s[1] == 'n' then Some(('\n', 2))
    else if s[1] == 'r' then Some(('\r', 2))
    else if s[1] == 't' then Some(('\t', 2))
    else if s[1] == 'u' then
      match Hex4(s, 2)
      case None => None
      case Some(cp) =>
        if cp < 0xD800 || 0xE000 <= cp then Some((cp as char, 6))
        else if cp < 0xDC00 && 12 <= |s| && s[6] == '\\' && s[7] == 'u' && Hex4(s, 8).Some?
             && 0xDC00 <= Hex4(s, 8).value < 0xE000 then
          Some(((0x10000 + (cp - 0xD800) * 0x400 + (Hex4(s, 8).value - 0xDC00)) as char, 12))
        else Some((0xFFFD as char, 6))
    else None
  }

  /** The content of a string literal whose opening quote has been read. */
  function ParseString(s: string): (r: Option<(string, string)>)
    ensures r.Some? ==> |r.value.1| < |s|
    decreases |s|
  {
    if s == [] then None
    else if s[0] == '"' then Some(([], s[1..]))
    else if s[0] == '\\' then
      match ParseEscape(s)
      case None => None
      case Some((c, n)) =>
        match ParseString(s[n..])
        case None => None
        case Some((t, rest)) => Some(([c] + t, rest))
    else if (s[0] as int) < 0x20 then None
    else
      match ParseString(s[1..])
      case None => None
      case Some((t, rest)) => Some(([s[0]] + t, rest))
  }

  /** A number or a literal name at the start of `t`. */
  function ParseScalar(t: string): (r: Option<(JValue, string)>)
    requires t != []
    ensures r.Some? ==> |r.value.1| < |t|
  {
    if t[0] == '-' || IsDigit(t[0]) then
      match NumberLength(t)
      case None => None
      case Some(n) => Some((JNumber(t[..n]), t[n..]))
    else if HasPrefix(t, "true") then Some((JBool(true), t[4..]))
    else if HasPrefix(t, "false") then Some((JBool(false), t[5..]))
    else if HasPrefix(t, "null") then Some((JNull, t[4..]))
    else None
  }

  /** A value after optional whitespace. */
  function ParseValue(s: string): (r: Option<(JValue, string)>)
    ensures r.Some? ==> |r.value.1| < |s|
    decreases |s|, 1
  {
    ParseValueAt(SkipWs(s))
  }

  /** A value that starts at the first character of `t`. */
  function ParseValueAt(t: string): (r: Option<(JValue, string)>)
    ensures r.Some? ==> |r.value.1| < |t|
    decreases |t|, 0
  {
    if t == [] then None
    else if t[0] == '{' then ParseObject(t[1..])
    else if t[0] == '[' then ParseArray(t[1..])
    else if t[0] == '"' then
      match ParseString(t[1..])
      case None => None
      case Some((str, rest)) => Some((JString(str), rest))
    else ParseScalar(t)
  }

  /** The rest of an object whose `{` has been read. */
  function ParseObject(s: string): (r: Option<(JValue, string)>)
    ensures r.Some? ==> |r.value.1| < |s|
    decreases |s|, 1
  {
    var t := SkipWs(s);
    if t != [] && t[0] == '}' then Some((JObject([]), t[1..]))
    else
      match ParseMembers(t)
      case None => None
      case Some((ms, rest)) => Some((JObject(ms), rest))
  }

  /** One or more `"key": value` members and the closing `}`, starting at the
      opening quote of the first key. */
  function ParseMembers(s: string): (r: Option<(seq<Member>, string)>)
    ensures r.Some? ==> |r.value.1| < |s|
    decreases |s|, 0
  {
    if s == [] || s[0] != '"' then None
    else
      match ParseString(s[1..])
      case None => None
      case Some((key, r1)) =>
        var r2 := SkipWs(r1);
        if r2 == [] || r2[0] != ':' then None
        else
          match ParseValue(r2[1..])
          case None => None
          case Some((v, r3)) =>
            match ParseMembersRest(SkipWs(r3))
            case None => None
            case Some((ms, r4)) => Some(([Member(key, v)] + ms, r4))
  }

  /** After a member: the closing `}`, or a comma and further members. */
  function ParseMembersRest(t: string): (r: Option<(seq<Member>, string)>)
    ensures r.Some? ==> |r.value.1| < |t|
    decreases |t|, 0
  {
    if t == [] then None
    else if t[0] == '}' then Some(([], t[1..]))
    else if t[0] == ',' then ParseMembers(SkipWs(t[1..]))
    else None
  }

  /** The rest of an array whose `[` has been read. */
  function ParseArray(s: string): (r: Option<(JValue, string)>)
    ensures r.Some? ==> |r.value.1| < |s|
    decreases |s|, 3
  {
    var t := SkipWs(s);
    if t != [] && t[0] == ']' then Some((JArray([]), t[1..]))
    else
      match ParseElements(t)
      case None => None
      case Some((xs, rest)) => Some((JArray(xs), rest))
  }

  /** One or more comma-separated values and the closing `]`. */
  function ParseElements(s: string): (r: Option<(seq<JValue>, string)>)
    ensures r.Some? ==> |r.value.1| < |s|
    decreases |s|, 2
  {
    match ParseValue(s)
    case None => None
    case Some((v, r1)) =>
      match ParseElementsRest(SkipWs(r1))
      case None => None
      case Some((xs, r2)) => Some(([v] + xs, r2))
  }

  /** After an element: the closing `]`, or a comma and further elements. */
  function ParseElementsRest(t: string): (r: Option<(seq<JValue>, string)>)
    ensures r.Some? ==> |r.value.1| < |t|
    decreases |t|, 0
  {
    if t == [] then None
    else if t[0] == ']' then Some(([], t[1..]))
    else if t[0] == ',' then ParseElements(t[1..])
    else None
  }

  /** A whole document: one value, with nothing but whitespace around it. */
  function Parse(text: string): Option<JValue> {
    match ParseValue(text)
    case None => None
    case Some((v, rest)) => if SkipWs(rest) == [] then Some(v) else None
  }

  /** `json.Valid`. */
  predicate Valid(text: string) {
    Parse(text).Some?
  }
}
