/** The two lenient scalar types of the schema (model/rockon.go):
    `UintValue`, an unsigned integer that may also be written as a string,
    and `StrValue`, a string that may also be written as an integer.

    `UnmarshalUint` and `UnmarshalStr` take the raw text of one JSON value,
    as `encoding/json` hands it to an `UnmarshalJSON` method.
    `UintOfJson` and `StrOfJson` are the same decoders on the parsed value;
    the bridge lemmas show the two levels agree. */
module Scalars {
  import opened Wrappers
  import opened StrConv
  import opened Json
  import opened JsonParser

  /** `json.Unmarshal(data, &s)` for a Go `string` `s`: the content of a
      string literal. A `null` leaves `s` as it was, here `prior`. */
  function UnmarshalString(data: string, prior: string): Result<string, Error> {
    match Parse(data)
    case None => Err(SyntaxError)
    case Some(JString(t)) => Ok(t)
    case Some(JNull) => Ok(prior)
    case Some(_) => Err(TypeError)
  }

  /** `json.Unmarshal(data, &n)` for a Go `int` `n` that starts at 0:
      `null` leaves it 0, a number must be an integer in the range of a
      64-bit `int`, anything else does not fit. */
  function UnmarshalInt(data: string): Result<int, Error> {
    match Parse(data)
    case None => Err(SyntaxError)
    case Some(JNull) => Ok(0)
    case Some(JNumber(l)) => if ParseInt(l).Ok? then Ok(ParseInt(l).value) else Err(TypeError)
    case Some(_) => Err(TypeError)
  }

  /** `UintValue.UnmarshalJSON`: text in quotes is unquoted first, and the
      result goes through `strconv.ParseUint(s, 10, 0)`. The decoder never
      hands over empty text, and the method reads its first byte. */
  function UnmarshalUint(data: string): Result<nat, Error>
    requires data != []
  {
    var s :- if data[0] == '"' && data[|data| - 1] == '"' then UnmarshalString(data, data) else Ok(data);
    ParseUint(s)
  }

  /** `StrValue.UnmarshalJSON`: text in quotes is a string; anything else is
      decoded as an `int` and written with `strconv.Itoa`. */
  function UnmarshalStr(data: string): Result<string, Error> {
    if |data| > 1 && data[0] == '"' && data[|data| - 1] == '"' then UnmarshalString(data, "")
    else
      var n :- UnmarshalInt(data);
      Ok(Itoa(n))
  }

  /** `UintValue` decoding on a parsed value. */
  function UintOfJson(v: JValue): (r: Result<nat, Error>)
    ensures r.Ok? ==> r.value <= MaxUint
  {
    match v
    case JString(s) => ParseUint(s)
    case JNumber(l) => ParseUint(l)
    case _ => Err(SyntaxError)
  }

  /** `StrValue` decoding on a parsed value. */
  function StrOfJson(v: JValue): Result<string, Error> {
    match v
    case JString(s) => Ok(s)
    case JNull => Ok("0")
    case JNumber(l) => if ParseInt(l).Ok? then Ok(Itoa(ParseInt(l).value)) else Err(TypeError)
    case _ => Err(TypeError)
  }

  /** A `UintValue` encodes as a bare unsigned number. */
  function UintToJson(n: nat): (v: JValue)
    ensures v.JNumber? && IntegerLexeme(v.lexeme)
  {
    FormatUintLexeme(n);
    JNumber(FormatUint(n))
  }

  /** A `StrValue` encodes as a string. */
  function StrToJson(s: string): (v: JValue)
    ensures v.JString?
  {
    JString(s)
  }

  /** Where a string literal ends: the quote just before what is left. */
  lemma {:induction false} ParseStringEnd(s: string, t: string, r: string)
    requires ParseString(s) == Some((t, r))
    ensures |r| < |s| && s[|s| - |r| - 1] == '"'
    decreases |s|
  {
    if s[0] == '"' {
    } else if s[0] == '\\' {
      var n := ParseEscape(s).value.1;
      var t' := ParseString(s[n..]).value.0;
      ParseStringEnd(s[n..], t', r);
    } else {
      var t' := ParseString(s[1..]).value.0;
      ParseStringEnd(s[1..], t', r);
    }
  }

  /** `data` is exactly the text of the value `v`, as the decoder slices it. */
  predicate ExactText(data: string, v: JValue) {
    data != [] && !IsWs(data[0]) && ParseValue(data) == Some((v, []))
  }

  lemma ExactTextShape(data: string, v: JValue)
    requires ExactText(data, v)
    ensures Parse(data) == Some(v)
    ensures v.JString? <==> data[0] == '"'
    ensures v.JString? ==> |data| > 1 && data[|data| - 1] == '"'
    ensures v.JNumber? ==> data == v.lexeme
    ensures !v.JString? && !v.JNumber? ==> !IsDigit(data[0])
  {
    assert SkipWs(data) == data;
    assert ParseValueAt(data) == Some((v, []));
    if data[0] == '"' {
      var r := ParseString(data[1..]);
      assert r.Some? && r.value.1 == [];
      ParseStringEnd(data[1..], r.value.0, []);
    } else if data[0] != '{' && data[0] != '[' && (data[0] == '-' || IsDigit(data[0])) {
      assert ParseScalar(data) == Some((v, []));
      var n := NumberLength(data);
      assert n.Some? && data[n.value..] == [];
      assert data[..n.value] == data;
    }
  }

  /** The raw-text decoder of `UintValue` and the value-level one agree. */
  lemma UintBridge(data: string, v: JValue)
    requires ExactText(data, v)
    ensures UnmarshalUint(data) == UintOfJson(v)
  {
    ExactTextShape(data, v);
  }

  /** The raw-text decoder of `StrValue` and the value-level one agree. */
  lemma StrBridge(data: string, v: JValue)
    requires ExactText(data, v)
    ensures UnmarshalStr(data) == StrOfJson(v)
  {
    ExactTextShape(data, v);
    if v.JNumber? && ParseInt(v.lexeme).Ok? {
      assert UnmarshalInt(data) == Ok(ParseInt(v.lexeme).value);
    }
  }

  /** A bare number and the same digits in quotes decode alike. */
  lemma UintQuotedLikeBare(digits: string)
    ensures UintOfJson(JString(digits)) == UintOfJson(JNumber(digits))
  {
  }

  /** Exactly the texts `ParseUint` accepts decode, to their decimal value. */
  lemma UintAccepts(v: JValue)
    ensures UintOfJson(v).Ok? <==>
      (v.JString? || v.JNumber?) &&
      var s := if v.JString? then v.s else v.lexeme;
      s != [] && AllDigits(s) && DecimalValue(s) <= MaxUint
    ensures UintOfJson(v).Ok? ==>
      var s := if v.JString? then v.s else v.lexeme;
      UintOfJson(v).value == DecimalValue(s)
  {
  }

  /** A sign, a decimal point, the empty string or a value beyond the range
      of `uint` is rejected. */
  lemma UintRejects(s: string)
    requires s == [] || s[0] == '-' || s[0] == '+' || (exists i | 0 <= i < |s| :: s[i] == '.')
             || (AllDigits(s) && DecimalValue(s) > MaxUint)
    ensures UintOfJson(JString(s)).Err? && UintOfJson(JNumber(s)).Err?
  {
  }

  /** Quoted leading zeros are accepted: `"007"` decodes to 7. */
  lemma UintLeadingZeros(s: string)
    requires s != [] && AllDigits(s)
    ensures UintOfJson(JString("0" + s)) == UintOfJson(JString(s))
  {
    DecimalValueLeadingZero(s);
  }

  lemma UintSeven()
    ensures UintOfJson(JString("007")) == Ok(7)
  {
    UintLeadingZeros("07");
    UintLeadingZeros("7");
    assert "0" + "07" == "007";
    assert "0" + "7" == "07";
  }

  /** Decoding the encoding of a `UintValue` gives it back, whether it is
      written bare or quoted. */
  lemma UintRoundTrip(n: nat)
    requires n <= MaxUint
    ensures UintOfJson(UintToJson(n)) == Ok(n)
    ensures UintOfJson(JString(FormatUint(n))) == Ok(n)
  {
    ParseUintFormat(n);
  }

  /** A quoted string is taken as it is; `null` gives `"0"`. */
  lemma StrAccepts(s: string)
    ensures StrOfJson(JString(s)) == Ok(s)
    ensures StrOfJson(JNull) == Ok("0")
  {
  }

  /** A bare integer gives its decimal form. */
  lemma StrOfInteger(n: int)
    requires MinInt <= n <= MaxInt
    ensures StrOfJson(JNumber(Itoa(n))) == Ok(Itoa(n))
  {
    ParseIntItoa(n);
  }

  lemma StrFortyTwo()
    ensures StrOfJson(JNumber("42")) == Ok("42")
  {
    StrOfInteger(42);
    assert Itoa(42) == "42";
  }

  /** A number with a fraction or an exponent, and a boolean, are errors. */
  lemma StrRejects(l: string, b: bool)
    requires exists i | 0 <= i < |l| :: l[i] == '.' || l[i] == 'e' || l[i] == 'E'
    ensures StrOfJson(JNumber(l)).Err? && StrOfJson(JBool(b)).Err?
  {
    var i :| 0 <= i < |l| && (l[i] == '.' || l[i] == 'e' || l[i] == 'E');
    if 0 < i && l[0] == '-' {
      assert l[1..][i - 1] == l[i];
    }
  }

  /** Decoding the encoding of a `StrValue` gives it back. */
  lemma StrRoundTrip(s: string)
    ensures StrOfJson(StrToJson(s)) == Ok(s)
  {
  }
}
