/** The printer and the parser are inverse: reading back the indented text
    of a well-formed value gives that value, whatever the indent unit and
    whichever characters were HTML-escaped. */
module JsonRoundTrip {
  import opened Wrappers
  import opened StrConv
  import opened Text
  import opened Json
  import opened JsonParser

  /** What may follow a printed value inside a printed document. */
  predicate Follows(rest: string) {
    rest == [] || IsWs(rest[0]) || rest[0] == ',' || rest[0] == '}' || rest[0] == ']'
  }

  lemma {:induction false} SkipWsAppend(w: string, s: string)
    requires AllWs(w)
    ensures SkipWs(w + s) == SkipWs(s)
  {
    if w == [] {
      assert w + s == s;
    } else {
      assert (w + s)[1..] == w[1..] + s;
      SkipWsAppend(w[1..], s);
    }
  }

  lemma SkipWsNonWs(s: string)
    requires s != [] && !IsWs(s[0])
    ensures SkipWs(s) == s
  {
  }

  lemma SkipWsIdempotent(s: string)
    ensures SkipWs(SkipWs(s)) == SkipWs(s)
  {
  }

  lemma {:induction false} IndentationWs(unit: string, depth: nat)
    requires AllWs(unit)
    ensures AllWs(Indentation(unit, depth))
  {
    if depth > 0 {
      IndentationWs(unit, depth - 1);
    }
  }

  lemma HexDigits(n: nat)
    requires n < 0x10000
    ensures ((n / 16 / 16 / 16 * 16 + n / 16 / 16 % 16) * 16 + n / 16 % 16) * 16 + n % 16 == n
  {
    var m1 := n / 16;
    var m2 := m1 / 16;
    assert m2 / 16 * 16 + m2 % 16 == m2;
    assert m2 * 16 + m1 % 16 == m1;
    assert m1 * 16 + n % 16 == n;
  }

  lemma UnicodeEscapeHex(n: nat, tail: string)
    requires n < 0x10000
    ensures Hex4(UnicodeEscape(n) + tail, 2) == Some(n)
  {
    var x := UnicodeEscape(n) + tail;
    assert x[2] == HexDigit(n / 16 / 16 / 16) && x[3] == HexDigit(n / 16 / 16 % 16);
    assert x[4] == HexDigit(n / 16 % 16) && x[5] == HexDigit(n % 16);
    HexDigits(n);
  }

  lemma Assoc(a: string, b: string, c: string)
    ensures (a + b) + c == a + (b + c)
  {
  }

  lemma NewlineWs(unit: string, depth: nat)
    requires AllWs(unit)
    ensures AllWs(Newline(unit, depth)) && Newline(unit, depth) != []
  {
    IndentationWs(unit, depth);
  }

  /** One escaped character reads back as that character. */
  lemma EscapeCharParse(c: char, e: Escaping, tail: string, t: string, r: string)
    requires ParseString(tail) == Some((t, r))
    ensures ParseString(EscapeChar(c, e) + tail) == Some(([c] + t, r))
  {
    var x := EscapeChar(c, e) + tail;
    if c == '"' || c == '\\' || c == 8 as char || c == 12 as char || c == '\n' || c == '\r' || c == '\t' {
      assert x[0] == '\\' && x[1] == EscapeChar(c, e)[1] && x[2..] == tail;
      assert ParseEscape(x) == Some((c, 2));
    } else if c as int < 0x20 || e.Escapes(c) || c as int == 0x2028 || c as int == 0x2029 {
      UnicodeEscapeHex(c as int, tail);
      assert x[0] == '\\' && x[1] == 'u' && x[6..] == tail;
      assert ParseEscape(x) == Some((c, 6));
    } else {
      assert x[0] == c && x[1..] == tail;
    }
  }

  /** The escaped text of a string, then the closing quote, reads back as the
      string. */
  lemma {:induction false} EscapeParse(s: string, e: Escaping, rest: string)
    ensures ParseString(Escape(s, e) + ("\"" + rest)) == Some((s, rest))
  {
    if s == [] {
      assert Escape(s, e) + ("\"" + rest) == "\"" + rest;
      assert ("\"" + rest)[1..] == rest;
    } else {
      var tail := Escape(s[1..], e) + ("\"" + rest);
      EscapeParse(s[1..], e, rest);
      Assoc(EscapeChar(s[0], e), Escape(s[1..], e), "\"" + rest);
      EscapeCharParse(s[0], e, tail, s[1..], rest);
      assert [s[0]] + s[1..] == s;
    }
  }

  lemma {:induction false} DigitRunAll(d: string, rest: string)
    requires AllDigits(d) && (rest == [] || !IsDigit(rest[0]))
    ensures DigitRun(d + rest) == |d|
  {
    if d != [] {
      assert (d + rest)[1..] == d[1..] + rest;
      DigitRunAll(d[1..], rest);
    }
  }

  lemma NoFractionExponent(rest: string)
    requires Follows(rest)
    ensures FractionLength(rest) == Some(0) && ExponentLength(rest) == Some(0)
  {
  }

  /** The integer part of a lexeme ends where the lexeme ends. */
  lemma IntegerPart(d: string, rest: string)
    requires d != [] && AllDigits(d) && (|d| > 1 ==> d[0] != '0') && Follows(rest)
    ensures (if d[0] == '0' then 1 else DigitRun(d + rest)) == |d|
  {
    if d[0] != '0' {
      DigitRunAll(d, rest);
    }
  }

  /** An integer lexeme is read as one whole number token. */
  lemma NumberLengthLexeme(l: string, rest: string)
    requires IntegerLexeme(l) && Follows(rest)
    ensures NumberLength(l + rest) == Some(|l|)
  {
    var s := l + rest;
    var i := if l[0] == '-' then 1 else 0;
    assert s[i..] == l[i..] + rest;
    assert s[i] == l[i];
    IntegerPart(l[i..], rest);
    assert s[|l|..] == rest;
    NoFractionExponent(rest);
  }

  /** Printed text starts with a character that is neither whitespace nor a
      closing bracket. */
  lemma PrintStart(v: JValue, unit: string, depth: nat, keys: Escaping, values: Escaping)
    requires WellFormed(v)
    ensures var p := Print(v, unit, depth, keys, values);
      p != [] && !IsWs(p[0]) && p[0] != ']' && p[0] != '}'
  {
  }

  lemma ParseValueStart(p: string, rest: string)
    requires p != [] && !IsWs(p[0])
    ensures ParseValue(p + rest) == ParseValueAt(p + rest)
  {
  }

  lemma NullParse(unit: string, depth: nat, keys: Escaping, values: Escaping, rest: string)
    requires Follows(rest)
    ensures ParseValueAt(Print(JNull, unit, depth, keys, values) + rest) == Some((JNull, rest))
  {
    var t := Print(JNull, unit, depth, keys, values) + rest;
    assert t[..4] == "null" && t[4..] == rest;
  }

  lemma BoolParse(b: bool, unit: string, depth: nat, keys: Escaping, values: Escaping, rest: string)
    requires Follows(rest)
    ensures ParseValueAt(Print(JBool(b), unit, depth, keys, values) + rest) == Some((JBool(b), rest))
  {
    var t := Print(JBool(b), unit, depth, keys, values) + rest;
    if b {
      assert t[..4] == "true" && t[4..] == rest;
    } else {
      assert t[..5] == "false" && t[5..] == rest;
    }
  }

  lemma NumberParse(l: string, unit: string, depth: nat, keys: Escaping, values: Escaping, rest: string)
    requires WellFormed(JNumber(l)) && Follows(rest)
    ensures ParseValueAt(Print(JNumber(l), unit, depth, keys, values) + rest) == Some((JNumber(l), rest))
  {
    var t := Print(JNumber(l), unit, depth, keys, values) + rest;
    assert t == l + rest;
    NumberLengthLexeme(l, rest);
    assert t[..|l|] == l && t[|l|..] == rest;
  }

  lemma ScalarParse(v: JValue, unit: string, depth: nat, keys: Escaping, values: Escaping, rest: string)
    requires v.JNull? || v.JBool? || v.JNumber?
    requires WellFormed(v) && Follows(rest)
    ensures ParseValueAt(Print(v, unit, depth, keys, values) + rest) == Some((v, rest))
  {
    match v
    case JNull => NullParse(unit, depth, keys, values, rest);
    case JBool(b) => BoolParse(b, unit, depth, keys, values, rest);
    case JNumber(l) => NumberParse(l, unit, depth, keys, values, rest);
  }

  lemma StringParse(s: string, unit: string, depth: nat, keys: Escaping, values: Escaping, rest: string)
    ensures ParseValueAt(Print(JString(s), unit, depth, keys, values) + rest) == Some((JString(s), rest))
  {
    var x := Escape(s, values) + ("\"" + rest);
    Assoc("\"", Escape(s, values) + "\"", rest);
    Assoc(Escape(s, values), "\"", rest);
    assert Print(JString(s), unit, depth, keys, values) + rest == "\"" + x;
    assert ("\"" + x)[1..] == x;
    EscapeParse(s, values, rest);
  }

  lemma {:induction false} PrintParse(v: JValue, unit: string, depth: nat, keys: Escaping, values: Escaping, rest: string)
    requires WellFormed(v) && AllWs(unit) && Follows(rest)
    ensures ParseValue(Print(v, unit, depth, keys, values) + rest) == Some((v, rest))
    decreases v, 2
  {
    PrintStart(v, unit, depth, keys, values);
    ParseValueStart(Print(v, unit, depth, keys, values), rest);
    match v
    case JString(s) => StringParse(s, unit, depth, keys, values, rest);
    case JArray(_) => ArrayParse(v, unit, depth, keys, values, rest);
    case JObject(_) => ObjectParse(v, unit, depth, keys, values, rest);
    case _ => ScalarParse(v, unit, depth, keys, values, rest);
  }

  lemma OpenBracket(open: char, u: string)
    ensures open == '[' ==> ParseValueAt([open] + u) == ParseArray(u)
    ensures open == '{' ==> ParseValueAt([open] + u) == ParseObject(u)
  {
    assert ([open] + u)[1..] == u;
  }

  lemma EmptyContainer(closer: char, rest: string)
    ensures closer == ']' ==> ParseArray([closer] + rest) == Some((JArray([]), rest))
    ensures closer == '}' ==> ParseObject([closer] + rest) == Some((JObject([]), rest))
  {
    assert ([closer] + rest)[1..] == rest;
    if closer == ']' || closer == '}' {
      SkipWsNonWs([closer] + rest);
    }
  }

  /** The text of a non-empty container followed by `rest`, regrouped as its
      opening bracket, its entries, and its closing line followed by `rest`. */
  lemma ContainerShape(open: string, entries: string, close: string, closer: string, rest: string)
    ensures (open + (entries + (close + closer))) + rest == open + (entries + (close + (closer + rest)))
  {
    Assoc(open, entries + (close + closer), rest);
    Assoc(entries, close + closer, rest);
    Assoc(close, closer, rest);
  }

  lemma ArrayFromElements(u: string, xs: seq<JValue>, rest: string)
    requires SkipWs(u) != [] && SkipWs(u)[0] != ']' && ParseElements(SkipWs(u)) == Some((xs, rest))
    ensures ParseArray(u) == Some((JArray(xs), rest))
  {
  }

  lemma ObjectFromMembers(u: string, ms: seq<Member>, rest: string)
    requires SkipWs(u) != [] && SkipWs(u)[0] == '"' && ParseMembers(SkipWs(u)) == Some((ms, rest))
    ensures ParseObject(u) == Some((JObject(ms), rest))
  {
  }

  lemma EmptyArrayParse(unit: string, depth: nat, keys: Escaping, values: Escaping, rest: string)
    requires Follows(rest)
    ensures ParseValueAt(Print(JArray([]), unit, depth, keys, values) + rest) == Some((JArray([]), rest))
  {
    assert Print(JArray([]), unit, depth, keys, values) + rest == "[" + ("]" + rest);
    OpenBracket('[', "]" + rest);
    EmptyContainer(']', rest);
  }

  /** A non-empty array read back from its text, given its entries read back. */
  lemma ArrayFromEntries(xs: seq<JValue>, unit: string, depth: nat, keys: Escaping, values: Escaping, rest: string)
    requires AllWs(unit) && Follows(rest) && xs != [] && (forall i | 0 <= i < |xs| :: WellFormed(xs[i]))
    requires var close := Newline(unit, depth);
      var u := SkipWs(PrintElements(xs, unit, depth + 1, values) + (close + ("]" + rest)));
      u != [] && u[0] != ']' && ParseElements(u) == Some((xs, rest))
    ensures ParseValueAt(Print(JArray(xs), unit, depth, keys, values) + rest) == Some((JArray(xs), rest))
  {
    var close := Newline(unit, depth);
    NewlineWs(unit, depth);
    var entries := PrintElements(xs, unit, depth + 1, values);
    ContainerShape("[", entries, close, "]", rest);
    var u := entries + (close + ("]" + rest));
    assert Print(JArray(xs), unit, depth, keys, values) == "[" + (entries + (close + "]"));
    OpenBracket('[', u);
    ArrayFromElements(u, xs, rest);
  }

  lemma {:induction false} ArrayParse(v: JValue, unit: string, depth: nat, keys: Escaping, values: Escaping, rest: string)
    requires v.JArray? && WellFormed(v) && AllWs(unit) && Follows(rest)
    ensures ParseValueAt(Print(v, unit, depth, keys, values) + rest) == Some((v, rest))
    decreases v, 1
  {
    if v.elems == [] {
      EmptyArrayParse(unit, depth, keys, values, rest);
    } else {
      NewlineWs(unit, depth);
      PrintElementsParse(v.elems, unit, depth + 1, values, Newline(unit, depth), rest);
      ArrayFromEntries(v.elems, unit, depth, keys, values, rest);
    }
  }

  lemma EmptyObjectParse(unit: string, depth: nat, keys: Escaping, values: Escaping, rest: string)
    requires Follows(rest)
    ensures ParseValueAt(Print(JObject([]), unit, depth, keys, values) + rest) == Some((JObject([]), rest))
  {
    assert Print(JObject([]), unit, depth, keys, values) + rest == "{" + ("}" + rest);
    OpenBracket('{', "}" + rest);
    EmptyContainer('}', rest);
  }

  /** A non-empty object read back from its text, given its entries read back. */
  lemma ObjectFromEntries(ms: seq<Member>, unit: string, depth: nat, keys: Escaping, values: Escaping, rest: string)
    requires AllWs(unit) && Follows(rest) && ms != [] && (forall i | 0 <= i < |ms| :: WellFormed(ms[i].value))
    requires var close := Newline(unit, depth);
      var u := SkipWs(PrintMembers(ms, unit, depth + 1, keys, values) + (close + ("}" + rest)));
      u != [] && u[0] == '"' && ParseMembers(u) == Some((ms, rest))
    ensures ParseValueAt(Print(JObject(ms), unit, depth, keys, values) + rest) == Some((JObject(ms), rest))
  {
    var close := Newline(unit, depth);
    NewlineWs(unit, depth);
    var entries := PrintMembers(ms, unit, depth + 1, keys, values);
    ContainerShape("{", entries, close, "}", rest);
    var u := entries + (close + ("}" + rest));
    assert Print(JObject(ms), unit, depth, keys, values) == "{" + (entries + (close + "}"));
    OpenBracket('{', u);
    ObjectFromMembers(u, ms, rest);
  }

  lemma {:induction false} ObjectParse(v: JValue, unit: string, depth: nat, keys: Escaping, values: Escaping, rest: string)
    requires v.JObject? && WellFormed(v) && AllWs(unit) && Follows(rest)
    ensures ParseValueAt(Print(v, unit, depth, keys, values) + rest) == Some((v, rest))
    decreases v, 1
  {
    if v.members == [] {
      EmptyObjectParse(unit, depth, keys, values, rest);
    } else {
      NewlineWs(unit, depth);
      PrintMembersParse(v.members, unit, depth + 1, keys, values, Newline(unit, depth), rest);
      ObjectFromEntries(v.members, unit, depth, keys, values, rest);
    }
  }

  lemma ParseElementsSkip(u: string)
    ensures ParseElements(SkipWs(u)) == ParseElements(u)
  {
    SkipWsIdempotent(u);
  }

  lemma ElementsStep(h: string, t: string, x: JValue, xs: seq<JValue>, rest: string)
    requires ParseValue(h + t) == Some((x, t)) && ParseElementsRest(SkipWs(t)) == Some((xs, rest))
    ensures ParseElements(h + t) == Some(([x] + xs, rest))
  {
  }

  /** After the last entry: whitespace, the closer, then `rest`. */
  lemma CloseRest(close: string, closer: char, rest: string)
    requires AllWs(close) && (closer == ']' || closer == '}')
    ensures closer == ']' ==> ParseElementsRest(SkipWs(close + ([closer] + rest))) == Some(([], rest))
    ensures closer == '}' ==> ParseMembersRest(SkipWs(close + ([closer] + rest))) == Some(([], rest))
  {
    SkipWsAppend(close, [closer] + rest);
    SkipWsNonWs([closer] + rest);
    assert ([closer] + rest)[1..] == rest;
  }

  lemma ElementsMore(u: string, xs: seq<JValue>, rest: string)
    requires ParseElements(SkipWs(u)) == Some((xs, rest))
    ensures ParseElementsRest(SkipWs("," + u)) == Some((xs, rest))
  {
    SkipWsNonWs("," + u);
    assert ("," + u)[1..] == u;
    ParseElementsSkip(u);
  }

  /** What may follow an entry: a comma, or the container's closing line. */
  lemma EntryFollows(more: string, close: string, closer: char, rest: string)
    requires more == [] || more[0] == ','
    requires AllWs(close) && (closer == ']' || closer == '}')
    ensures Follows(more + (close + ([closer] + rest)))
  {
    var t := more + (close + ([closer] + rest));
    if more == [] {
      assert t == close + ([closer] + rest);
      if close != [] {
        assert t[0] == close[0];
      }
    } else {
      assert t[0] == ',';
    }
  }

  /** The first element of a printed element list: where its value starts,
      and what follows it. */
  lemma ElementHead(xs: seq<JValue>, unit: string, depth: nat, values: Escaping, close: string, rest: string)
    returns (head: string, t: string)
    requires xs != [] && WellFormed(xs[0]) && AllWs(unit) && AllWs(close) && Follows(rest)
    ensures head == Print(xs[0], unit, depth, values, values)
    ensures t == (if |xs| == 1 then "" else "," + PrintElements(xs[1..], unit, depth, values)) + (close + ("]" + rest))
    ensures SkipWs(PrintElements(xs, unit, depth, values) + (close + ("]" + rest))) == head + t
    ensures Follows(t)
  {
    head := Print(xs[0], unit, depth, values, values);
    var more := if |xs| == 1 then "" else "," + PrintElements(xs[1..], unit, depth, values);
    var after := close + ("]" + rest);
    t := more + after;
    var line := Newline(unit, depth);
    NewlineWs(unit, depth);
    Assoc(line, head + more, after);
    Assoc(head, more, after);
    assert PrintElements(xs, unit, depth, values) + after == line + (head + t);
    SkipWsAppend(line, head + t);
    PrintStart(xs[0], unit, depth, values, values);
    SkipWsNonWs(head + t);
    EntryFollows(more, close, ']', rest);
  }

  /** An element list of one element, read back from its text. */
  lemma ElementsLast(x: JValue, close: string, rest: string, head: string, t: string)
    requires AllWs(close) && t == "" + (close + ("]" + rest))
    requires ParseValue(head + t) == Some((x, t))
    ensures ParseElements(head + t) == Some(([x], rest))
  {
    assert t == close + ("]" + rest);
    CloseRest(close, ']', rest);
    ElementsStep(head, t, x, [], rest);
    assert [x] + [] == [x];
  }

  /** An element list read back from its text, given its tail read back. */
  lemma ElementsNext(xs: seq<JValue>, tail: string, after: string, rest: string, head: string, t: string)
    requires |xs| > 1 && t == "," + tail + after
    requires ParseValue(head + t) == Some((xs[0], t))
    requires ParseElements(SkipWs(tail + after)) == Some((xs[1..], rest))
    ensures ParseElements(head + t) == Some((xs, rest))
  {
    var u' := tail + after;
    Assoc(",", tail, after);
    assert t == "," + u';
    ElementsMore(u', xs[1..], rest);
    ElementsStep(head, t, xs[0], xs[1..], rest);
    assert [xs[0]] + xs[1..] == xs;
  }

  lemma {:induction false} PrintElementsParse(xs: seq<JValue>, unit: string, depth: nat, values: Escaping, close: string, rest: string)
    requires xs != [] && (forall i | 0 <= i < |xs| :: WellFormed(xs[i]))
    requires AllWs(unit) && AllWs(close) && Follows(rest)
    ensures var u := SkipWs(PrintElements(xs, unit, depth, values) + (close + ("]" + rest)));
      u != [] && u[0] != ']' && ParseElements(u) == Some((xs, rest))
    decreases xs, 0
  {
    var head, t := ElementHead(xs, unit, depth, values, close, rest);
    PrintStart(xs[0], unit, depth, values, values);
    PrintParse(xs[0], unit, depth, values, values, t);
    if |xs| == 1 {
      ElementsLast(xs[0], close, rest, head, t);
      assert [xs[0]] == xs;
    } else {
      PrintElementsParse(xs[1..], unit, depth, values, close, rest);
      ElementsNext(xs, PrintElements(xs[1..], unit, depth, values), close + ("]" + rest), rest, head, t);
    }
  }

  lemma MembersStep(key: string, r1: string, h: string, t: string, x: JValue, ms: seq<Member>, rest: string)
    requires ParseString(r1) == Some((key, ": " + (h + t)))
    requires ParseValue(h + t) == Some((x, t)) && ParseMembersRest(SkipWs(t)) == Some((ms, rest))
    ensures ParseMembers("\"" + r1) == Some(([Member(key, x)] + ms, rest))
  {
    var r := ": " + (h + t);
    SkipWsNonWs(r);
    assert r[1..] == " " + (h + t);
    SkipWsAppend(" ", h + t);
    assert ("\"" + r1)[1..] == r1;
  }

  lemma MembersMore(u: string, ms: seq<Member>, rest: string)
    requires ParseMembers(SkipWs(u)) == Some((ms, rest))
    ensures ParseMembersRest(SkipWs("," + u)) == Some((ms, rest))
  {
    SkipWsNonWs("," + u);
    assert ("," + u)[1..] == u;
  }

  /** A member's text regrouped as opening quote, escaped key, and the rest. */
  lemma MemberShape(line: string, key: string, keys: Escaping, head: string, more: string, after: string)
    ensures (line + (Quote(key, keys) + (": " + (head + more)))) + after
      == line + ("\"" + (Escape(key, keys) + ("\"" + (": " + (head + (more + after))))))
  {
    var q := Quote(key, keys);
    var e := Escape(key, keys);
    Assoc(line, q + (": " + (head + more)), after);
    Assoc(q, ": " + (head + more), after);
    Assoc(": ", head + more, after);
    Assoc(head, more, after);
    var z := ": " + (head + (more + after));
    Assoc("\"", e + "\"", z);
    Assoc(e, "\"", z);
  }

  /** The first member of a printed member list, up to its value: the
      opening quote, the key that reads back, and what follows the value. */
  lemma MemberHead(ms: seq<Member>, unit: string, depth: nat, keys: Escaping, values: Escaping, close: string, rest: string)
    returns (head: string, t: string, r1: string)
    requires ms != [] && AllWs(unit) && AllWs(close) && Follows(rest)
    ensures head == Print(ms[0].value, unit, depth, values, values)
    ensures t == (if |ms| == 1 then "" else "," + PrintMembers(ms[1..], unit, depth, keys, values)) + (close + ("}" + rest))
    ensures SkipWs(PrintMembers(ms, unit, depth, keys, values) + (close + ("}" + rest))) == "\"" + r1
    ensures ParseString(r1) == Some((ms[0].key, ": " + (head + t)))
    ensures Follows(t)
  {
    var key := ms[0].key;
    head := Print(ms[0].value, unit, depth, values, values);
    var more := if |ms| == 1 then "" else "," + PrintMembers(ms[1..], unit, depth, keys, values);
    var after := close + ("}" + rest);
    t := more + after;
    var line := Newline(unit, depth);
    NewlineWs(unit, depth);
    MemberShape(line, key, keys, head, more, after);
    r1 := Escape(key, keys) + ("\"" + (": " + (head + t)));
    assert PrintMembers(ms, unit, depth, keys, values) + after == line + ("\"" + r1);
    SkipWsAppend(line, "\"" + r1);
    SkipWsNonWs("\"" + r1);
    EscapeParse(key, keys, ": " + (head + t));
    EntryFollows(more, close, '}', rest);
  }

  /** A member list of one member, read back from its text. */
  lemma MembersLast(m: Member, close: string, rest: string, head: string, t: string, r1: string)
    requires AllWs(close) && t == "" + (close + ("}" + rest))
    requires ParseValue(head + t) == Some((m.value, t))
    requires ParseString(r1) == Some((m.key, ": " + (head + t)))
    ensures ParseMembers("\"" + r1) == Some(([m], rest))
  {
    assert t == close + ("}" + rest);
    CloseRest(close, '}', rest);
    MembersStep(m.key, r1, head, t, m.value, [], rest);
    assert [Member(m.key, m.value)] + [] == [m];
  }

  /** A member list read back from its text, given its tail read back. */
  lemma MembersNext(ms: seq<Member>, tail: string, after: string, rest: string, head: string, t: string, r1: string)
    requires |ms| > 1 && t == "," + tail + after
    requires ParseValue(head + t) == Some((ms[0].value, t))
    requires ParseString(r1) == Some((ms[0].key, ": " + (head + t)))
    requires ParseMembers(SkipWs(tail + after)) == Some((ms[1..], rest))
    ensures ParseMembers("\"" + r1) == Some((ms, rest))
  {
    var u' := tail + after;
    Assoc(",", tail, after);
    assert t == "," + u';
    MembersMore(u', ms[1..], rest);
    MembersStep(ms[0].key, r1, head, t, ms[0].value, ms[1..], rest);
    assert [Member(ms[0].key, ms[0].value)] + ms[1..] == ms;
  }

  lemma {:induction false} PrintMembersParse(ms: seq<Member>, unit: string, depth: nat, keys: Escaping, values: Escaping, close: string, rest: string)
    requires ms != [] && (forall i | 0 <= i < |ms| :: WellFormed(ms[i].value))
    requires AllWs(unit) && AllWs(close) && Follows(rest)
    ensures var u := SkipWs(PrintMembers(ms, unit, depth, keys, values) + (close + ("}" + rest)));
      u != [] && u[0] == '"' && ParseMembers(u) == Some((ms, rest))
    decreases ms, 0
  {
    var head, t, r1 := MemberHead(ms, unit, depth, keys, values, close, rest);
    PrintParse(ms[0].value, unit, depth, values, values, t);
    if |ms| == 1 {
      MembersLast(ms[0], close, rest, head, t, r1);
      assert [ms[0]] == ms;
    } else {
      PrintMembersParse(ms[1..], unit, depth, keys, values, close, rest);
      MembersNext(ms, PrintMembers(ms[1..], unit, depth, keys, values), close + ("}" + rest), rest, head, t, r1);
    }
  }

  /** A whole printed document, with the newline an `Encoder` appends, parses
      back to the value that was printed. */
  lemma ParsePrinted(v: JValue, unit: string, keys: Escaping, values: Escaping)
    requires WellFormed(v) && AllWs(unit)
    ensures Parse(Print(v, unit, 0, keys, values) + "\n") == Some(v)
  {
    PrintParse(v, unit, 0, keys, values, "\n");
  }
}
