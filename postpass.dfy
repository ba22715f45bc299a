/** The pass `RockOn.ToJSON` makes over the encoder's text: each of the
    unicode escapes of `&`, `<` and `>` is replaced by the character itself
    with `strings.ReplaceAll`. On a string literal that does not already
    contain such an escape the pass undoes exactly the HTML escaping the
    encoder did; whatever the text, none of the escapes survives. */
module PostPass {
  import opened Wrappers
  import opened JsonParser
  import opened Text
  import opened Json
  import opened JsonRoundTrip

  predicate HtmlChar(c: char) {
    c == '&' || c == '<' || c == '>'
  }

  /** The escape `json.Marshal` writes for an HTML-sensitive character. */
  function Escaped(c: char): (p: string)
    requires HtmlChar(c)
    ensures |p| == 6 && p[0] == '\\' && p[1] == 'u' && p[2] == '0' && p[3] == '0'
    ensures forall i | 0 <= i < |p| :: p[i] != c
  {
    UnicodeEscape(c as int)
  }

  predicate NoBackslash(s: string) {
    forall i | 0 <= i < |s| :: s[i] != '\\'
  }

  // ---------------------------------------------------------------------
  // `strings.ReplaceAll` one position at a time
  // ---------------------------------------------------------------------

  /** No match at the front: the first character is kept. */
  lemma ReplaceCopy(t: string, p: string, r: string)
    requires p != [] && t != [] && !HasPrefix(t, p)
    ensures ReplaceAll(t, p, r) == [t[0]] + ReplaceAll(t[1..], p, r)
  {
    if |t| < |p| {
      assert [t[0]] + t[1..] == t;
    }
  }

  /** A match at the front is replaced. */
  lemma ReplaceMatch(t: string, p: string, r: string)
    requires p != [] && HasPrefix(t, p)
    ensures ReplaceAll(t, p, r) == r + ReplaceAll(t[|p|..], p, r)
  {
  }

  /** Text whose first character is not the pattern's has no match at the
      front. */
  lemma NoPrefixHead(s: string, w: string)
    requires w != [] && (s == [] || s[0] != w[0])
    ensures !HasPrefix(s, w)
  {
    if s != [] && |w| <= |s| {
      assert s[..|w|][0] == s[0];
    }
  }

  /** ... nor text whose second character is not the pattern's. */
  lemma NoPrefixSecond(s: string, w: string)
    requires |w| >= 2 && (|s| < 2 || s[1] != w[1])
    ensures !HasPrefix(s, w)
  {
    if |w| <= |s| {
      assert s[..|w|][1] == s[1];
    }
  }

  /** A character that starts no match, followed by `t`, is kept. */
  lemma CopyFirst(x: char, t: string, p: string, r: string)
    requires p != [] && !HasPrefix([x] + t, p)
    ensures ReplaceAll([x] + t, p, r) == [x] + ReplaceAll(t, p, r)
  {
    ReplaceCopy([x] + t, p, r);
    assert ([x] + t)[1..] == t;
  }

  lemma ConsAppend(a: string, u: string)
    requires a != []
    ensures [a[0]] + (a[1..] + u) == a + u
  {
    assert [a[0]] + a[1..] == a;
  }

  /** Text without a backslash cannot start a match of an escape. */
  lemma {:induction false} ReplacePeel(a: string, t: string, p: string, r: string)
    requires p != [] && p[0] == '\\' && NoBackslash(a)
    ensures ReplaceAll(a + t, p, r) == a + ReplaceAll(t, p, r)
    decreases |a|
  {
    if a == [] {
      assert a + t == t;
    } else {
      var u := a[1..] + t;
      ConsAppend(a, t);
      NoPrefixHead([a[0]] + u, p);
      CopyFirst(a[0], u, p, r);
      assert NoBackslash(a[1..]) by {
        forall i | 0 <= i < |a[1..]| ensures a[1..][i] != '\\' { assert a[1..][i] == a[i + 1]; }
      }
      ReplacePeel(a[1..], t, p, r);
      ConsAppend(a, ReplaceAll(t, p, r));
    }
  }

  // ---------------------------------------------------------------------
  // What any text looks like after the pass
  // ---------------------------------------------------------------------

  lemma ShortContains(s: string, w: string)
    requires |s| < |w|
    ensures !Contains(s, w)
    decreases |s|
  {
    if s != [] { ShortContains(s[1..], w); }
  }

  lemma {:induction false} ContainsSuffix(s: string, w: string, n: nat)
    requires n <= |s| && Contains(s[n..], w)
    ensures Contains(s, w)
    decreases n
  {
    if n > 0 {
      assert s[1..][n - 1..] == s[n..];
      ContainsSuffix(s[1..], w, n - 1);
    }
  }

  /** A replacement that is not part of `w` cannot begin a copy of `w`:
      whatever `w` the output starts with, the input started with. */
  lemma {:induction false} ReplacePrefix(t: string, p: string, x: char, w: string)
    requires p != [] && (forall i | 0 <= i < |w| :: w[i] != x)
    requires HasPrefix(ReplaceAll(t, p, [x]), w)
    ensures HasPrefix(t, w)
    decreases |t|
  {
    if w != [] && |t| >= |p| {
      if HasPrefix(t, p) {
        ReplaceMatch(t, p, [x]);
        PrefixHead(ReplaceAll(t, p, [x]), w);
        assert false;
      } else {
        ReplaceCopy(t, p, [x]);
        var u := ReplaceAll(t[1..], p, [x]);
        assert ReplaceAll(t, p, [x]) == [t[0]] + u;
        PrefixTail(t[0], u, w);
        ReplacePrefix(t[1..], p, x, w[1..]);
        PrefixCons(t[0], t[1..], w);
        assert [t[0]] + t[1..] == t;
      }
    }
  }

  lemma PrefixHead(s: string, w: string)
    requires w != [] && HasPrefix(s, w)
    ensures s[0] == w[0]
  {
    assert s[..|w|][0] == s[0];
  }

  lemma PrefixTail(c: char, u: string, w: string)
    requires w != [] && HasPrefix([c] + u, w)
    ensures c == w[0] && HasPrefix(u, w[1..])
  {
    assert ([c] + u)[..|w|] == [c] + u[..|w| - 1];
    assert w == [w[0]] + w[1..];
  }

  /** ... and so the pass creates no occurrence of such a `w`. */
  lemma {:induction false} ReplaceKeepsAbsent(t: string, p: string, x: char, w: string)
    requires p != [] && (forall i | 0 <= i < |w| :: w[i] != x)
    requires !Contains(t, w)
    ensures !Contains(ReplaceAll(t, p, [x]), w)
    decreases |t|
  {
    var out := ReplaceAll(t, p, [x]);
    if Contains(out, w) {
      if |t| < |p| {
      } else if HasPrefix(t, p) {
        ReplaceMatch(t, p, [x]);
        if HasPrefix(out, w) {
          ReplacePrefix(t, p, x, w);
        } else {
          assert out[1..] == ReplaceAll(t[|p|..], p, [x]);
          ContainsNotSuffix(t, w, |p|);
          ReplaceKeepsAbsent(t[|p|..], p, x, w);
        }
      } else {
        ReplaceCopy(t, p, [x]);
        if HasPrefix(out, w) {
          ReplacePrefix(t, p, x, w);
        } else {
          assert out[1..] == ReplaceAll(t[1..], p, [x]);
          ReplaceKeepsAbsent(t[1..], p, x, w);
        }
      }
    }
  }

  lemma ContainsNotSuffix(s: string, w: string, n: nat)
    requires n <= |s| && !Contains(s, w)
    ensures !Contains(s[n..], w)
  {
    if Contains(s[n..], w) { ContainsSuffix(s, w, n); }
  }

  /** After the pass no match of the pattern is left, provided the
      replacement is not a character of the pattern. */
  lemma {:induction false} ReplaceRemoves(t: string, p: string, x: char)
    requires p != [] && (forall i | 0 <= i < |p| :: p[i] != x)
    ensures !Contains(ReplaceAll(t, p, [x]), p)
    decreases |t|
  {
    var out := ReplaceAll(t, p, [x]);
    if |t| < |p| {
      ShortContains(t, p);
    } else if HasPrefix(t, p) {
      ReplaceMatch(t, p, [x]);
      assert out[0] == x;
      assert out[1..] == ReplaceAll(t[|p|..], p, [x]);
      ReplaceRemoves(t[|p|..], p, x);
    } else {
      ReplaceCopy(t, p, [x]);
      var u := ReplaceAll(t[1..], p, [x]);
      assert out[1..] == u;
      if HasPrefix(out, p) {
        PrefixTail(t[0], u, p);
        ReplacePrefix(t[1..], p, x, p[1..]);
        assert false;
      }
      ReplaceRemoves(t[1..], p, x);
    }
  }

  /** A final line break survives the pass when the pattern has none. */
  lemma {:induction false} ReplaceFinalNewline(a: string, p: string, r: string)
    requires p != [] && (forall i | 0 <= i < |p| :: p[i] != '\n')
    ensures ReplaceAll(a + "\n", p, r) == ReplaceAll(a, p, r) + "\n"
    decreases |a|
  {
    var t := a + "\n";
    if a == [] {
      assert t == "\n";
      if |t| >= |p| { ReplaceCopy(t, p, r); }
    } else if |t| < |p| {
    } else if HasPrefix(t, p) {
      assert t[|p| - 1] != '\n';
      assert |p| <= |a| && a[..|p|] == p by {
        assert t[..|p|] == a[..|p|];
      }
      assert t[|p|..] == a[|p|..] + "\n";
      ReplaceFinalNewline(a[|p|..], p, r);
    } else {
      assert t[1..] == a[1..] + "\n";
      ReplaceFinalNewline(a[1..], p, r);
      if |a| >= |p| {
        assert t[..|p|] == a[..|p|];
      } else {
        assert ReplaceAll(a[1..], p, r) == a[1..];
        assert [a[0]] + a[1..] == a;
      }
    }
  }

  // ---------------------------------------------------------------------
  // The pass over the encoder's string literals
  // ---------------------------------------------------------------------

  lemma PrefixCons(c: char, u: string, w: string)
    requires w != [] && c == w[0] && HasPrefix(u, w[1..])
    ensures HasPrefix([c] + u, w)
  {
    assert ([c] + u)[..|w|] == [c] + u[..|w| - 1];
    assert w == [w[0]] + w[1..];
  }

  /** A character is written either as itself or as an escape sequence. */
  lemma EscapeCharShape(x: char, e: Escaping)
    ensures var ch := EscapeChar(x, e);
      (ch == [x] && x != '\\' && x != '"') || (|ch| >= 2 && ch[0] == '\\')
  {
  }

  /** Escaped text followed by a closing quote starts with a run `w` of
      characters that need no escape only if the string itself does. */
  lemma {:induction false} EscapePrefix(s: string, e: Escaping, rest: string, w: string)
    requires NoBackslash(w) && (forall i | 0 <= i < |w| :: w[i] != '"')
    requires HasPrefix(Escape(s, e) + (['"'] + rest), w)
    ensures HasPrefix(s, w)
    decreases |w|
  {
    if w != [] {
      if s == [] {
        assert Escape(s, e) + (['"'] + rest) == ['"'] + rest;
        PrefixTail('"', rest, w);
      } else {
        var ch := EscapeChar(s[0], e);
        var t := Escape(s[1..], e) + (['"'] + rest);
        Assoc(ch, Escape(s[1..], e), ['"'] + rest);
        assert Escape(s, e) + (['"'] + rest) == ch + t;
        EscapeCharShape(s[0], e);
        PrefixHead(ch + t, w);
        assert ch == [s[0]];
        PrefixTail(s[0], t, w);
        EscapePrefix(s[1..], e, rest, w[1..]);
        PrefixCons(s[0], s[1..], w);
        assert [s[0]] + s[1..] == s;
      }
    }
  }

  /** An escape sequence other than that of `c` and of a backslash: a
      backslash and then no other. */
  lemma EscapeIsNotPattern(x: char, e: Escaping, c: char)
    requires HtmlChar(c) && x != c && x != '\\' && EscapeChar(x, e) != [x]
    ensures var ch := EscapeChar(x, e);
      ch[0] == '\\' && NoBackslash(ch[1..]) &&
      ((|ch| == 2 && ch[1] != 'u') || (|ch| == 6 && ch != Escaped(c)))
  {
    var ch := EscapeChar(x, e);
    var p := Escaped(c);
    if |ch| == 6 {
      assert ch == UnicodeEscape(x as int);
      HexDigits(x as int);
      HexDigits(c as int);
      if x as int < 0x20 {
        assert HexValue(ch[4]) < 2 <= HexValue(p[4]);
      } else if x as int >= 0x2028 {
        assert HexValue(ch[2]) == 2 && HexValue(p[2]) == 0;
      } else {
        assert HtmlChar(x);
      }
    }
  }

  /** Such a sequence is copied as it is. */
  lemma ChunkCopy(ch: string, t: string, p: string, r: string)
    requires |p| == 6 && p[0] == '\\' && p[1] == 'u'
    requires |ch| >= 2 && ch[0] == '\\' && NoBackslash(ch[1..])
    requires (|ch| == 2 && ch[1] != 'u') || (|ch| == 6 && ch != p)
    ensures ReplaceAll(ch + t, p, r) == ch + ReplaceAll(t, p, r)
  {
    var u := ch[1..] + t;
    ConsAppend(ch, t);
    if |ch| == 2 {
      assert (ch + t)[1] == ch[1];
      NoPrefixSecond(ch + t, p);
    } else {
      assert (ch + t)[..6] == ch;
    }
    CopyFirst(ch[0], u, p, r);
    ReplacePeel(ch[1..], t, p, r);
    ConsAppend(ch, ReplaceAll(t, p, r));
  }

  /** The escape of one character other than a backslash, under the pass. */
  lemma EscapeCharReplace(x: char, e: Escaping, c: char, t: string)
    requires HtmlChar(c) && x != '\\'
    ensures ReplaceAll(EscapeChar(x, e) + t, Escaped(c), [c])
         == EscapeChar(x, e.Without(c)) + ReplaceAll(t, Escaped(c), [c])
  {
    var p := Escaped(c);
    var ch := EscapeChar(x, e);
    EscapeCharShape(x, e);
    if x == c && e.Escapes(c) {
      assert ch == p;
      assert (ch + t)[..|p|] == p && (ch + t)[|p|..] == t;
      ReplaceMatch(ch + t, p, [c]);
    } else if ch == [x] {
      assert EscapeChar(x, e.Without(c)) == [x];
      ReplacePeel(ch, t, p, [c]);
    } else {
      assert EscapeChar(x, e.Without(c)) == ch;
      EscapeIsNotPattern(x, e, c);
      ChunkCopy(ch, t, p, [c]);
    }
  }

  /** After a written backslash, the escape of `c` starts only where the
      string itself starts with it. */
  lemma BackslashNoMatch(s: string, e: Escaping, c: char, rest: string)
    requires HtmlChar(c) && s != [] && s[0] == '\\'
    ensures HasPrefix(['\\'] + (Escape(s[1..], e) + (['"'] + rest)), Escaped(c)) ==> HasPrefix(s, Escaped(c))
  {
    var p := Escaped(c);
    var t := Escape(s[1..], e) + (['"'] + rest);
    if HasPrefix(['\\'] + t, p) {
      PrefixTail('\\', t, p);
      EscapePrefix(s[1..], e, rest, p[1..]);
      PrefixCons(s[0], s[1..], p);
      assert [s[0]] + s[1..] == s;
    }
  }

  /** A written backslash is copied: the escape of `c` could only start at
      its second half, and then the string would contain that escape. */
  lemma BackslashReplace(s: string, e: Escaping, c: char, rest: string)
    requires HtmlChar(c) && s != [] && s[0] == '\\' && !HasPrefix(s, Escaped(c))
    ensures var t := Escape(s[1..], e) + (['"'] + rest);
      ReplaceAll(['\\', '\\'] + t, Escaped(c), [c]) == ['\\', '\\'] + ReplaceAll(t, Escaped(c), [c])
  {
    var p := Escaped(c);
    var t := Escape(s[1..], e) + (['"'] + rest);
    var u := ['\\'] + t;
    assert ['\\', '\\'] + t == ['\\'] + u;
    NoPrefixSecond(['\\'] + u, p);
    CopyFirst('\\', u, p, [c]);
    BackslashNoMatch(s, e, c, rest);
    CopyFirst('\\', t, p, [c]);
    var r := ReplaceAll(t, p, [c]);
    assert ['\\'] + (['\\'] + r) == ['\\', '\\'] + r;
  }

  /** The pass over an escaped string and its closing quote turns off the
      escaping of `c`, provided the string does not already contain the
      escape of `c`: that is the case in which a written backslash could
      start a match. */
  lemma {:induction false} EscapeReplace(s: string, e: Escaping, c: char, rest: string)
    requires HtmlChar(c) && !Contains(s, Escaped(c))
    ensures ReplaceAll(Escape(s, e) + (['"'] + rest), Escaped(c), [c])
         == Escape(s, e.Without(c)) + (['"'] + ReplaceAll(rest, Escaped(c), [c]))
    decreases |s|
  {
    var p := Escaped(c);
    if s == [] {
      assert Escape(s, e) + (['"'] + rest) == ['"'] + rest;
      ReplacePeel(['"'], rest, p, [c]);
    } else {
      var x := s[0];
      var ch := EscapeChar(x, e);
      var t := Escape(s[1..], e) + (['"'] + rest);
      Assoc(ch, Escape(s[1..], e), ['"'] + rest);
      assert Escape(s, e) + (['"'] + rest) == ch + t;
      assert !Contains(s[1..], p);
      EscapeReplace(s[1..], e, c, rest);
      if x == '\\' {
        assert ch == ['\\', '\\'] == EscapeChar(x, e.Without(c));
        BackslashReplace(s, e, c, rest);
      } else {
        EscapeCharReplace(x, e, c, t);
      }
      Assoc(EscapeChar(x, e.Without(c)), Escape(s[1..], e.Without(c)), ['"'] + ReplaceAll(rest, p, [c]));
    }
  }

  // ---------------------------------------------------------------------
  // The pass over a whole printed value
  // ---------------------------------------------------------------------

  /** No string and no key of `v` contains `p`. */
  predicate Avoids(v: JValue, p: string) {
    match v
    case JString(s) => !Contains(s, p)
    case JArray(elems) => forall i | 0 <= i < |elems| :: Avoids(elems[i], p)
    case JObject(members) =>
      forall i | 0 <= i < |members| :: !Contains(members[i].key, p) && Avoids(members[i].value, p)
    case _ => true
  }

  lemma {:induction false} IndentationNoBackslash(unit: string, depth: nat)
    requires NoBackslash(unit)
    ensures NoBackslash(Indentation(unit, depth))
  {
    if depth > 0 { IndentationNoBackslash(unit, depth - 1); }
  }

  lemma NewlineNoBackslash(unit: string, depth: nat)
    requires NoBackslash(unit)
    ensures NoBackslash(Newline(unit, depth))
  {
    IndentationNoBackslash(unit, depth);
  }

  /** Scalars other than strings: no backslash, no escaping. */
  lemma ScalarReplace(v: JValue, unit: string, depth: nat, keys: Escaping, values: Escaping, c: char, rest: string)
    requires HtmlChar(c) && WellFormed(v) && (v.JNull? || v.JBool? || v.JNumber?)
    ensures ReplaceAll(Print(v, unit, depth, keys, values) + rest, Escaped(c), [c])
         == Print(v, unit, depth, keys.Without(c), values.Without(c)) + ReplaceAll(rest, Escaped(c), [c])
  {
    var text := Print(v, unit, depth, keys, values);
    assert NoBackslash(text) by {
      if v.JNumber? {
        var l := v.lexeme;
        if l != [] && l[0] == '-' {
          assert forall i | 1 <= i < |l| :: l[i] == l[1..][i - 1];
        }
      }
    }
    ReplacePeel(text, rest, Escaped(c), [c]);
  }

  lemma StringReplace(s: string, unit: string, depth: nat, keys: Escaping, values: Escaping, c: char, rest: string)
    requires HtmlChar(c) && !Contains(s, Escaped(c))
    ensures ReplaceAll(Print(JString(s), unit, depth, keys, values) + rest, Escaped(c), [c])
         == Print(JString(s), unit, depth, keys.Without(c), values.Without(c)) + ReplaceAll(rest, Escaped(c), [c])
  {
    QuoteReplace(s, values, c, rest);
  }

  lemma QuoteReplace(s: string, e: Escaping, c: char, rest: string)
    requires HtmlChar(c) && !Contains(s, Escaped(c))
    ensures ReplaceAll(Quote(s, e) + rest, Escaped(c), [c]) == Quote(s, e.Without(c)) + ReplaceAll(rest, Escaped(c), [c])
  {
    var p := Escaped(c);
    Assoc(['"'], Escape(s, e) + ['"'], rest);
    Assoc(Escape(s, e), ['"'], rest);
    ReplacePeel(['"'], Escape(s, e) + (['"'] + rest), p, [c]);
    EscapeReplace(s, e, c, rest);
    var r := ReplaceAll(rest, p, [c]);
    Assoc(['"'], Escape(s, e.Without(c)) + ['"'], r);
    Assoc(Escape(s, e.Without(c)), ['"'], r);
  }

  lemma {:induction false} PrintReplace(v: JValue, unit: string, depth: nat, keys: Escaping, values: Escaping, c: char, rest: string)
    requires HtmlChar(c) && WellFormed(v) && Avoids(v, Escaped(c)) && NoBackslash(unit)
    ensures ReplaceAll(Print(v, unit, depth, keys, values) + rest, Escaped(c), [c])
         == Print(v, unit, depth, keys.Without(c), values.Without(c)) + ReplaceAll(rest, Escaped(c), [c])
    decreases v, 2
  {
    match v
    case JString(s) => StringReplace(s, unit, depth, keys, values, c, rest);
    case JArray(_) => ArrayReplace(v, unit, depth, keys, values, c, rest);
    case JObject(_) => ObjectReplace(v, unit, depth, keys, values, c, rest);
    case _ => ScalarReplace(v, unit, depth, keys, values, c, rest);
  }

  lemma {:induction false} ArrayReplace(v: JValue, unit: string, depth: nat, keys: Escaping, values: Escaping, c: char, rest: string)
    requires HtmlChar(c) && v.JArray? && WellFormed(v) && Avoids(v, Escaped(c)) && NoBackslash(unit)
    ensures ReplaceAll(Print(v, unit, depth, keys, values) + rest, Escaped(c), [c])
         == Print(v, unit, depth, keys.Without(c), values.Without(c)) + ReplaceAll(rest, Escaped(c), [c])
    decreases v, 1
  {
    var xs := v.elems;
    if xs == [] {
      ReplacePeel("[]", rest, Escaped(c), [c]);
    } else {
      NewlineNoBackslash(unit, depth);
      ElementsReplace(xs, unit, depth + 1, values, c, Newline(unit, depth) + ("]" + rest));
      ArrayBrackets(xs, unit, depth, keys, values, c, rest);
    }
  }

  lemma ArrayBrackets(xs: seq<JValue>, unit: string, depth: nat, keys: Escaping, values: Escaping, c: char, rest: string)
    requires HtmlChar(c) && xs != [] && NoBackslash(Newline(unit, depth))
    requires var tail := Newline(unit, depth) + ("]" + rest);
      ReplaceAll(PrintElements(xs, unit, depth + 1, values) + tail, Escaped(c), [c])
      == PrintElements(xs, unit, depth + 1, values.Without(c)) + ReplaceAll(tail, Escaped(c), [c])
    ensures ReplaceAll(Print(JArray(xs), unit, depth, keys, values) + rest, Escaped(c), [c])
         == Print(JArray(xs), unit, depth, keys.Without(c), values.Without(c)) + ReplaceAll(rest, Escaped(c), [c])
  {
    ArrayShape(xs, unit, depth, keys, values);
    ArrayShape(xs, unit, depth, keys.Without(c), values.Without(c));
    BracketReplace("[", PrintElements(xs, unit, depth + 1, values),
      PrintElements(xs, unit, depth + 1, values.Without(c)), Newline(unit, depth), "]", rest, Escaped(c), [c]);
  }

  lemma ArrayShape(xs: seq<JValue>, unit: string, depth: nat, keys: Escaping, values: Escaping)
    requires xs != []
    ensures Print(JArray(xs), unit, depth, keys, values)
         == "[" + (PrintElements(xs, unit, depth + 1, values) + (Newline(unit, depth) + "]"))
  {
  }

  lemma {:induction false} ObjectReplace(v: JValue, unit: string, depth: nat, keys: Escaping, values: Escaping, c: char, rest: string)
    requires HtmlChar(c) && v.JObject? && WellFormed(v) && Avoids(v, Escaped(c)) && NoBackslash(unit)
    ensures ReplaceAll(Print(v, unit, depth, keys, values) + rest, Escaped(c), [c])
         == Print(v, unit, depth, keys.Without(c), values.Without(c)) + ReplaceAll(rest, Escaped(c), [c])
    decreases v, 1
  {
    var p := Escaped(c);
    var ms := v.members;
    if ms == [] {
      ReplacePeel("{}", rest, p, [c]);
    } else {
      var close := Newline(unit, depth);
      NewlineNoBackslash(unit, depth);
      MembersReplace(ms, unit, depth + 1, keys, values, c, close + ("}" + rest));
      ObjectBrackets(ms, unit, depth, keys, values, c, rest);
    }
  }

  lemma ObjectBrackets(ms: seq<Member>, unit: string, depth: nat, keys: Escaping, values: Escaping, c: char, rest: string)
    requires HtmlChar(c) && ms != [] && NoBackslash(Newline(unit, depth))
    requires var tail := Newline(unit, depth) + ("}" + rest);
      ReplaceAll(PrintMembers(ms, unit, depth + 1, keys, values) + tail, Escaped(c), [c])
      == PrintMembers(ms, unit, depth + 1, keys.Without(c), values.Without(c)) + ReplaceAll(tail, Escaped(c), [c])
    ensures ReplaceAll(Print(JObject(ms), unit, depth, keys, values) + rest, Escaped(c), [c])
         == Print(JObject(ms), unit, depth, keys.Without(c), values.Without(c)) + ReplaceAll(rest, Escaped(c), [c])
  {
    ObjectShape(ms, unit, depth, keys, values);
    ObjectShape(ms, unit, depth, keys.Without(c), values.Without(c));
    BracketReplace("{", PrintMembers(ms, unit, depth + 1, keys, values),
      PrintMembers(ms, unit, depth + 1, keys.Without(c), values.Without(c)), Newline(unit, depth), "}", rest, Escaped(c), [c]);
  }

  lemma ObjectShape(ms: seq<Member>, unit: string, depth: nat, keys: Escaping, values: Escaping)
    requires ms != []
    ensures Print(JObject(ms), unit, depth, keys, values)
         == "{" + (PrintMembers(ms, unit, depth + 1, keys, values) + (Newline(unit, depth) + "}"))
  {
  }

  /** A container's text under the pass, given its entries'. */
  lemma BracketReplace(open: string, entries: string, entries': string, close: string, closer: string, rest: string, p: string, r: string)
    requires p != [] && p[0] == '\\' && NoBackslash(open) && NoBackslash(close) && NoBackslash(closer)
    requires ReplaceAll(entries + (close + (closer + rest)), p, r) == entries' + ReplaceAll(close + (closer + rest), p, r)
    ensures ReplaceAll((open + (entries + (close + closer))) + rest, p, r)
         == (open + (entries' + (close + closer))) + ReplaceAll(rest, p, r)
  {
    ContainerShape(open, entries, close, closer, rest);
    ReplacePeel(open, entries + (close + (closer + rest)), p, r);
    Assoc(close, closer, rest);
    assert NoBackslash(close + closer);
    ReplacePeel(close + closer, rest, p, r);
    var t := ReplaceAll(rest, p, r);
    Assoc(close, closer, t);
    ContainerShape(open, entries', close, closer, t);
  }

  lemma {:induction false} ElementsReplace(xs: seq<JValue>, unit: string, depth: nat, values: Escaping, c: char, rest: string)
    requires HtmlChar(c) && xs != [] && NoBackslash(unit)
    requires forall i | 0 <= i < |xs| :: WellFormed(xs[i]) && Avoids(xs[i], Escaped(c))
    ensures ReplaceAll(PrintElements(xs, unit, depth, values) + rest, Escaped(c), [c])
         == PrintElements(xs, unit, depth, values.Without(c)) + ReplaceAll(rest, Escaped(c), [c])
    decreases xs, 0
  {
    var p := Escaped(c);
    var e' := values.Without(c);
    var r := ReplaceAll(rest, p, [c]);
    var line := Newline(unit, depth);
    NewlineNoBackslash(unit, depth);
    var head := Print(xs[0], unit, depth, values, values);
    var head' := Print(xs[0], unit, depth, e', e');
    var more := if |xs| == 1 then "" else "," + PrintElements(xs[1..], unit, depth, values);
    var more' := if |xs| == 1 then "" else "," + PrintElements(xs[1..], unit, depth, e');
    Assoc(line, head + more, rest);
    Assoc(head, more, rest);
    ReplacePeel(line, head + (more + rest), p, [c]);
    PrintReplace(xs[0], unit, depth, values, values, c, more + rest);
    if |xs| == 1 {
      assert more + rest == rest && more' + r == r;
    } else {
      var tail := PrintElements(xs[1..], unit, depth, values);
      Assoc(",", tail, rest);
      ReplacePeel(",", tail + rest, p, [c]);
      ElementsReplace(xs[1..], unit, depth, values, c, rest);
      Assoc(",", PrintElements(xs[1..], unit, depth, e'), r);
    }
    Assoc(line, head' + more', r);
    Assoc(head', more', r);
  }

  /** A member's indentation, key and colon under the pass. */
  lemma MemberHeadReplace(key: string, unit: string, depth: nat, keys: Escaping, c: char, after: string)
    requires HtmlChar(c) && NoBackslash(unit) && !Contains(key, Escaped(c))
    ensures ReplaceAll(Newline(unit, depth) + (Quote(key, keys) + (": " + after)), Escaped(c), [c])
         == Newline(unit, depth) + (Quote(key, keys.Without(c)) + (": " + ReplaceAll(after, Escaped(c), [c])))
  {
    var p := Escaped(c);
    NewlineNoBackslash(unit, depth);
    ReplacePeel(Newline(unit, depth), Quote(key, keys) + (": " + after), p, [c]);
    QuoteReplace(key, keys, c, ": " + after);
    ReplacePeel(": ", after, p, [c]);
  }

  /** The comma and the entries after the first under the pass, given the
      entries'. */
  lemma MoreReplace(tail: string, tail': string, rest: string, p: string, r: string)
    requires p != [] && p[0] == '\\'
    requires ReplaceAll(tail + rest, p, r) == tail' + ReplaceAll(rest, p, r)
    ensures ReplaceAll(("," + tail) + rest, p, r) == ("," + tail') + ReplaceAll(rest, p, r)
  {
    Assoc(",", tail, rest);
    ReplacePeel(",", tail + rest, p, r);
    Assoc(",", tail', ReplaceAll(rest, p, r));
  }

  lemma {:induction false} MembersReplace(ms: seq<Member>, unit: string, depth: nat, keys: Escaping, values: Escaping, c: char, rest: string)
    requires HtmlChar(c) && ms != [] && NoBackslash(unit)
    requires forall i | 0 <= i < |ms| ::
      !Contains(ms[i].key, Escaped(c)) && WellFormed(ms[i].value) && Avoids(ms[i].value, Escaped(c))
    ensures ReplaceAll(PrintMembers(ms, unit, depth, keys, values) + rest, Escaped(c), [c])
         == PrintMembers(ms, unit, depth, keys.Without(c), values.Without(c)) + ReplaceAll(rest, Escaped(c), [c])
    decreases ms, 0
  {
    var p := Escaped(c);
    var k' := keys.Without(c);
    var e' := values.Without(c);
    var r := ReplaceAll(rest, p, [c]);
    var line := Newline(unit, depth);
    var key := Quote(ms[0].key, keys);
    var key' := Quote(ms[0].key, k');
    var head := Print(ms[0].value, unit, depth, values, values);
    var head' := Print(ms[0].value, unit, depth, e', e');
    var more := if |ms| == 1 then "" else "," + PrintMembers(ms[1..], unit, depth, keys, values);
    var more' := if |ms| == 1 then "" else "," + PrintMembers(ms[1..], unit, depth, k', e');
    MemberLine(line, key, head, more, rest);
    MemberHeadReplace(ms[0].key, unit, depth, keys, c, head + (more + rest));
    PrintReplace(ms[0].value, unit, depth, values, values, c, more + rest);
    if |ms| == 1 {
      assert more + rest == rest && more' + r == r;
    } else {
      MembersReplace(ms[1..], unit, depth, keys, values, c, rest);
      MoreReplace(PrintMembers(ms[1..], unit, depth, keys, values), PrintMembers(ms[1..], unit, depth, k', e'), rest, p, [c]);
    }
    MemberLine(line, key', head', more', r);
  }

  lemma MemberLine(line: string, key: string, head: string, more: string, rest: string)
    ensures (line + (key + (": " + (head + more)))) + rest == line + (key + (": " + (head + (more + rest))))
  {
    Assoc(line, key + (": " + (head + more)), rest);
    Assoc(key, ": " + (head + more), rest);
    Assoc(": ", head + more, rest);
    Assoc(head, more, rest);
  }

  // ---------------------------------------------------------------------
  // The three passes of `ToJSON`
  // ---------------------------------------------------------------------

  /** The `&`, `<` and `>` passes, in that order. */
  function Unescape(text: string): string {
    ReplaceAll(ReplaceAll(ReplaceAll(text, Escaped('&'), "&"), Escaped('<'), "<"), Escaped('>'), ">")
  }

  /** No string or key of `v` already contains one of the three escapes. */
  predicate Safe(v: JValue) {
    Avoids(v, Escaped('&')) && Avoids(v, Escaped('<')) && Avoids(v, Escaped('>'))
  }

  /** None of the three escapes is left, whatever the text. */
  lemma UnescapeRemoves(text: string)
    ensures !Contains(Unescape(text), Escaped('&'))
    ensures !Contains(Unescape(text), Escaped('<'))
    ensures !Contains(Unescape(text), Escaped('>'))
  {
    var t1 := ReplaceAll(text, Escaped('&'), "&");
    var t2 := ReplaceAll(t1, Escaped('<'), "<");
    ReplaceRemoves(text, Escaped('&'), '&');
    ReplaceKeepsAbsent(t1, Escaped('<'), '<', Escaped('&'));
    ReplaceKeepsAbsent(t2, Escaped('>'), '>', Escaped('&'));
    ReplaceRemoves(t1, Escaped('<'), '<');
    ReplaceKeepsAbsent(t2, Escaped('>'), '>', Escaped('<'));
    ReplaceRemoves(t2, Escaped('>'), '>');
  }

  /** The encoder's final line break is kept. */
  lemma UnescapeFinalNewline(a: string)
    ensures Unescape(a + "\n") == Unescape(a) + "\n"
  {
    var t1 := ReplaceAll(a, Escaped('&'), "&");
    var t2 := ReplaceAll(t1, Escaped('<'), "<");
    ReplaceFinalNewline(a, Escaped('&'), "&");
    ReplaceFinalNewline(t1, Escaped('<'), "<");
    ReplaceFinalNewline(t2, Escaped('>'), ">");
  }

  /** On a value none of whose strings contains an escape already, the
      passes turn the HTML-escaped text of its members' values into the
      unescaped text. */
  lemma UnescapePrinted(v: JValue, unit: string)
    requires WellFormed(v) && Safe(v) && NoBackslash(unit)
    ensures Unescape(Print(v, unit, 0, NoHtmlEscaping, HtmlEscaping) + "\n")
         == Print(v, unit, 0, NoHtmlEscaping, NoHtmlEscaping) + "\n"
  {
    var e1 := HtmlEscaping.Without('&');
    var e2 := e1.Without('<');
    assert e2.Without('>') == NoHtmlEscaping;
    assert NoHtmlEscaping.Without('&') == NoHtmlEscaping.Without('<') == NoHtmlEscaping.Without('>') == NoHtmlEscaping;
    var nl := "\n";
    var p1 := Escaped('&');
    var p2 := Escaped('<');
    var p3 := Escaped('>');
    ReplacePeel(nl, [], p1, "&");
    ReplacePeel(nl, [], p2, "<");
    ReplacePeel(nl, [], p3, ">");
    assert nl + [] == nl;
    PrintReplace(v, unit, 0, NoHtmlEscaping, HtmlEscaping, '&', nl);
    PrintReplace(v, unit, 0, NoHtmlEscaping, e1, '<', nl);
    PrintReplace(v, unit, 0, NoHtmlEscaping, e2, '>', nl);
  }

  // ---------------------------------------------------------------------
  // A string that already holds the text of an escape
  // ---------------------------------------------------------------------

  /** The literal the post-pass makes of a string whose content is the six
      characters of the escape of `&`. */
  const CorruptedLiteral: string := ['"', '\\', '&', '"']

  lemma QuoteOfEscapeText()
    ensures Quote(Escaped('&'), HtmlEscaping) == ['"', '\\'] + Escaped('&') + ['"']
  {
    var p := Escaped('&');
    assert p[1..] == ['u', '0', '0', '2', '6'];
    assert Escape(p, HtmlEscaping) == ['\\', '\\'] + p[1..];
  }

  lemma ReplaceInQuotedEscape()
    ensures ReplaceAll(['"', '\\'] + Escaped('&') + ['"'], Escaped('&'), "&") == CorruptedLiteral
  {
    var p := Escaped('&');
    var q := ['"', '\\'] + p + ['"'];
    ReplaceCopy(q, p, "&");
    ReplaceCopy(q[1..], p, "&");
    assert q[2..] == p + ['"'];
    ReplaceMatch(q[2..], p, "&");
    assert q[2..][|p|..] == ['"'];
  }

  /** The pass over the quoted escape text leaves the corrupted literal. */
  lemma UnescapeQuotedEscape()
    ensures Unescape(Quote(Escaped('&'), HtmlEscaping)) == CorruptedLiteral
  {
    QuoteOfEscapeText();
    ReplaceInQuotedEscape();
    assert ReplaceAll(CorruptedLiteral, Escaped('<'), "<") == CorruptedLiteral;
    assert ReplaceAll(CorruptedLiteral, Escaped('>'), ">") == CorruptedLiteral;
  }

  /** A backslash followed by an ampersand is no escape sequence of JSON. */
  lemma CorruptedLiteralInvalid()
    ensures Parse(CorruptedLiteral) == None
  {
  }

  /** The encoder escapes the backslash of such a string, and the post-pass
      then matches the escape that starts at the second backslash: the
      literal left behind holds the escape sequence backslash-ampersand,
      which is not JSON. */
  lemma EscapeTextCorrupted()
    ensures Unescape(Quote(Escaped('&'), HtmlEscaping)) == CorruptedLiteral
    ensures Parse(CorruptedLiteral) == None
  {
    UnescapeQuotedEscape();
    CorruptedLiteralInvalid();
  }
}
