/** The parts of Go's `strings` package the validator relies on, and the
    byte-wise string order `encoding/json` sorts map keys by. */
module Text {

  predicate HasPrefix(s: string, prefix: string) {
    |prefix| <= |s| && s[..|prefix|] == prefix
  }

  /** Whether `pattern` occurs anywhere in `s`. */
  predicate Contains(s: string, pattern: string)
    decreases |s|
  {
    HasPrefix(s, pattern) || (s != [] && Contains(s[1..], pattern))
  }

  /** `strings.TrimPrefix`. */
  function TrimPrefix(s: string, prefix: string): (r: string)
    ensures HasPrefix(s, prefix) ==> s == prefix + r
    ensures !HasPrefix(s, prefix) ==> r == s
  {
    if HasPrefix(s, prefix) then s[|prefix|..] else s
  }

  /** `strings.ReplaceAll(s, old, new)`: leftmost, non-overlapping
      replacement; an empty `old` matches before every character and at
      the end. */
  function ReplaceAll(s: string, pattern: string, replacement: string): string
    decreases |s|
  {
    if pattern == [] then replacement + (if s == [] then [] else [s[0]] + ReplaceAll(s[1..], pattern, replacement))
    else if |s| < |pattern| then s
    else if s[..|pattern|] == pattern then replacement + ReplaceAll(s[|pattern|..], pattern, replacement)
    else [s[0]] + ReplaceAll(s[1..], pattern, replacement)
  }

  /** `strings.ToLower` restricted to ASCII letters. */
  function LowerChar(c: char): char {
    if 'A' <= c <= 'Z' then (c as int + 32) as char else c
  }

  function ToLower(s: string): (r: string)
    ensures |r| == |s| && forall i | 0 <= i < |s| :: r[i] == LowerChar(s[i])
  {
    if s == [] then [] else [LowerChar(s[0])] + ToLower(s[1..])
  }

  function UpperChar(c: char): char {
    if 'a' <= c <= 'z' then (c as int - 32) as char else c
  }

  /** ASCII case-insensitive equality, the way `encoding/json` matches an
      object key to a struct field when there is no exact match. */
  predicate FoldEq(a: string, b: string) {
    |a| == |b| && (|a| == 0 || (UpperChar(a[0]) == UpperChar(b[0]) && FoldEq(a[1..], b[1..])))
  }

  lemma {:induction false} FoldEqRefl(a: string)
    ensures FoldEq(a, a)
  {
    if a != [] { FoldEqRefl(a[1..]); }
  }

  /** Byte-wise (here: code-point-wise) string order, the order Go's
      `sort.Strings` and `encoding/json`'s map encoding use. */
  predicate Less(a: string, b: string) {
    if |a| == 0 then |b| > 0
    else if |b| == 0 then false
    else if a[0] != b[0] then a[0] < b[0]
    else Less(a[1..], b[1..])
  }

  lemma {:induction false} LessTotal(a: string, b: string)
    ensures a == b || Less(a, b) || Less(b, a)
    ensures !(Less(a, b) && Less(b, a))
    ensures !Less(a, a)
  {
    if |a| > 0 && |b| > 0 && a[0] == b[0] {
      LessTotal(a[1..], b[1..]);
      if a[1..] == b[1..] {
        assert a == [a[0]] + a[1..];
        assert b == [b[0]] + b[1..];
      }
    } else if |a| > 0 {
      LessTotal(a[1..], a[1..]);
    }
  }

  lemma {:induction false} LessTrans(a: string, b: string, c: string)
    requires Less(a, b) && Less(b, c)
    ensures Less(a, c)
  {
    if |a| > 0 && |b| > 0 && |c| > 0 && a[0] == b[0] && b[0] == c[0] {
      LessTrans(a[1..], b[1..], c[1..]);
    }
  }

  predicate IsLeast(k: string, keys: set<string>) {
    k in keys && forall j | j in keys :: j == k || Less(k, j)
  }

  lemma {:induction false} LeastExists(keys: set<string>)
    requires keys != {}
    ensures exists k :: IsLeast(k, keys)
    decreases |keys|
  {
    var x :| x in keys;
    if keys == {x} {
      assert IsLeast(x, keys);
    } else {
      LeastExists(keys - {x});
      var m :| IsLeast(m, keys - {x});
      LessTotal(m, x);
      if Less(m, x) {
        assert IsLeast(m, keys);
      } else {
        forall j | j in keys ensures j == x || Less(x, j) {
          if j != x {
            LessTotal(x, j);
            if j != m { LessTrans(x, m, j); }
          }
        }
        assert IsLeast(x, keys);
      }
    }
  }

  lemma LeastUnique(keys: set<string>)
    ensures forall k, k' | IsLeast(k, keys) && IsLeast(k', keys) :: k == k'
  {
    forall k, k' | IsLeast(k, keys) && IsLeast(k', keys) ensures k == k' {
      LessTotal(k, k');
    }
  }

  predicate StrictlySorted(ks: seq<string>) {
    forall i, j | 0 <= i < j < |ks| :: Less(ks[i], ks[j])
  }

  /** The keys of a map in increasing order: the order `encoding/json`
      writes map entries in. */
  function SortedKeys<V>(m: map<string, V>): (ks: seq<string>)
    ensures |ks| == |m| && (forall k :: k in ks <==> k in m)
    ensures StrictlySorted(ks)
    decreases |m|
  {
    if |m| == 0 then []
    else
      LeastExists(m.Keys);
      LeastUnique(m.Keys);
      var k :| IsLeast(k, m.Keys);
      var rest := SortedKeys(m - {k});
      assert forall j | j in rest :: Less(k, j);
      [k] + rest
  }

  /** The order depends on the keys alone. */
  lemma {:induction false} SortedKeysOfKeys<V>(m: map<string, V>, m': map<string, V>)
    requires m.Keys == m'.Keys
    ensures SortedKeys(m) == SortedKeys(m')
    decreases |m|
  {
    assert |m| == |m.Keys| == |m'.Keys| == |m'|;
    if |m| != 0 {
      LeastExists(m.Keys);
      LeastUnique(m.Keys);
      var k :| IsLeast(k, m.Keys);
      assert (m - {k}).Keys == (m' - {k}).Keys;
      SortedKeysOfKeys(m - {k}, m' - {k});
    }
  }

  /** A strictly sorted sequence has no repeated entry. */
  lemma SortedDistinct(ks: seq<string>)
    requires StrictlySorted(ks)
    ensures forall i, j | 0 <= i < j < |ks| :: ks[i] != ks[j]
  {
    forall i, j | 0 <= i < j < |ks| ensures ks[i] != ks[j] {
      LessTotal(ks[i], ks[j]);
    }
  }
}
