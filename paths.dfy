/** The parts of Go's `path/filepath` the validator calls, for Unix paths
    (separator `/`, no volume names). */
module Paths {

  /** The pieces of `p` between slashes, empty ones included. */
  function Split(p: string): (parts: seq<string>)
    ensures |parts| > 0
    ensures forall i | 0 <= i < |parts| :: '/' !in parts[i]
    decreases |p|
  {
    if p == [] then [""]
    else
      var rest := Split(p[1..]);
      if p[0] == '/' then [""] + rest else [[p[0]] + rest[0]] + rest[1..]
  }

  /** The pieces joined with slashes. */
  function JoinSlash(parts: seq<string>): string
    decreases |parts|
  {
    if parts == [] then ""
    else if |parts| == 1 then parts[0]
    else parts[0] + "/" + JoinSlash(parts[1..])
  }

  /** One piece of the path applied to the cleaned pieces so far: empty
      pieces and `.` vanish, `..` removes the piece before it, or is kept
      at the start of a relative path and dropped at the root. */
  function Resolve(stack: seq<string>, part: string, rooted: bool): seq<string> {
    if part == "" || part == "." then stack
    else if part == ".." then
      if |stack| > 0 && stack[|stack| - 1] != ".." then stack[..|stack| - 1]
      else if rooted then stack
      else stack + [".."]
    else stack + [part]
  }

  function ResolveAll(stack: seq<string>, parts: seq<string>, rooted: bool): seq<string>
    decreases |parts|
  {
    if parts == [] then stack else ResolveAll(Resolve(stack, parts[0], rooted), parts[1..], rooted)
  }

  /** `filepath.Clean`: the shortest path naming the same file by purely
      lexical processing; `.` for the empty result. */
  function Clean(p: string): (r: string)
    ensures r != ""
  {
    var rooted := p != [] && p[0] == '/';
    var cleaned := (if rooted then "/" else "") + JoinSlash(ResolveAll([], Split(p), rooted));
    if cleaned == "" then "." else cleaned
  }

  /** A path element that survives cleaning as it is. */
  predicate Plain(part: string) {
    part != "" && part != "." && part != ".." && '/' !in part
  }

  /** The elements of a clean path: plain ones, after a run of `..` when
      the path is relative. */
  predicate Normal(stack: seq<string>, rooted: bool) {
    (forall i | 0 <= i < |stack| :: Plain(stack[i]) || (!rooted && stack[i] == ".."))
    && (forall i, j | 0 <= i < j < |stack| && stack[j] == ".." :: stack[i] == "..")
  }

  /** A clean path written out from its elements. */
  function Render(stack: seq<string>, rooted: bool): string {
    if stack == [] then (if rooted then "/" else ".")
    else (if rooted then "/" else "") + JoinSlash(stack)
  }

  lemma {:induction false} SplitJoin(p: string)
    ensures JoinSlash(Split(p)) == p
    decreases |p|
  {
    if p != [] {
      var rest := Split(p[1..]);
      SplitJoin(p[1..]);
      if p[0] == '/' {
        assert JoinSlash([""] + rest) == "" + "/" + JoinSlash(rest);
      } else if |rest| == 1 {
        assert JoinSlash([[p[0]] + rest[0]]) == [p[0]] + rest[0];
      } else {
        var parts := [[p[0]] + rest[0]] + rest[1..];
        assert parts[1..] == rest[1..];
        assert JoinSlash(rest) == rest[0] + "/" + JoinSlash(rest[1..]);
      }
    }
  }

  lemma {:induction false} SplitPlain(a: string)
    requires '/' !in a
    ensures Split(a) == [a]
    decreases |a|
  {
    if a != [] {
      SplitPlain(a[1..]);
      assert [a[0]] + a[1..] == a;
    }
  }

  lemma {:induction false} SplitSlash(a: string, b: string)
    requires '/' !in a
    ensures Split(a + "/" + b) == [a] + Split(b)
    decreases |a|
  {
    var p := a + "/" + b;
    if a == [] {
      assert p[1..] == b;
    } else {
      assert p[1..] == a[1..] + "/" + b;
      SplitSlash(a[1..], b);
      assert [a[0]] + a[1..] == a;
    }
  }

  lemma {:induction false} JoinSplit(s: seq<string>)
    requires |s| > 0 && forall i | 0 <= i < |s| :: '/' !in s[i]
    ensures Split(JoinSlash(s)) == s
    decreases |s|
  {
    if |s| == 1 {
      SplitPlain(s[0]);
    } else {
      JoinSplit(s[1..]);
      SplitSlash(s[0], JoinSlash(s[1..]));
    }
  }

  lemma {:induction false} JoinSnoc(s: seq<string>, x: string)
    requires |s| > 0
    ensures JoinSlash(s + [x]) == JoinSlash(s) + "/" + x
    decreases |s|
  {
    if |s| == 1 {
      assert (s + [x])[1..] == [x];
    } else {
      assert (s + [x])[1..] == s[1..] + [x];
      JoinSnoc(s[1..], x);
    }
  }

  lemma ResolveNormal(stack: seq<string>, part: string, rooted: bool)
    requires Normal(stack, rooted) && '/' !in part
    ensures Normal(Resolve(stack, part, rooted), rooted)
  {
    if part == ".." && !(|stack| > 0 && stack[|stack| - 1] != "..") && !rooted {
      var t := stack + [".."];
      forall i, j | 0 <= i < j < |t| && t[j] == ".." ensures t[i] == ".." {
        if j == |stack| && i < |stack| - 1 {
          assert stack[|stack| - 1] == "..";
        }
      }
    }
  }

  lemma {:induction false} ResolveAllNormal(stack: seq<string>, parts: seq<string>, rooted: bool)
    requires Normal(stack, rooted) && forall i | 0 <= i < |parts| :: '/' !in parts[i]
    ensures Normal(ResolveAll(stack, parts, rooted), rooted)
    decreases |parts|
  {
    if parts != [] {
      ResolveNormal(stack, parts[0], rooted);
      ResolveAllNormal(Resolve(stack, parts[0], rooted), parts[1..], rooted);
    }
  }

  /** The elements of a clean path resolve to themselves. */
  lemma {:induction false} ResolveAllKeeps(acc: seq<string>, s: seq<string>, rooted: bool)
    requires Normal(acc + s, rooted)
    ensures ResolveAll(acc, s, rooted) == acc + s
    decreases |s|
  {
    if s != [] {
      var t := acc + s;
      assert t[|acc|] == s[0];
      if s[0] == ".." && |acc| > 0 {
        assert t[|acc| - 1] == "..";
      }
      assert Resolve(acc, s[0], rooted) == acc + [s[0]];
      assert (acc + [s[0]]) + s[1..] == t;
      ResolveAllKeeps(acc + [s[0]], s[1..], rooted);
    }
  }

  lemma {:induction false} ResolveAllEmpty(stack: seq<string>, parts: seq<string>, rooted: bool)
    requires forall i | 0 <= i < |parts| :: parts[i] == ""
    ensures ResolveAll(stack, parts, rooted) == stack
    decreases |parts|
  {
    if parts != [] {
      ResolveAllEmpty(stack, parts[1..], rooted);
    }
  }

  lemma {:induction false} SplitSlashes(p: string)
    requires forall i | 0 <= i < |p| :: p[i] == '/'
    ensures forall i | 0 <= i < |Split(p)| :: Split(p)[i] == ""
    decreases |p|
  {
    if p != [] {
      SplitSlashes(p[1..]);
    }
  }

  /** A path of slashes only cleans to the root. */
  lemma CleanSlashes(p: string)
    requires p != [] && forall i | 0 <= i < |p| :: p[i] == '/'
    ensures Clean(p) == "/"
  {
    SplitSlashes(p);
    ResolveAllEmpty([], Split(p), true);
  }

  /** `Clean` writes out the elements of a clean path: no empty or `.`
      element, and `..` only in a leading run of a relative path. */
  lemma CleanNormalForm(p: string)
    ensures var rooted := p != [] && p[0] == '/';
            var stack := ResolveAll([], Split(p), rooted);
            Normal(stack, rooted) && Clean(p) == Render(stack, rooted)
  {
    var rooted := p != [] && p[0] == '/';
    ResolveAllNormal([], Split(p), rooted);
  }

  /** A path written out from clean elements is its own `Clean`. */
  lemma CleanOfRender(stack: seq<string>, rooted: bool)
    requires Normal(stack, rooted)
    ensures Clean(Render(stack, rooted)) == Render(stack, rooted)
  {
    var p := Render(stack, rooted);
    JoinSplitClean(stack);
    if stack == [] {
      CleanRootAndDot();
    } else if rooted {
      SplitSlash("", JoinSlash(stack));
      assert "" + "/" + JoinSlash(stack) == p;
      assert Split(p)[1..] == stack;
      ResolveAllKeeps([], stack, true);
      CleanFromParts(p, stack, true);
    } else {
      assert p == JoinSlash(stack) && Split(p) == stack;
      assert p != [] && p[0] != '/';
      ResolveAllKeeps([], stack, false);
      CleanFromParts(p, stack, false);
    }
  }

  /** `JoinSplit` for the elements of a clean path. */
  lemma JoinSplitClean(stack: seq<string>)
    requires Normal(stack, true) || Normal(stack, false)
    ensures stack != [] ==> Split(JoinSlash(stack)) == stack
  {
    if stack != [] {
      JoinSplit(stack);
    }
  }

  lemma CleanRootAndDot()
    ensures Clean("/") == "/" && Clean(".") == "."
  {
    SplitShort();
  }

  /** `Clean` is the rendering of what the pieces resolve to. */
  lemma CleanFromParts(p: string, stack: seq<string>, rooted: bool)
    requires rooted == (p != [] && p[0] == '/')
    requires ResolveAll([], Split(p), rooted) == stack
    ensures Clean(p) == Render(stack, rooted)
  {
    CleanNormalForm(p);
  }

  /** Cleaning is idempotent. */
  lemma CleanIdempotent(p: string)
    ensures Clean(Clean(p)) == Clean(p)
  {
    CleanNormalForm(p);
    CleanOfRender(ResolveAll([], Split(p), p != [] && p[0] == '/'), p != [] && p[0] == '/');
  }

  /** A path none of whose elements is empty, `.` or `..` (but for the
      empty one before a leading slash) is its own `Clean`. */
  lemma CleanPlainPath(p: string)
    requires p != []
    requires forall i | 0 <= i < |Split(p)| :: Plain(Split(p)[i]) || (i == 0 && p[0] == '/')
    ensures Clean(p) == p
  {
    var rooted := p[0] == '/';
    var stack := if rooted then Split(p[1..]) else Split(p);
    PlainPieces(p);
    SplitJoin(if rooted then p[1..] else p);
    assert [] + stack == stack;
    if rooted {
      assert "/" + p[1..] == p;
    }
    assert Render(stack, rooted) == p;
    CleanOfRender(stack, rooted);
  }

  /** The elements of such a path, without the empty one before a leading
      slash, are clean ones. */
  lemma PlainPieces(p: string)
    requires p != []
    requires forall i | 0 <= i < |Split(p)| :: Plain(Split(p)[i]) || (i == 0 && p[0] == '/')
    ensures p[0] == '/' ==> Split(p) == [""] + Split(p[1..]) && Normal([] + Split(p[1..]), true)
    ensures p[0] != '/' ==> Normal([] + Split(p), false)
  {
    var parts := Split(p);
    if p[0] == '/' {
      var rest := Split(p[1..]);
      assert parts == [""] + rest;
      forall i | 0 <= i < |rest| ensures Plain(rest[i]) { assert parts[i + 1] == rest[i]; }
      assert [] + rest == rest;
    } else {
      assert [] + parts == parts;
    }
  }

  /** The part of `p` after its last slash (all of it when it has none). */
  function LastPiece(p: string): (r: string)
    ensures '/' !in r && |r| <= |p| && p[|p| - |r|..] == r
    ensures |r| < |p| ==> p[|p| - |r| - 1] == '/'
    decreases |p|
  {
    if p == [] || p[|p| - 1] == '/' then [] else LastPiece(p[..|p| - 1]) + [p[|p| - 1]]
  }

  /** `p` with its trailing slashes removed. */
  function TrimTrailingSlashes(p: string): (r: string)
    ensures |r| <= |p| && p[..|r|] == r && (r == [] || r[|r| - 1] != '/')
    ensures forall i | |r| <= i < |p| :: p[i] == '/'
    decreases |p|
  {
    if p != [] && p[|p| - 1] == '/' then TrimTrailingSlashes(p[..|p| - 1]) else p
  }

  /** `filepath.Base`: the last element, trailing slashes ignored; `.` for
      the empty path and `/` for a path of slashes only. */
  function Base(p: string): (r: string)
    ensures r != [] && (r == "/" || '/' !in r)
    ensures p == [] ==> r == "."
    ensures r == "/" <==> p != [] && forall i | 0 <= i < |p| :: p[i] == '/'
    ensures p != [] && r != "/" ==>
              var t := TrimTrailingSlashes(p);
              |r| <= |t| && t[|t| - |r|..] == r && (|r| < |t| ==> t[|t| - |r| - 1] == '/')
  {
    if p == [] then "."
    else
      var last := LastPiece(TrimTrailingSlashes(p));
      if last == [] then "/" else last
  }

  /** `filepath.Dir`: everything up to the last slash, cleaned; `.` for a
      path without a slash and `/` for a path of slashes only. */
  function Dir(p: string): (r: string)
    ensures r != ""
    ensures '/' !in p ==> r == "."
    ensures p != [] && (forall i | 0 <= i < |p| :: p[i] == '/') ==> r == "/"
  {
    var d := p[..|p| - |LastPiece(p)|];
    if '/' !in p then
      assert d == [];
      Clean(d)
    else if forall i | 0 <= i < |p| :: p[i] == '/' then
      assert d == p;
      CleanSlashes(p);
      Clean(d)
    else
      Clean(d)
  }

  /** A plain name in the directory of `p`. */
  lemma JoinDir(p: string, name: string)
    requires Plain(name)
    ensures Join(Dir(p), name) == if Dir(p) == "." then name else if Dir(p) == "/" then "/" + name else Dir(p) + "/" + name
  {
    DirClean(p);
    JoinClean(Dir(p), name);
  }

  /** `root.json` in the directory of `p`. */
  lemma JoinDirRoot(p: string)
    ensures '/' !in p ==> Join(Dir(p), "root.json") == "root.json"
    ensures Join(Dir(p), "root.json") == if Dir(p) == "." then "root.json"
                                         else if Dir(p) == "/" then "/root.json"
                                         else Dir(p) + "/root.json"
  {
    JoinDir(p, "root.json");
    assert "/" + "root.json" == "/root.json";
  }

  /** What `Dir` gives is already clean. */
  lemma DirClean(p: string)
    ensures Clean(Dir(p)) == Dir(p)
  {
    CleanIdempotent(p[..|p| - |LastPiece(p)|]);
  }

  /** `filepath.Join(dir, name)` with a directory and a name that are not
      empty, as the validator calls it. */
  function Join(dir: string, name: string): (r: string)
    ensures r != ""
  {
    Clean(dir + "/" + name)
  }

  /** Joining a clean directory and a plain name adds the name as one more
      element: the name alone beside `.`, after the slash beside `/`, and
      after a slash otherwise. */
  lemma JoinClean(dir: string, name: string)
    requires Clean(dir) == dir && Plain(name)
    ensures Join(dir, name) == if dir == "." then name else if dir == "/" then "/" + name else dir + "/" + name
  {
    var rooted := dir != [] && dir[0] == '/';
    var stack := ResolveAll([], Split(dir), rooted);
    CleanNormalForm(dir);
    if stack == [] {
      if rooted {
        assert dir == "/";
        CleanRootName(name);
      } else {
        assert dir == ".";
        CleanDotName(name);
      }
    } else {
      RenderNotSpecial(stack, rooted);
      CleanAppend(stack, rooted, name);
    }
  }

  /** A plain name after a clean path of at least one element. */
  lemma CleanAppend(stack: seq<string>, rooted: bool, name: string)
    requires Normal(stack, rooted) && stack != [] && Plain(name)
    ensures Clean(Render(stack, rooted) + "/" + name) == Render(stack, rooted) + "/" + name
  {
    JoinSnoc(stack, name);
    assert Render(stack + [name], rooted) == Render(stack, rooted) + "/" + name;
    NormalSnoc(stack, name, rooted);
    CleanOfRender(stack + [name], rooted);
  }

  /** Clean elements written out never give `.` or `/` alone. */
  lemma RenderNotSpecial(stack: seq<string>, rooted: bool)
    requires Normal(stack, rooted) && stack != []
    ensures Render(stack, rooted) != "." && Render(stack, rooted) != "/"
  {
    JoinSplit(stack);
    SplitShort();
  }

  lemma SplitShort()
    ensures Split("") == [""] && Split(".") == ["."] && Split("/") == ["", ""]
  {
    assert "."[1..] == "" && "/"[1..] == "";
    assert ['.'] + Split("")[0] == ".";
  }

  lemma NormalSnoc(stack: seq<string>, name: string, rooted: bool)
    requires Normal(stack, rooted) && Plain(name)
    ensures Normal(stack + [name], rooted)
  {
  }

  lemma CleanDotName(name: string)
    requires Plain(name)
    ensures Clean("." + "/" + name) == name
  {
    SplitPlain(name);
    SplitSlash(".", name);
    var parts := Split("." + "/" + name);
    assert parts == [".", name];
    assert parts[1..] == [name];
    assert Resolve([], ".", false) == [] && Resolve([], name, false) == [name];
    assert ResolveAll([name], [], false) == [name];
    assert ResolveAll([], [name], false) == [name];
    assert ResolveAll([], parts, false) == [name];
  }

  lemma CleanRootName(name: string)
    requires Plain(name)
    ensures Clean("/" + "/" + name) == "/" + name
  {
    SplitPlain(name);
    SplitSlash("", name);
    SplitSlash("", "/" + name);
    assert "" + "/" + ("/" + name) == "/" + "/" + name;
    assert "" + "/" + name == "/" + name;
    var parts := Split("/" + "/" + name);
    assert parts == ["", "", name];
    assert parts[1..] == ["", name] && parts[2..] == [name];
    assert Resolve([], "", true) == [] && Resolve([], name, true) == [name];
    assert ResolveAll([name], [], true) == [name];
    assert ResolveAll([], [name], true) == [name];
    assert ResolveAll([], ["", name], true) == [name];
    assert ResolveAll([], parts, true) == [name];
  }

  /** `filepath.Ext`: the suffix from the last dot of the last element, or
      nothing when that element has no dot. */
  function Ext(p: string): (r: string)
    ensures |r| <= |p| && p[|p| - |r|..] == r
    ensures r == [] || (r[0] == '.' && forall i | 1 <= i < |r| :: r[i] != '.' && r[i] != '/')
    ensures r == [] ==> forall i | 0 <= i < |LastPiece(p)| :: LastPiece(p)[i] != '.'
    decreases |p|
  {
    if p == [] || p[|p| - 1] == '/' then []
    else if p[|p| - 1] == '.' then ['.']
    else
      var e := Ext(p[..|p| - 1]);
      if e == [] then [] else e + [p[|p| - 1]]
  }
}
