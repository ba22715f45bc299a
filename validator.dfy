/** The validator's main loop: it checks each named file against the
    Rock-on schema, keeps the index in line with each Rock-on, writes files
    back or prints diffs as asked, and ends with an exit status.

    The file system is a map from path to contents (a path it holds is one
    `os.ReadFile` can read), with the paths `os.Stat` fails on for another
    reason than their absence and the paths `os.WriteFile` fails on. Go's
    `os.Exit(c)` ends the run with status `c`, and a panic with status 2. */
module Validator {
  import opened Wrappers
  import opened Text
  import opened Json
  import opened JsonParser
  import opened Index
  import opened Paths
  import Schema
  import SchemaOutput

  /** `--diff`, `--write` and `--root FILE`; `--check` changes nothing. */
  datatype Options = Options(diff: bool, write: bool, root: string)

  /** What `os.Stat` answers. */
  datatype StatResult = StatOk | NotExist | StatFailed

  function StatOf(files: map<string, string>, unstatable: set<string>, path: string): StatResult {
    if path !in files then NotExist else if path in unstatable then StatFailed else StatOk
  }

  /** The paths the operating system refuses. */
  datatype Env = Env(unstatable: set<string>, unwritable: set<string>)

  /** A unified diff as printed: the two file names and the two texts it
      is computed from. */
  datatype Diff = Diff(from: string, to: string, before: string, after: string)

  function DiffOf(path: string, before: string, after: string): Diff {
    Diff("a/" + TrimPrefix(path, "/"), "b/" + TrimPrefix(path, "/"), before, after)
  }

  /** What the validator did with one file, as its log tells. */
  datatype Event =
    | Checked(path: string, original: string, canonical: string)
    | SkippedIndex(path: string)
    | SkippedOther(path: string)

  /** What the schema makes of a file's text: not a Rock-on, or a Rock-on
      with the text `ToJSON` writes for it. */
  datatype Verdict = Undecodable | Decoded(rockon: Schema.RockOn, canonical: string)

  function Judge(data: string): Verdict {
    var r := Schema.Unmarshal(data);
    if r.Err? then Undecodable else Decoded(r.value, Schema.ToJSON(r.value))
  }

  /** The library calls the loop makes: the schema's verdict on a text,
      `filepath.Clean`, `filepath.Ext`, `filepath.Base`, and where the index
      beside a file is. The loop is modelled for any of them, so that what is proved of
      it does not unfold the schema or the path functions; `Real()` is the
      program's own. */
  datatype Library = Library(
    judge: string -> Verdict,
    clean: string -> string,
    ext: string -> string,
    base: string -> string,
    rootBeside: string -> string)

  /** The index the program reads when `--root` is not given: `root.json`
      in the directory of `f`. */
  function RootBeside(f: string): (r: string)
    ensures '/' !in f ==> r == "root.json"
    ensures r == if Dir(f) == "." then "root.json"
                 else if Dir(f) == "/" then "/root.json"
                 else Dir(f) + "/root.json"
  {
    JoinDirRoot(f);
    Join(Dir(f), "root.json")
  }

  function Real(): Library {
    Library(Judge, Clean, Ext, Base, RootBeside)
  }

  // ---------------------------------------------------------------------
  // The run, step by step
  // ---------------------------------------------------------------------

  /** Whether the index has been read yet, and what it held: its text and
      whether it was `null`, which leaves the Go map nil. */
  datatype IndexPhase = Unloaded | Loaded(original: string, nilMap: bool)

  function IndexOriginal(p: IndexPhase): string {
    if p.Loaded? then p.original else ""
  }

  /** Everything the loop carries from one file to the next, but the index
      entries, which `checkRootMap` updates by a choice of its own. */
  datatype State = State(
    files: map<string, string>,
    rootFile: string,
    index: IndexPhase,
    diffToValid: bool,
    fileInfo: bool,
    diffs: seq<Diff>,
    events: seq<Event>)

  /** Going on to the next file, or ending with a status. */
  datatype Step = Next(s: State) | Stop(s: State, code: int)

  function Start(o: Options, files: map<string, string>): State {
    State(files, o.root, Unloaded, false, false, [], [])
  }

  /** The glob matches of the arguments: each must match something. */
  function Flatten(matches: seq<seq<string>>): seq<string>
    decreases |matches|
  {
    if matches == [] then [] else matches[0] + Flatten(matches[1..])
  }

  function Expand(matches: seq<seq<string>>): Option<seq<string>> {
    if exists i | 0 <= i < |matches| :: matches[i] == [] then None else Some(Flatten(matches))
  }

  /** Reading the index, on the first file that is valid JSON: from
      `root.json` beside that file unless `--root` names one. */
  function LoadIndexStep(o: Options, lib: Library, s: State, f: string): Step {
    var rootFile := if o.root == "" then lib.rootBeside(f) else s.rootFile;
    var s1 := s.(rootFile := rootFile);
    if rootFile !in s.files then Stop(s1, 4)
    else if !Valid(s.files[rootFile]) then Stop(s1, 5)
    else
      var m := DecodeIndex(Parse(s.files[rootFile]).value);
      if m.Err? then Stop(s1, 1)
      else Next(s1.(index := Loaded(s.files[rootFile], m.value.None?)))
  }

  /** One file that is valid JSON, the index read. */
  function CheckFileStep(o: Options, env: Env, lib: Library, s: State, f: string, data: string): Step {
    if lib.clean(f) == lib.clean(s.rootFile) then Next(s.(events := s.events + [SkippedIndex(f)]))
    else
      var v := lib.judge(data);
      if v.Undecodable? then
        if lib.ext(f) == ".json" then Stop(s, 1) else Next(s.(events := s.events + [SkippedOther(f)]))
      else if v.rockon.None? || |v.rockon.value| == 0 || (s.index.Loaded? && s.index.nilMap) then Stop(s, 2)
      else RecordStep(o, env, s, f, data, v.canonical)
  }

  /** A checked Rock-on: its text `out` compared with what the file held,
      the diff kept, and the file rewritten with `--write`, which needs its
      mode. */
  function RecordStep(o: Options, env: Env, s: State, f: string, data: string, out: string): Step {
    var s1 := s.(diffToValid := s.diffToValid || data != out,
                 events := s.events + [Checked(f, data, out)],
                 diffs := if o.diff then s.diffs + [DiffOf(f, data, out)] else s.diffs,
                 fileInfo := StatOf(s.files, env.unstatable, f) == StatOk);
    if !o.write then Next(s1)
    else if !s1.fileInfo then Stop(s1, 2)
    else if f in env.unwritable then Stop(s1, 6)
    else Next(s1.(files := s.files[f := out]))
  }

  function FileStep(o: Options, env: Env, lib: Library, s: State, f: string): Step {
    if f !in s.files then Stop(s, 1)
    else if !Valid(s.files[f]) then Stop(s, 3)
    else
      var loaded := if s.index.Unloaded? then LoadIndexStep(o, lib, s, f) else Next(s);
      if loaded.Stop? then loaded else CheckFileStep(o, env, lib, loaded.s, f, s.files[f])
  }

  function RunFrom(o: Options, env: Env, lib: Library, s: State, paths: seq<string>): Step
    decreases |paths|
  {
    if paths == [] then Next(s)
    else
      var step := FileStep(o, env, lib, s, paths[0]);
      if step.Stop? then step else RunFrom(o, env, lib, step.s, paths[1..])
  }

  /** After the last file: the index written back with `--write` (with the
      mode of the index file, or of the last Rock-on file when there is no
      index file), its diff printed with `--diff`, and the status. */
  function FinishStep(o: Options, env: Env, s: State, indexText: string): Step {
    var st := StatOf(s.files, env.unstatable, s.rootFile);
    if o.write && !(st == StatOk || (st == NotExist && s.fileInfo)) then Stop(s, 2)
    else if o.write && s.rootFile in env.unwritable then Stop(s, 7)
    else
      var s1 := if o.write then s.(files := s.files[s.rootFile := indexText]) else s;
      var s2 := if o.diff then s1.(diffs := s1.diffs + [DiffOf(s.rootFile, IndexOriginal(s.index), indexText)]) else s1;
      Stop(s2, if s2.diffToValid && !o.diff then 1 else 0)
  }

  /** The whole run, the index text it ends with given. */
  function Outcome(o: Options, env: Env, lib: Library, files: map<string, string>, matches: seq<seq<string>>, indexText: string): Step {
    var paths := Expand(matches);
    if paths.None? then Stop(Start(o, files), 2)
    else
      var step := RunFrom(o, env, lib, Start(o, files), paths.value);
      if step.Stop? then step else FinishStep(o, env, step.s, indexText)
  }

  // ---------------------------------------------------------------------
  // The index entries through the run
  // ---------------------------------------------------------------------

  /** Whether `checkRootMap` is called on the file `f` with text `data` and
      returns: the file is not the index, it is a Rock-on with a title, and
      the index map is not nil. */
  predicate Reconciles(lib: Library, s: State, f: string, data: string) {
    var v := lib.judge(data);
    lib.clean(f) != lib.clean(s.rootFile) && v.Decoded? && v.rockon.Some? && |v.rockon.value| > 0
    && !(s.index.Loaded? && s.index.nilMap)
  }

  /** What `checkRootMap(rootMap, filename, rockon)` can leave in an index
      that held `before`: for one of the Rock-on's titles and one way the
      search can end, the reconciled map. */
  ghost predicate Reconciled(before: Option<map<string, string>>, after: Option<map<string, string>>,
                             filename: string, rockon: Schema.RockOn) {
    before.Some? && rockon.Some?
    && exists title, o | title in rockon.value ::
         Possible(before.value, filename, ToLower(title), o)
         && after == Some(Reconcile(before.value, filename, ToLower(title), StaleOf(o)))
  }

  /** The entries of the index file a state has just read. */
  function LoadedEntries(s: State): Option<map<string, string>>
    requires s.rootFile in s.files && Valid(s.files[s.rootFile])
    requires DecodeIndex(Parse(s.files[s.rootFile]).value).Ok?
  {
    DecodeIndex(Parse(s.files[s.rootFile]).value).value
  }

  /** The index entries after the file `f`, when they were `held` before
      it: read from the index file if `f` is the first file, then
      reconciled with the Rock-on in `f` if `checkRootMap` gets that far. */
  ghost predicate IndexAfterFile(o: Options, lib: Library, s: State, f: string,
                                 held: Option<map<string, string>>, after: Option<map<string, string>>) {
    var loaded := if s.index.Unloaded? then LoadIndexStep(o, lib, s, f) else Next(s);
    if f in s.files && Valid(s.files[f]) && loaded.Next? then
      var before := if s.index.Unloaded? then LoadedEntries(loaded.s) else held;
      if Reconciles(lib, loaded.s, f, s.files[f])
      then Reconciled(before, after, lib.base(f), lib.judge(s.files[f]).rockon)
      else after == before
    else after == held
  }

  /** The index entries after the files `paths`, one file after the other,
      up to the file that ends the run. */
  ghost predicate IndexAfterRun(o: Options, env: Env, lib: Library, s: State, paths: seq<string>,
                                held: Option<map<string, string>>, after: Option<map<string, string>>)
    decreases |paths|
  {
    if paths == [] then after == held
    else
      var step := FileStep(o, env, lib, s, paths[0]);
      if step.Stop? then IndexAfterFile(o, lib, s, paths[0], held, after)
      else exists mid :: IndexAfterFile(o, lib, s, paths[0], held, mid)
                         && IndexAfterRun(o, env, lib, step.s, paths[1..], mid, after)
  }

  /** One more file in front of a run. */
  lemma IndexAfterRunCons(o: Options, env: Env, lib: Library, s: State, paths: seq<string>,
                          held: Option<map<string, string>>, mid: Option<map<string, string>>, after: Option<map<string, string>>)
    requires paths != [] && FileStep(o, env, lib, s, paths[0]).Next?
    requires IndexAfterFile(o, lib, s, paths[0], held, mid)
    requires IndexAfterRun(o, env, lib, FileStep(o, env, lib, s, paths[0]).s, paths[1..], mid, after)
    ensures IndexAfterRun(o, env, lib, s, paths, held, after)
  {
  }

  /** What a method that may end the run did: `None` to go on. */
  function Taken(s: State, exit: Option<int>): Step {
    if exit.Some? then Stop(s, exit.value) else Next(s)
  }

  // ---------------------------------------------------------------------
  // The program
  // ---------------------------------------------------------------------

  class FileSystem {
    var files: map<string, string>
    const unstatable: set<string>
    const unwritable: set<string>

    constructor (files: map<string, string>, unstatable: set<string>, unwritable: set<string>)
      ensures this.files == files && this.unstatable == unstatable && this.unwritable == unwritable
    {
      this.files := files;
      this.unstatable := unstatable;
      this.unwritable := unwritable;
    }

    method ReadFile(path: string) returns (data: Option<string>)
      ensures data.Some? <==> path in files
      ensures data.Some? ==> data.value == files[path]
    {
      data := if path in files then Some(files[path]) else None;
    }

    method Stat(path: string) returns (st: StatResult)
      ensures st == StatOf(files, unstatable, path)
    {
      st := StatOf(files, unstatable, path);
    }

    method WriteFile(path: string, data: string) returns (ok: bool)
      modifies this
      ensures ok <==> path !in unwritable
      ensures files == if ok then old(files)[path := data] else old(files)
    {
      ok := path !in unwritable;
      if ok {
        files := files[path := data];
      }
    }
  }

  /** `parseFileArgs`: the matches of every argument in turn, and `None`
      (status 2) as soon as one matches nothing. */
  method ParseFileArgs(matches: seq<seq<string>>) returns (paths: Option<seq<string>>)
    ensures paths.None? <==> exists i | 0 <= i < |matches| :: matches[i] == []
    ensures paths.Some? ==> paths.value == Flatten(matches)
  {
    var ps: seq<string> := [];
    var i := 0;
    while i < |matches|
      invariant 0 <= i <= |matches|
      invariant forall j | 0 <= j < i :: matches[j] != []
      invariant ps + Flatten(matches[i..]) == Flatten(matches)
    {
      if matches[i] == [] {
        return None;
      }
      assert matches[i..][1..] == matches[i + 1..];
      ps := ps + matches[i];
      i := i + 1;
    }
    assert matches[i..] == [];
    paths := Some(ps);
  }

  /** The variables of `main` and the globals it shares with the rest of
      the program. */
  class Program {
    const opts: Options
    const fs: FileSystem
    const lib: Library
    const rootMap: RootIndex
    var rootFile: string
    var indexValidated: bool
    var indexOrigContent: string
    var diffToValid: bool
    var fileInfo: bool
    var diffs: seq<Diff>
    var events: seq<Event>

    /** Until the index is read, the map is the empty one made for it. */
    predicate Valid()
      reads this, rootMap
    {
      !indexValidated ==> rootMap.entries == Some(map[]) && indexOrigContent == ""
    }

    function Current(): State
      reads this, fs, rootMap
    {
      State(fs.files, rootFile, if indexValidated then Loaded(indexOrigContent, rootMap.entries.None?) else Unloaded,
            diffToValid, fileInfo, diffs, events)
    }

    function Environment(): Env {
      Env(fs.unstatable, fs.unwritable)
    }

    constructor (opts: Options, fs: FileSystem)
      ensures Valid() && Current() == Start(opts, fs.files)
      ensures this.opts == opts && this.fs == fs && lib == Real() && fresh(rootMap)
    {
      this.opts := opts;
      this.fs := fs;
      lib := Real();
      rootMap := new RootIndex(Some(map[]));
      rootFile := opts.root;
      indexValidated := false;
      indexOrigContent := "";
      diffToValid := false;
      fileInfo := false;
      diffs := [];
      events := [];
    }

    method LoadIndex(f: string) returns (exit: Option<int>)
      requires Valid() && !indexValidated
      modifies this, rootMap
      ensures Valid()
      ensures Taken(Current(), exit) == LoadIndexStep(opts, lib, old(Current()), f)
      ensures exit.Some? ==> rootMap.entries == old(rootMap.entries)
      ensures exit.None? ==> rootMap.entries == LoadedEntries(Current())
    {
      if opts.root == "" {
        rootFile := lib.rootBeside(f);
      }
      var rootData := fs.ReadFile(rootFile);
      if rootData.None? {
        return Some(4);
      }
      if !JsonParser.Valid(rootData.value) {
        return Some(5);
      }
      var m := DecodeIndex(Parse(rootData.value).value);
      if m.Err? {
        return Some(1);
      }
      indexOrigContent := rootData.value;
      rootMap.entries := m.value;
      indexValidated := true;
      return None;
    }

    method CheckFile(f: string, data: string) returns (exit: Option<int>)
      requires Valid() && indexValidated
      modifies this, rootMap, fs
      ensures Valid()
      ensures Taken(Current(), exit) == CheckFileStep(opts, Environment(), lib, old(Current()), f, data)
      ensures if Reconciles(lib, old(Current()), f, data)
              then Reconciled(old(rootMap.entries), rootMap.entries, lib.base(f), lib.judge(data).rockon)
              else rootMap.entries == old(rootMap.entries)
    {
      if lib.clean(f) == lib.clean(rootFile) {
        events := events + [SkippedIndex(f)];
        return None;
      }
      var verdict := lib.judge(data);
      if verdict.Undecodable? {
        if lib.ext(f) == ".json" {
          return Some(1);
        }
        events := events + [SkippedOther(f)];
        return None;
      }
      ghost var before := Current();
      var panicked := UpdateIndex(lib.base(f), verdict.rockon);
      if panicked {
        return Some(2);
      }
      assert Current() == before;
      exit := Record(f, data, verdict.canonical);
    }

    /** `checkRootMap` on the index; only whether it panicked matters to
        the rest of the loop. */
    method UpdateIndex(filename: string, rockon: Schema.RockOn) returns (panicked: bool)
      modifies rootMap
      ensures panicked <==> rockon.None? || |rockon.value| == 0 || old(rootMap.entries).None?
      ensures panicked ==> rootMap.entries == old(rootMap.entries)
      ensures rootMap.entries.Some? == old(rootMap.entries).Some?
      ensures !panicked ==> Reconciled(old(rootMap.entries), rootMap.entries, filename, rockon)
    {
      var outcome := rootMap.CheckRootMap(filename, rockon);
      panicked := outcome.Panicked?;
      if !panicked {
        ghost var title :| title in rockon.value
          && Possible(old(rootMap.entries).value, filename, ToLower(title), outcome)
          && rootMap.entries == Some(Reconcile(old(rootMap.entries).value, filename, ToLower(title), StaleOf(outcome)));
      }
    }

    method Record(f: string, data: string, out: string) returns (exit: Option<int>)
      modifies this, fs
      ensures Taken(Current(), exit) == RecordStep(opts, Environment(), old(Current()), f, data, out)
    {
      if data != out {
        diffToValid := true;
      }
      events := events + [Checked(f, data, out)];
      if opts.diff {
        diffs := diffs + [DiffOf(f, data, out)];
      }
      var st := fs.Stat(f);
      fileInfo := st == StatOk;
      if opts.write {
        if !fileInfo {
          return Some(2);
        }
        var ok := fs.WriteFile(f, out);
        if !ok {
          return Some(6);
        }
      }
      return None;
    }

    method ProcessFile(f: string) returns (exit: Option<int>)
      requires Valid()
      modifies this, rootMap, fs
      ensures Valid()
      ensures Taken(Current(), exit) == FileStep(opts, Environment(), lib, old(Current()), f)
      ensures IndexAfterFile(opts, lib, old(Current()), f, old(rootMap.entries), rootMap.entries)
    {
      var fileData := fs.ReadFile(f);
      if fileData.None? {
        return Some(1);
      }
      if !JsonParser.Valid(fileData.value) {
        return Some(3);
      }
      if !indexValidated {
        exit := LoadIndex(f);
        if exit.Some? {
          return;
        }
      }
      exit := CheckFile(f, fileData.value);
    }

    method Finish() returns (exit: int)
      requires Valid()
      modifies this, fs
      ensures Stop(Current(), exit) == FinishStep(opts, Environment(), old(Current()), IndexText(rootMap.entries))
    {
      var indexText := IndexText(rootMap.entries);
      if opts.write {
        var st := fs.Stat(rootFile);
        if !(st == StatOk || (st == NotExist && fileInfo)) {
          return 2;
        }
        var ok := fs.WriteFile(rootFile, indexText);
        if !ok {
          return 7;
        }
      }
      if opts.diff {
        diffs := diffs + [DiffOf(rootFile, indexOrigContent, indexText)];
      }
      if diffToValid {
        if opts.diff {
          return 0;
        }
        return 1;
      }
      return 0;
    }

    /** `main` from the glob expansion on, the index it ends with being
        the one written and diffed. */
    method Run(matches: seq<seq<string>>) returns (exit: int)
      requires Valid() && Current() == Start(opts, fs.files)
      modifies this, rootMap, fs
      ensures Stop(Current(), exit) == Outcome(opts, Environment(), lib, old(fs.files), matches, IndexText(rootMap.entries))
      ensures Expand(matches).None? ==> rootMap.entries == old(rootMap.entries)
      ensures Expand(matches).Some? ==>
                IndexAfterRun(opts, Environment(), lib, old(Current()), Expand(matches).value, old(rootMap.entries), rootMap.entries)
    {
      var paths := ParseFileArgs(matches);
      if paths.None? {
        return 2;
      }
      var ps := paths.value;
      ghost var start := Current();
      ghost var held0 := rootMap.entries;
      var i := 0;
      while i < |ps|
        invariant 0 <= i <= |ps| && Valid()
        invariant RunFrom(opts, Environment(), lib, start, ps) == RunFrom(opts, Environment(), lib, Current(), ps[i..])
        invariant forall fin ::
                    IndexAfterRun(opts, Environment(), lib, Current(), ps[i..], rootMap.entries, fin) ==>
                    IndexAfterRun(opts, Environment(), lib, start, ps, held0, fin)
      {
        ghost var before, held := Current(), rootMap.entries;
        var e := ProcessFile(ps[i]);
        assert ps[i..][1..] == ps[i + 1..];
        if e.Some? {
          assert IndexAfterRun(opts, Environment(), lib, before, ps[i..], held, rootMap.entries);
          return e.value;
        }
        forall fin | IndexAfterRun(opts, Environment(), lib, Current(), ps[i + 1..], rootMap.entries, fin)
          ensures IndexAfterRun(opts, Environment(), lib, before, ps[i..], held, fin)
        {
          IndexAfterRunCons(opts, Environment(), lib, before, ps[i..], held, rootMap.entries, fin);
        }
        i := i + 1;
      }
      assert ps[i..] == [];
      assert IndexAfterRun(opts, Environment(), lib, Current(), ps[i..], rootMap.entries, rootMap.entries);
      exit := Finish();
    }
  }

  // ---------------------------------------------------------------------
  // What the run guarantees, for any library
  // ---------------------------------------------------------------------

  /** `diffToValid` is set exactly when some checked Rock-on's text differs
      from what `ToJSON` makes of it. */
  predicate DiffConsistent(s: State) {
    s.diffToValid <==> exists i | 0 <= i < |s.events| :: s.events[i].Checked? && s.events[i].original != s.events[i].canonical
  }

  lemma AppendEventConsistent(s: State, e: Event, flag: bool)
    requires DiffConsistent(s)
    requires flag == (s.diffToValid || (e.Checked? && e.original != e.canonical))
    ensures DiffConsistent(s.(diffToValid := flag, events := s.events + [e]))
  {
    var es := s.events + [e];
    assert es[|s.events|] == e;
    assert forall i | 0 <= i < |s.events| :: es[i] == s.events[i];
  }

  lemma CheckFileConsistent(o: Options, env: Env, lib: Library, s: State, f: string, data: string)
    requires DiffConsistent(s)
    ensures DiffConsistent(CheckFileStep(o, env, lib, s, f, data).s)
  {
    var v := lib.judge(data);
    if lib.clean(f) == lib.clean(s.rootFile) {
      AppendEventConsistent(s, SkippedIndex(f), s.diffToValid);
    } else if v.Undecodable? {
      AppendEventConsistent(s, SkippedOther(f), s.diffToValid);
    } else {
      AppendEventConsistent(s, Checked(f, data, v.canonical), s.diffToValid || data != v.canonical);
    }
  }

  lemma FileStepConsistent(o: Options, env: Env, lib: Library, s: State, f: string)
    requires DiffConsistent(s)
    ensures DiffConsistent(FileStep(o, env, lib, s, f).s)
  {
    if f in s.files && Valid(s.files[f]) {
      var loaded := if s.index.Unloaded? then LoadIndexStep(o, lib, s, f) else Next(s);
      if loaded.Next? {
        CheckFileConsistent(o, env, lib, loaded.s, f, s.files[f]);
      }
    }
  }

  lemma {:induction false} RunFromConsistent(o: Options, env: Env, lib: Library, s: State, paths: seq<string>)
    requires DiffConsistent(s)
    ensures DiffConsistent(RunFrom(o, env, lib, s, paths).s)
    decreases |paths|
  {
    if paths != [] {
      FileStepConsistent(o, env, lib, s, paths[0]);
      RunFromConsistent(o, env, lib, FileStep(o, env, lib, s, paths[0]).s, paths[1..]);
    }
  }

  /** A run that gets through every file and, with `--write`, writes the
      index, ends with 1 exactly when some checked Rock-on was not in its
      canonical form and `--diff` was not given, and with 0 otherwise; the
      index text plays no part in the status. */
  lemma ExitStatus(o: Options, env: Env, lib: Library, files: map<string, string>, matches: seq<seq<string>>, indexText: string, other: string)
    requires Expand(matches).Some?
    requires RunFrom(o, env, lib, Start(o, files), Expand(matches).value).Next?
    ensures var r := Outcome(o, env, lib, files, matches, indexText);
            var events := RunFrom(o, env, lib, Start(o, files), Expand(matches).value).s.events;
            r.code != 2 && r.code != 7 ==>
              (r.code == 1 <==> !o.diff && exists i | 0 <= i < |events| :: events[i].Checked? && events[i].original != events[i].canonical)
              && (r.code == 0 || r.code == 1)
    ensures Outcome(o, env, lib, files, matches, indexText).code == Outcome(o, env, lib, files, matches, other).code
  {
    RunFromConsistent(o, env, lib, Start(o, files), Expand(matches).value);
  }

  /** A file stops the loop with 1 (unreadable, or a `.json` file that is
      not a Rock-on, or an index that is not a string map), 2 (a panic),
      3 (not JSON), 4 or 5 (an index unreadable or not JSON) or 6 (not
      writable). */
  lemma {:induction false} RunFromCodes(o: Options, env: Env, lib: Library, s: State, paths: seq<string>)
    ensures var r := RunFrom(o, env, lib, s, paths);
            r.Stop? ==> 1 <= r.code <= 6
    decreases |paths|
  {
    if paths != [] {
      var step := FileStep(o, env, lib, s, paths[0]);
      assert step.Stop? ==> 1 <= step.code <= 6;
      if step.Next? {
        RunFromCodes(o, env, lib, step.s, paths[1..]);
      }
    }
  }

  /** The status of a whole run is one of 0 to 7; 7 only when the index
      cannot be written, and 3 to 6 only from a file of the loop. */
  lemma OutcomeCodes(o: Options, env: Env, lib: Library, files: map<string, string>, matches: seq<seq<string>>, indexText: string)
    ensures var r := Outcome(o, env, lib, files, matches, indexText);
            0 <= r.code <= 7
            && (r.code == 7 ==> o.write && r.s.rootFile in env.unwritable)
            && (3 <= r.code <= 6 ==> Expand(matches).Some? && RunFrom(o, env, lib, Start(o, files), Expand(matches).value).Stop?)
  {
    if Expand(matches).Some? {
      RunFromCodes(o, env, lib, Start(o, files), Expand(matches).value);
    }
  }

  /** Without `--write` no file is changed. */
  lemma LoadIndexKeepsFiles(o: Options, lib: Library, s: State, f: string)
    ensures LoadIndexStep(o, lib, s, f).s.files == s.files
  {
  }

  lemma CheckFileReadOnly(o: Options, env: Env, lib: Library, s: State, f: string, data: string)
    requires !o.write
    ensures CheckFileStep(o, env, lib, s, f, data).s.files == s.files
  {
  }

  lemma FileStepReadOnly(o: Options, env: Env, lib: Library, s: State, f: string)
    requires !o.write
    ensures FileStep(o, env, lib, s, f).s.files == s.files
  {
    if f in s.files && Valid(s.files[f]) {
      var loaded := if s.index.Unloaded? then LoadIndexStep(o, lib, s, f) else Next(s);
      LoadIndexKeepsFiles(o, lib, s, f);
      if loaded.Next? {
        CheckFileReadOnly(o, env, lib, loaded.s, f, s.files[f]);
      }
    }
  }

  lemma {:induction false} RunFromReadOnly(o: Options, env: Env, lib: Library, s: State, paths: seq<string>)
    requires !o.write
    ensures RunFrom(o, env, lib, s, paths).s.files == s.files
    decreases |paths|
  {
    if paths != [] {
      FileStepReadOnly(o, env, lib, s, paths[0]);
      RunFromReadOnly(o, env, lib, FileStep(o, env, lib, s, paths[0]).s, paths[1..]);
    }
  }

  lemma ReadOnly(o: Options, env: Env, lib: Library, files: map<string, string>, matches: seq<seq<string>>, indexText: string)
    requires !o.write
    ensures Outcome(o, env, lib, files, matches, indexText).s.files == files
  {
    if Expand(matches).Some? {
      RunFromReadOnly(o, env, lib, Start(o, files), Expand(matches).value);
    }
  }

  /** Once read, the index stays what it was: where it came from, its text
      and whether it was nil. */
  lemma FileStepKeepsIndex(o: Options, env: Env, lib: Library, s: State, f: string)
    requires s.index.Loaded?
    ensures FileStep(o, env, lib, s, f).s.rootFile == s.rootFile
    ensures FileStep(o, env, lib, s, f).s.index == s.index
  {
  }

  lemma {:induction false} LoadedStays(o: Options, env: Env, lib: Library, s: State, paths: seq<string>)
    requires s.index.Loaded?
    ensures RunFrom(o, env, lib, s, paths).s.rootFile == s.rootFile
    ensures RunFrom(o, env, lib, s, paths).s.index == s.index
    decreases |paths|
  {
    if paths != [] {
      FileStepKeepsIndex(o, env, lib, s, paths[0]);
      LoadedStays(o, env, lib, FileStep(o, env, lib, s, paths[0]).s, paths[1..]);
    }
  }

  /** The index is read on the first file, when that file is valid JSON,
      from `root.json` beside it unless `--root` names another. */
  lemma IndexFromFirstFile(o: Options, env: Env, lib: Library, files: map<string, string>, paths: seq<string>)
    requires paths != [] && paths[0] in files && Valid(files[paths[0]])
    ensures RunFrom(o, env, lib, Start(o, files), paths).s.rootFile
         == if o.root == "" then lib.rootBeside(paths[0]) else o.root
    ensures var step := RunFrom(o, env, lib, Start(o, files), paths);
            step.Next? ==> step.s.index.Loaded?
  {
    var s := Start(o, files);
    var loaded := LoadIndexStep(o, lib, s, paths[0]);
    if loaded.Next? {
      var step := CheckFileStep(o, env, lib, loaded.s, paths[0], files[paths[0]]);
      if step.Next? {
        LoadedStays(o, env, lib, step.s, paths[1..]);
      }
    }
  }

  /** A file whose verdict is its own text is checked without setting
      `diffToValid`. */
  lemma CanonicalChecksClean(o: Options, env: Env, lib: Library, s: State, f: string, data: string, r: Schema.RockOn)
    requires lib.clean(f) != lib.clean(s.rootFile) && lib.judge(data) == Decoded(r, data)
    ensures CheckFileStep(o, env, lib, s, f, data).s.diffToValid == s.diffToValid
  {
  }

  // ---------------------------------------------------------------------
  // The schema's verdict
  // ---------------------------------------------------------------------

  /** What the validator writes for a Rock-on is valid JSON, and the schema
      takes it for the same Rock-on, written alike; so a rewritten file
      passes a second check. */
  lemma JudgeRecheck(data: string)
    requires Judge(data).Decoded? && SchemaOutput.SafeRockOn(Judge(data).rockon)
    ensures var r := Judge(data).rockon;
            var out := Judge(data).canonical;
            Valid(out) && Judge(out).Decoded? && Judge(out).canonical == out
            && Judge(out).rockon == Schema.Canon(r)
            && (Judge(out).rockon.Some? <==> r.Some?)
            && (r.Some? ==> Judge(out).rockon.value.Keys == r.value.Keys)
  {
    var r := Judge(data).rockon;
    SchemaOutput.ToJSONReadsBack(r);
    SchemaOutput.ToJSONCanon(r);
  }

  lemma RecheckIsClean(o: Options, env: Env, s: State, f: string, data: string)
    requires Clean(f) != Clean(s.rootFile)
    requires Judge(data).Decoded? && SchemaOutput.SafeRockOn(Judge(data).rockon)
    ensures var out := Judge(data).canonical;
            CheckFileStep(o, env, Real(), s, f, out).s.diffToValid == s.diffToValid
  {
    JudgeRecheck(data);
    var out := Judge(data).canonical;
    CanonicalChecksClean(o, env, Real(), s, f, out, Judge(out).rockon);
  }
}
