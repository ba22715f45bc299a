/** The index file, `root.json`: an object from the lower-case title of each
    Rock-on to the name of its definition file, and how `checkRootMap`
    brings one entry of it in line with a Rock-on being checked.

    A Go nil map is `None`, as elsewhere. */
module Index {
  import opened Wrappers
  import opened Text
  import opened Json
  import opened JsonParser
  import opened JsonRoundTrip
  import opened GoJson
  import Schema

  // ---------------------------------------------------------------------
  // `checkRootMap`
  // ---------------------------------------------------------------------

  /** Which way `checkRootMap` went, as its log lines tell: the file was
      found under the expected key, found under another key (which is
      dropped), not found, or the call panicked. */
  datatype Reconciliation = Matched | Renamed(stale: string) | Added | Panicked

  function StaleOf(o: Reconciliation): Option<string> {
    if o.Renamed? then Some(o.stale) else None
  }

  /** Whether the search of the index for `filename` can end in `o` when
      the Rock-on's key is `lower`: the search stops at the first entry it
      meets whose value is the file, in Go's unspecified map order. */
  predicate Possible(m: map<string, string>, filename: string, lower: string, o: Reconciliation) {
    match o
    case Matched => lower in m && m[lower] == filename
    case Renamed(k) => k in m && m[k] == filename && k != lower
    case Added => forall k | k in m :: m[k] != filename
    case Panicked => false
  }

  /** The index after the call: the stale key, if any, dropped, then the
      Rock-on's key set to the file. */
  function Reconcile(m: map<string, string>, filename: string, lower: string, stale: Option<string>): map<string, string> {
    (if stale.Some? then m - {stale.value} else m)[lower := filename]
  }

  /** No two keys name the same file. */
  predicate Injective(m: map<string, string>) {
    forall j, k | j in m && k in m && j != k :: m[j] != m[k]
  }

  /** The index of `root.json` as the main loop holds it. */
  class RootIndex {
    var entries: Option<map<string, string>>

    constructor (entries: Option<map<string, string>>)
      ensures this.entries == entries
    {
      this.entries := entries;
    }

    /** `checkRootMap(rootMap, filename, rockon)`. The Rock-on's title is the
        first key of its map in Go's map order, so any key when there are
        several; a nil or empty Rock-on has none, and indexing the empty
        key list panics, as does storing into a nil index. */
    method CheckRootMap(filename: string, rockon: Schema.RockOn) returns (outcome: Reconciliation)
      modifies this
      ensures outcome.Panicked? <==> rockon.None? || |rockon.value| == 0 || old(entries).None?
      ensures outcome.Panicked? ==> entries == old(entries)
      ensures !outcome.Panicked? ==>
                exists title | title in rockon.value ::
                  Possible(old(entries).value, filename, ToLower(title), outcome)
                  && entries == Some(Reconcile(old(entries).value, filename, ToLower(title), StaleOf(outcome)))
    {
      var m := if entries.Some? then entries.value else map[];
      var found, keyName := false, "";
      var remaining := m.Keys;
      while remaining != {} && !found
        invariant remaining <= m.Keys
        invariant found ==> keyName in m && m[keyName] == filename
        invariant !found ==> forall k | k in m && k !in remaining :: m[k] != filename
        decreases |remaining|
      {
        var key :| key in remaining;
        found := m[key] == filename;
        if found {
          keyName := key;
        }
        remaining := remaining - {key};
      }
      if rockon.None? || |rockon.value| == 0 {
        return Panicked;
      }
      var title :| title in rockon.value;
      var lower := ToLower(title);
      if entries.None? {
        return Panicked;
      }
      if found && lower != keyName {
        m := m - {keyName};
        outcome := Renamed(keyName);
      } else if found {
        outcome := Matched;
      } else {
        outcome := Added;
      }
      entries := Some(m[lower := filename]);
    }
  }

  /** After the call the Rock-on's key names the file, the stale key is gone,
      and every other entry is as it was. */
  lemma ReconcileFrame(m: map<string, string>, filename: string, lower: string, o: Reconciliation)
    requires Possible(m, filename, lower, o)
    ensures var r := Reconcile(m, filename, lower, StaleOf(o));
            lower in r && r[lower] == filename
            && (o.Renamed? ==> o.stale !in r && |r| == |m| - (if lower in m then 1 else 0))
            && (forall k | k != lower && Some(k) != StaleOf(o) :: (k in r <==> k in m) && (k in m ==> r[k] == m[k]))
  {
    var r := Reconcile(m, filename, lower, StaleOf(o));
    if o.Renamed? {
      var m' := m - {o.stale};
      assert |m'| == |m| - 1 by { assert m'.Keys == m.Keys - {o.stale}; }
      if lower in m {
        assert r.Keys == m'.Keys;
      } else {
        assert r.Keys == m'.Keys + {lower};
      }
    }
  }

  /** An index with at most one key per file keeps that property. */
  lemma ReconcileInjective(m: map<string, string>, filename: string, lower: string, o: Reconciliation)
    requires Injective(m) && Possible(m, filename, lower, o)
    ensures Injective(Reconcile(m, filename, lower, StaleOf(o)))
  {
    var r := Reconcile(m, filename, lower, StaleOf(o));
    assert forall x | x in m && m[x] == filename && x != lower :: StaleOf(o) == Some(x);
    assert forall x | x in r && x != lower :: x in m && r[x] == m[x];
  }

  /** Then the call is settled after one pass: checking the same file and
      title again can only find the file under the Rock-on's key, and leaves
      the index as it is. */
  lemma ReconcileSettles(m: map<string, string>, filename: string, lower: string, o: Reconciliation)
    requires Injective(m) && Possible(m, filename, lower, o)
    ensures var r := Reconcile(m, filename, lower, StaleOf(o));
            (forall o' :: Possible(r, filename, lower, o') <==> o' == Matched)
            && Reconcile(r, filename, lower, StaleOf(Matched)) == r
  {
    var r := Reconcile(m, filename, lower, StaleOf(o));
    ReconcileInjective(m, filename, lower, o);
    assert forall x | x in r && r[x] == filename :: x == lower;
    assert Possible(r, filename, lower, Matched);
  }

  // ---------------------------------------------------------------------
  // Reading and writing the index
  // ---------------------------------------------------------------------

  /** A value of the index: a string, `null` for the empty string. */
  function DecodeEntry(v: JValue): Result<string, Error> {
    DecodeString("", v)
  }

  /** `json.Unmarshal(rootData, &rootMap)` into the empty map made before the
      loop: an object's members are stored, `null` makes the map nil, and
      anything else, a value that is not a string among them, fails. */
  function DecodeIndex(v: JValue): Result<Option<map<string, string>>, Error> {
    DecodeMap(Some(map[]), v, DecodeEntry)
  }

  function EncodeEntry(s: string): JValue {
    JString(s)
  }

  function EncodeIndex(m: Option<map<string, string>>): JValue {
    EncodeMap(m, EncodeEntry)
  }

  /** `json.MarshalIndent(rootMap, "", "  ")`: keys in increasing order,
      two-space indentation, `&`, `<` and `>` escaped, no final newline. */
  function IndexText(m: Option<map<string, string>>): string {
    Print(EncodeIndex(m), "  ", 0, HtmlEscaping, HtmlEscaping)
  }

  /** A document printed without a final newline parses back too. */
  lemma PrintedParses(text: string, v: JValue)
    requires WellFormed(v) && text == Print(v, "  ", 0, HtmlEscaping, HtmlEscaping)
    ensures Parse(text) == Some(v)
  {
    PrintParse(v, "  ", 0, HtmlEscaping, HtmlEscaping, "");
    assert text + "" == text;
  }

  /** The index as the validator writes it is a valid document of its
      encoding, whatever the names in it ... */
  lemma IndexTextParses(m: Option<map<string, string>>)
    ensures Parse(IndexText(m)) == Some(EncodeIndex(m))
  {
    EncodeMapWellFormed(m, EncodeEntry);
    PrintedParses(IndexText(m), EncodeIndex(m));
  }

  /** ... which decodes as the same map. */
  lemma IndexRoundTrip(m: Option<map<string, string>>)
    ensures DecodeIndex(EncodeIndex(m)) == Ok(m)
  {
    assert DecodeIndex(EncodeIndex(m)) == DecodeMap(None, EncodeIndex(m), DecodeEntry);
    DecodeEncodeMap(m, EncodeEntry, DecodeEntry, Same);
    MapValuesIdentity(m);
  }
}
