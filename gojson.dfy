/** The rules by which Go's `encoding/json` fills, and writes, the kinds of
    Go value the Rock-on schemas are made of: strings, booleans, maps keyed
    by string, slices, and structs.

    Decoding always goes INTO a value that already exists, as Go's decoder
    does: `prior` is what the field held before (its zero value on a fresh
    struct, an earlier occurrence's result when a key is repeated). */
module GoJson {
  import opened Wrappers
  import opened Text
  import opened Json

  /** A Go `string`: a string literal sets it, `null` leaves it alone,
      anything else does not fit. */
  function DecodeString(prior: string, v: JValue): Result<string, Error> {
    match v
    case JString(s) => Ok(s)
    case JNull => Ok(prior)
    case _ => Err(TypeError)
  }

  /** A Go `bool`: as for strings, with `true` and `false`. */
  function DecodeBool(prior: bool, v: JValue): Result<bool, Error> {
    match v
    case JBool(b) => Ok(b)
    case JNull => Ok(prior)
    case _ => Err(TypeError)
  }

  /** A struct: its members are applied one after the other, left to right,
      by `step`, which knows the struct's fields. */
  function FoldMembers<S>(p: S, ms: seq<Member>, step: (S, Member) -> Result<S, Error>): Result<S, Error>
    decreases |ms|
  {
    if ms == [] then Ok(p)
    else
      var p' :- step(p, ms[0]);
      FoldMembers(p', ms[1..], step)
  }

  /** A struct-typed value: `null` leaves it, an object is folded into it. */
  function DecodeStruct<S>(prior: S, v: JValue, step: (S, Member) -> Result<S, Error>): Result<S, Error> {
    match v
    case JNull => Ok(prior)
    case JObject(ms) => FoldMembers(prior, ms, step)
    case _ => Err(TypeError)
  }

  /** A struct decoded from an object whose members fold to `r`. */
  lemma DecodeStructFrom<S>(prior: S, v: JValue, ms: seq<Member>, step: (S, Member) -> Result<S, Error>, r: Result<S, Error>)
    requires v == JObject(ms) && FoldMembers(prior, ms, step) == r
    ensures DecodeStruct(prior, v, step) == r
  {
  }

  /** A Go map keyed by string (`None` is the nil map): `null` makes it nil;
      an object makes it when it is nil and stores each member, the element
      decoded from its zero value, a later key overwriting an earlier one. */
  function DecodeMap<V>(prior: Option<map<string, V>>, v: JValue, elem: JValue -> Result<V, Error>): Result<Option<map<string, V>>, Error> {
    match v
    case JNull => Ok(None)
    case JObject(ms) =>
      var m :- DecodeEntries(if prior.Some? then prior.value else map[], ms, elem);
      Ok(Some(m))
    case _ => Err(TypeError)
  }

  function DecodeEntries<V>(acc: map<string, V>, ms: seq<Member>, elem: JValue -> Result<V, Error>): Result<map<string, V>, Error>
    decreases |ms|
  {
    if ms == [] then Ok(acc)
    else
      var x :- elem(ms[0].value);
      DecodeEntries(acc[ms[0].key := x], ms[1..], elem)
  }

  /** A Go slice (`None` is the nil slice): `null` makes it nil; an array
      gives a slice of its length whose element `i` is decoded into the old
      element `i` when there was one and into `zero` otherwise; `[]` gives
      an empty slice that is not nil. */
  function DecodeSlice<T>(prior: Option<seq<T>>, v: JValue, zero: T, elem: (T, JValue) -> Result<T, Error>): Result<Option<seq<T>>, Error> {
    match v
    case JNull => Ok(None)
    case JArray(xs) =>
      var s :- DecodeElements(if prior.Some? then prior.value else [], xs, zero, elem);
      Ok(Some(s))
    case _ => Err(TypeError)
  }

  function DecodeElements<T>(olds: seq<T>, xs: seq<JValue>, zero: T, elem: (T, JValue) -> Result<T, Error>): Result<seq<T>, Error>
    decreases |xs|
  {
    if xs == [] then Ok([])
    else
      var x :- elem(if olds != [] then olds[0] else zero, xs[0]);
      var rest :- DecodeElements(if olds != [] then olds[1..] else [], xs[1..], zero, elem);
      Ok([x] + rest)
  }

  /** A map is written as an object whose members come in increasing key
      order; the nil map as `null`. */
  function EncodeMap<V>(m: Option<map<string, V>>, elem: V -> JValue): JValue {
    match m
    case None => JNull
    case Some(m) => JObject(EntriesOf(SortedKeys(m), m, elem))
  }

  function EntriesOf<V>(ks: seq<string>, m: map<string, V>, elem: V -> JValue): (ms: seq<Member>)
    requires forall k | k in ks :: k in m
    ensures |ms| == |ks|
    ensures forall i | 0 <= i < |ks| :: ms[i] == Member(ks[i], elem(m[ks[i]]))
  {
    if ks == [] then [] else [Member(ks[0], elem(m[ks[0]]))] + EntriesOf(ks[1..], m, elem)
  }

  /** A slice is written as an array; the nil slice as `null`. */
  function EncodeSlice<T>(s: Option<seq<T>>, elem: T -> JValue): JValue {
    match s
    case None => JNull
    case Some(xs) => JArray(ElementsOf(xs, elem))
  }

  function ElementsOf<T>(xs: seq<T>, elem: T -> JValue): (ys: seq<JValue>)
    ensures |ys| == |xs|
    ensures forall i | 0 <= i < |xs| :: ys[i] == elem(xs[i])
  {
    if xs == [] then [] else [elem(xs[0])] + ElementsOf(xs[1..], elem)
  }

  /** `omitempty` on a map or a slice: nil and length zero alike. */
  predicate EmptyMap<V>(m: Option<map<string, V>>) {
    m.None? || |m.value| == 0
  }

  predicate EmptySlice<T>(s: Option<seq<T>>) {
    s.None? || |s.value| == 0
  }

  /** A struct's members, field by field in declaration order: `Field`
      always writes its member, `OmitEmpty` only when the field is not
      empty. */
  function Field(name: string, v: JValue, rest: seq<Member>): seq<Member> {
    [Member(name, v)] + rest
  }

  function OmitEmpty(empty: bool, name: string, v: JValue, rest: seq<Member>): seq<Member> {
    if empty then rest else [Member(name, v)] + rest
  }

  /** The keys of a member list, in order. */
  function MemberKeys(ms: seq<Member>): seq<string>
    decreases |ms|
  {
    if ms == [] then [] else [ms[0].key] + MemberKeys(ms[1..])
  }

  /** The one-key list when `present` holds, and the empty one otherwise. */
  function IfSet(present: bool, key: string): seq<string> {
    if present then [key] else []
  }

  /** Regrouping a right-nested concatenation of key lists. */
  lemma Regroup<T>(a: seq<T>, b: seq<T>, c: seq<T>, d: seq<T>, e: seq<T>)
    ensures a + (b + (c + (d + e))) == a + b + c + d + e
  {
  }

  lemma Regroup3<T>(a: seq<T>, b: seq<T>, c: seq<T>, d: seq<T>)
    ensures a + ((b + c) + d) == a + b + c + d
  {
  }

  lemma Cons2<T>(x: T, y: T, s: seq<T>)
    ensures [x] + ([y] + s) == [x, y] + s
  {
  }

  lemma Cons3<T>(x: T, y: T, z: T, s: seq<T>)
    ensures [x] + ([y] + ([z] + s)) == [x, y, z] + s
  {
  }

  lemma FieldKeys(name: string, v: JValue, rest: seq<Member>)
    ensures MemberKeys(Field(name, v, rest)) == [name] + MemberKeys(rest)
  {
    assert Field(name, v, rest)[1..] == rest;
  }

  lemma OmitEmptyKeys(empty: bool, name: string, v: JValue, rest: seq<Member>)
    ensures MemberKeys(OmitEmpty(empty, name, v, rest)) == IfSet(!empty, name) + MemberKeys(rest)
  {
    if !empty { FieldKeys(name, v, rest); }
  }

  /** The struct field an object key selects: the field whose name is the
      key itself, or else the one whose name equals it up to ASCII case. */
  function FieldOf<F>(named: string -> Option<F>, key: string): Option<F> {
    if named(key).Some? then named(key) else named(ToLower(key))
  }

  /** A pointer to a struct (`None` is nil): `null` makes it nil; anything
      else is decoded into the struct it points to, made when it is nil. */
  function DecodePointer<S>(prior: Option<S>, v: JValue, zero: S, step: (S, Member) -> Result<S, Error>): Result<Option<S>, Error> {
    if v.JNull? then Ok(None)
    else
      var s :- DecodeStruct(if prior.Some? then prior.value else zero, v, step);
      Ok(Some(s))
  }

  /** The values of a map, each passed through `f`. */
  function MapValues<V>(m: Option<map<string, V>>, f: V -> V): (r: Option<map<string, V>>)
    ensures r.Some? <==> m.Some?
    ensures r.Some? ==> r.value.Keys == m.value.Keys && |r.value| == |m.value|
  {
    match m
    case None => None
    case Some(m) =>
      var r := map k | k in m :: f(m[k]);
      assert r.Keys == m.Keys;
      Some(r)
  }

  /** What an `omitempty` map reads back as: an empty one is not written and
      comes back nil. */
  function NilIfEmpty<V>(m: Option<map<string, V>>): (r: Option<map<string, V>>)
    ensures EmptyMap(m) <==> r.None?
    ensures r.Some? ==> r == m
  {
    if EmptyMap(m) then None else m
  }

  function NilIfEmptySlice<T>(s: Option<seq<T>>): (r: Option<seq<T>>)
    ensures EmptySlice(s) <==> r.None?
    ensures r.Some? ==> r == s
  {
    if EmptySlice(s) then None else s
  }

  /** The elements of `m` at the keys `ks`, each passed through `canon`. */
  function Picked<V>(ks: seq<string>, m: map<string, V>, canon: V -> V): (r: map<string, V>)
    requires forall k | k in ks :: k in m
    ensures forall k :: k in r <==> k in ks
  {
    map k | k in ks :: canon(m[k])
  }

  /** Decoding the members of a map's encoding stores, for every key, the
      decoded element. */
  lemma {:induction false} DecodeEntriesOf<V>(acc: map<string, V>, ks: seq<string>, m: map<string, V>,
                                               enc: V -> JValue, dec: JValue -> Result<V, Error>, canon: V -> V)
    requires forall k | k in ks :: k in m
    requires forall x :: dec(enc(x)) == Ok(canon(x))
    ensures DecodeEntries(acc, EntriesOf(ks, m, enc), dec) == Ok(acc + Picked(ks, m, canon))
    decreases |ks|
  {
    if ks == [] {
      assert EntriesOf(ks, m, enc) == [];
      assert Picked(ks, m, canon) == map[];
      assert acc + Picked(ks, m, canon) == acc;
    } else {
      var acc' := acc[ks[0] := canon(m[ks[0]])];
      DecodeFirstEntry(acc, ks, m, enc, dec, canon);
      DecodeEntriesOf(acc', ks[1..], m, enc, dec, canon);
      InsertThenRest(acc, ks, m, canon);
    }
  }

  /** One step of `DecodeEntries` over a map's encoding. */
  lemma DecodeFirstEntry<V>(acc: map<string, V>, ks: seq<string>, m: map<string, V>,
                            enc: V -> JValue, dec: JValue -> Result<V, Error>, canon: V -> V)
    requires ks != [] && forall k | k in ks :: k in m
    requires dec(enc(m[ks[0]])) == Ok(canon(m[ks[0]]))
    ensures DecodeEntries(acc, EntriesOf(ks, m, enc), dec)
         == DecodeEntries(acc[ks[0] := canon(m[ks[0]])], EntriesOf(ks[1..], m, enc), dec)
  {
    var ms := EntriesOf(ks, m, enc);
    assert ms[0] == Member(ks[0], enc(m[ks[0]]));
    assert ms[1..] == EntriesOf(ks[1..], m, enc);
  }

  lemma InsertThenRest<V>(acc: map<string, V>, ks: seq<string>, m: map<string, V>, canon: V -> V)
    requires ks != [] && forall k | k in ks :: k in m
    ensures acc[ks[0] := canon(m[ks[0]])] + Picked(ks[1..], m, canon) == acc + Picked(ks, m, canon)
  {
  }

  /** A map decoded from its own encoding: every element comes back as
      `canon` says, the keys all come back, and nil stays nil. */
  lemma DecodeEncodeMap<V>(m: Option<map<string, V>>, enc: V -> JValue, dec: JValue -> Result<V, Error>, canon: V -> V)
    requires forall x :: dec(enc(x)) == Ok(canon(x))
    ensures DecodeMap(None, EncodeMap(m, enc), dec) == Ok(MapValues(m, canon))
  {
    if m.Some? {
      DecodeEncodeEntries(m.value, enc, dec, canon);
    }
  }

  lemma DecodeEncodeEntries<V>(m: map<string, V>, enc: V -> JValue, dec: JValue -> Result<V, Error>, canon: V -> V)
    requires forall x :: dec(enc(x)) == Ok(canon(x))
    ensures DecodeEntries(map[], EntriesOf(SortedKeys(m), m, enc), dec) == Ok(map k | k in m :: canon(m[k]))
  {
    var ks := SortedKeys(m);
    DecodeEntriesOf(map[], ks, m, enc, dec, canon);
    AllKeys(ks, m, canon);
  }

  /** Folding a list that starts with a member the step accepts. */
  lemma FoldFirst<S>(p: S, m: Member, rest: seq<Member>, step: (S, Member) -> Result<S, Error>)
    requires step(p, m).Ok?
    ensures FoldMembers(p, [m] + rest, step) == FoldMembers(step(p, m).value, rest, step)
  {
    assert ([m] + rest)[1..] == rest;
  }

  /** One field of a struct's member list, decoded into `p`, gives `p'`. */
  lemma FoldField<S>(p: S, name: string, v: JValue, rest: seq<Member>, step: (S, Member) -> Result<S, Error>, p': S)
    requires step(p, Member(name, v)) == Ok(p')
    ensures FoldMembers(p, Field(name, v, rest), step) == FoldMembers(p', rest, step)
  {
    FoldFirst(p, Member(name, v), rest, step);
  }

  /** The same for an `omitempty` field; an omitted one leaves `p` as it is. */
  lemma FoldOmitEmpty<S>(p: S, empty: bool, name: string, v: JValue, rest: seq<Member>, step: (S, Member) -> Result<S, Error>, p': S)
    requires empty ==> p' == p
    requires !empty ==> step(p, Member(name, v)) == Ok(p')
    ensures FoldMembers(p, OmitEmpty(empty, name, v, rest), step) == FoldMembers(p', rest, step)
  {
    if !empty {
      FoldFirst(p, Member(name, v), rest, step);
    }
  }

  /** The identity, as a named function so that every use is the same one. */
  function Same<V>(x: V): V { x }

  lemma MapValuesIdentity<V>(m: Option<map<string, V>>)
    ensures MapValues(m, Same) == m
  {
    if m.Some? {
      assert MapValues(m, Same).value == m.value;
    }
  }

  lemma AllKeys<V>(ks: seq<string>, m: map<string, V>, canon: V -> V)
    requires forall k :: k in ks <==> k in m
    ensures map[] + Picked(ks, m, canon) == map k | k in m :: canon(m[k])
  {
  }

  lemma {:induction false} EntriesOfValues<V>(ks: seq<string>, m: map<string, V>, m': map<string, V>, enc: V -> JValue)
    requires forall k | k in ks :: k in m && k in m' && enc(m'[k]) == enc(m[k])
    ensures EntriesOf(ks, m', enc) == EntriesOf(ks, m, enc)
  {
  }

  /** Changing elements in a way the element encoder does not see does not
      change the map's encoding. */
  lemma EncodeMapValues<V>(m: Option<map<string, V>>, enc: V -> JValue, canon: V -> V)
    requires forall x :: enc(canon(x)) == enc(x)
    ensures EncodeMap(MapValues(m, canon), enc) == EncodeMap(m, enc)
  {
    if m.Some? {
      var m' := MapValues(m, canon).value;
      SortedKeysOfKeys(m', m.value);
      EntriesOfValues(SortedKeys(m.value), m.value, m', enc);
    }
  }

  lemma {:induction false} DecodeElementsOf<T>(xs: seq<T>, enc: T -> JValue, zero: T, dec: (T, JValue) -> Result<T, Error>)
    requires forall x :: dec(zero, enc(x)) == Ok(x)
    ensures DecodeElements([], ElementsOf(xs, enc), zero, dec) == Ok(xs)
    decreases |xs|
  {
    if xs != [] {
      assert dec(zero, enc(xs[0])) == Ok(xs[0]);
      DecodeElementsOf(xs[1..], enc, zero, dec);
      DecodeFirstElement(xs, enc, zero, dec);
    }
  }

  /** One step of `DecodeElements` over a slice's encoding. */
  lemma DecodeFirstElement<T>(xs: seq<T>, enc: T -> JValue, zero: T, dec: (T, JValue) -> Result<T, Error>)
    requires xs != [] && dec(zero, enc(xs[0])) == Ok(xs[0])
    requires DecodeElements([], ElementsOf(xs[1..], enc), zero, dec) == Ok(xs[1..])
    ensures DecodeElements([], ElementsOf(xs, enc), zero, dec) == Ok(xs)
  {
    var ys := ElementsOf(xs, enc);
    assert ys[1..] == ElementsOf(xs[1..], enc);
    assert [xs[0]] + xs[1..] == xs;
  }

  /** A slice decoded from its own encoding, into a nil slice, is itself. */
  lemma DecodeEncodeSlice<T>(s: Option<seq<T>>, enc: T -> JValue, zero: T, dec: (T, JValue) -> Result<T, Error>)
    requires forall x :: dec(zero, enc(x)) == Ok(x)
    ensures DecodeSlice(None, EncodeSlice(s, enc), zero, dec) == Ok(s)
  {
    if s.Some? {
      DecodeElementsOf(s.value, enc, zero, dec);
    }
  }

  /** Only integer lexemes occur in a map's or a slice's encoding when the
      element encoder writes only those. */
  lemma EncodeMapWellFormed<V>(m: Option<map<string, V>>, enc: V -> JValue)
    requires forall x :: WellFormed(enc(x))
    ensures WellFormed(EncodeMap(m, enc))
  {
  }

  lemma EncodeSliceWellFormed<T>(s: Option<seq<T>>, enc: T -> JValue)
    requires forall x :: WellFormed(enc(x))
    ensures WellFormed(EncodeSlice(s, enc))
  {
  }
}
