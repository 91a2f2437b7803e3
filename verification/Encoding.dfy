/**
  Canonical encodings: semantic-context identity (crates/aeon_agent_runtime/src/agent.rs:195-257), JSON
  key order, length framing and hexadecimal digests (crates/aeon_agent_runtime/src/digest.rs).
 */
module Encoding {
  import opened Basics
  import opened Canonical

  // ---------------------------------------------------------------- semantic contexts

  datatype SemanticContext = SemanticContext(
    version: nat,
    model: int,
    instruction: int,
    registryRoot: int,
    tools: seq<int>,
    schema: int,
    policyEpoch: nat,
    memory: Option<int>,
    retrieval: Option<int>)

  /** agent.rs:195-240: the version is audit metadata, the tools are a set. */
  function ContextIdentity(c: SemanticContext): SemanticContext {
    c.(version := 0, tools := SortDedup(IntLess, c.tools))
  }

  /** agent.rs:245-257 */
  function ValidateContextContinuation(original: SemanticContext, current: SemanticContext): Result<()> {
    if original == ContextIdentity(current) then Ok(()) else Err(SemanticContextChanged)
  }

  /** A context continues another exactly when they differ only in version and in the order and
      repeats of tools. */
  lemma ContextContinuesExactly(a: SemanticContext, b: SemanticContext)
    ensures ValidateContextContinuation(ContextIdentity(a), b).Ok? <==>
            a.(version := 0, tools := []) == b.(version := 0, tools := []) && Elems(a.tools) == Elems(b.tools)
  {
    IntLessTotal();
    SortDedupExact(IntLess, a.tools, b.tools);
  }

  // ---------------------------------------------------------------- JSON

  type Key = seq<int>

  datatype Json =
    | Atom(value: int)
    | Array(items: seq<Json>)
    | Object(fields: seq<Field>)

  datatype Field = Field(key: Key, value: Json)

  /** Object keys are unique, as in a parsed value. */
  predicate UniqueKeys(fields: seq<Field>) {
    forall i, j :: 0 <= i < j < |fields| ==> fields[i].key != fields[j].key
  }

  predicate WellFormed(j: Json) {
    match j
    case Atom(_) => true
    case Array(items) => forall i :: 0 <= i < |items| ==> WellFormed(items[i])
    case Object(fields) => UniqueKeys(fields) && forall i :: 0 <= i < |fields| ==> WellFormed(fields[i].value)
  }

  function InsertField(f: Field, sorted: seq<Field>): seq<Field> {
    if sorted == [] || !LexLess(sorted[0].key, f.key) then [f] + sorted
    else [sorted[0]] + InsertField(f, sorted[1..])
  }

  function SortFields(fields: seq<Field>): seq<Field> {
    if fields == [] then [] else InsertField(fields[0], SortFields(fields[1..]))
  }

  /** digest.rs:195-209; sorting looks at keys only, so it commutes with canonicalizing the values */
  function CanonicalizeJson(j: Json): Json {
    match j
    case Atom(_) => j
    case Array(items) => Array(seq(|items|, i requires 0 <= i < |items| => CanonicalizeJson(items[i])))
    case Object(fields) =>
      Object(SortFields(seq(|fields|, i requires 0 <= i < |fields| =>
        Field(fields[i].key, CanonicalizeJson(fields[i].value)))))
  }

  function Get(fields: seq<Field>, key: Key): Option<Json> {
    if fields == [] then None
    else if fields[0].key == key then Some(fields[0].value)
    else Get(fields[1..], key)
  }

  /** Equality of JSON values that does not look at key order. */
  ghost predicate Same(a: Json, b: Json) {
    match a
    case Atom(_) => a == b
    case Array(items) =>
      b.Array? && |b.items| == |items| && forall i :: 0 <= i < |items| ==> Same(items[i], b.items[i])
    case Object(fields) =>
      && b.Object?
      && (forall key :: Get(fields, key).Some? <==> Get(b.fields, key).Some?)
      && forall i :: 0 <= i < |fields| ==>
           Get(b.fields, fields[i].key).Some? && Same(fields[i].value, Get(b.fields, fields[i].key).value)
  }

  predicate KeysAscend(fields: seq<Field>) {
    forall i, j :: 0 <= i < j < |fields| ==> LexLess(fields[i].key, fields[j].key)
  }

  lemma {:induction false} GetAt(fields: seq<Field>, i: nat)
    requires UniqueKeys(fields) && i < |fields|
    ensures Get(fields, fields[i].key) == Some(fields[i].value)
  {
    if i > 0 { GetAt(fields[1..], i - 1); }
  }

  lemma {:induction false} GetFinds(fields: seq<Field>, key: Key) returns (i: nat)
    requires Get(fields, key).Some?
    ensures i < |fields| && fields[i].key == key && Get(fields, key) == Some(fields[i].value)
  {
    if fields[0].key == key {
      i := 0;
    } else {
      i := GetFinds(fields[1..], key);
      i := i + 1;
    }
  }

  lemma {:induction false} InsertFieldKeeps(f: Field, sorted: seq<Field>)
    requires KeysAscend(sorted) && Get(sorted, f.key) == None
    ensures KeysAscend(InsertField(f, sorted))
    ensures forall key :: Get(InsertField(f, sorted), key) == if key == f.key then Some(f.value) else Get(sorted, key)
    ensures forall x :: x in InsertField(f, sorted) <==> x == f || x in sorted
  {
    LexLessTotal();
    var r := InsertField(f, sorted);
    if sorted == [] || !LexLess(sorted[0].key, f.key) {
      assert r[1..] == sorted;
      assert sorted != [] ==> LexLess(f.key, sorted[0].key);
    } else {
      InsertFieldKeeps(f, sorted[1..]);
      assert r[1..] == InsertField(f, sorted[1..]);
      assert sorted == [sorted[0]] + sorted[1..];
      forall i | 1 <= i < |r| ensures LexLess(r[0].key, r[i].key) {
        assert r[i] in r[1..];
      }
    }
  }

  lemma {:induction false} SortFieldsKeeps(fields: seq<Field>)
    requires UniqueKeys(fields)
    ensures KeysAscend(SortFields(fields))
    ensures forall key :: Get(SortFields(fields), key) == Get(fields, key)
  {
    if fields != [] {
      SortFieldsKeeps(fields[1..]);
      if Get(fields[1..], fields[0].key).Some? { var i := GetFinds(fields[1..], fields[0].key); }
      InsertFieldKeeps(fields[0], SortFields(fields[1..]));
    }
  }

  lemma AscendingKeysUnique(fields: seq<Field>)
    requires KeysAscend(fields)
    ensures UniqueKeys(fields)
  {
    LexLessTotal();
  }

  /** Key-ascending objects with the same entries are the same. */
  lemma {:induction false} SameEntriesSameFields(a: seq<Field>, b: seq<Field>)
    requires KeysAscend(a) && KeysAscend(b) && forall key :: Get(a, key) == Get(b, key)
    ensures a == b
  {
    assert a != [] ==> Get(a, a[0].key).Some?;
    assert b != [] ==> Get(b, b[0].key).Some?;
    if a != [] && b != [] {
      FirstKeyAgrees(a, b);
      forall key ensures Get(a[1..], key) == Get(b[1..], key) {
        assert Get(a, key) == Get(b, key);
        HeadKeyGone(a);
        HeadKeyGone(b);
      }
      SameEntriesSameFields(a[1..], b[1..]);
    }
  }

  lemma FirstKeyAgrees(a: seq<Field>, b: seq<Field>)
    requires a != [] && b != [] && KeysAscend(a) && KeysAscend(b) && forall key :: Get(a, key) == Get(b, key)
    ensures a[0] == b[0]
  {
    LexLessTotal();
    assert Get(a, a[0].key) == Some(a[0].value) && Get(b, b[0].key) == Some(b[0].value);
    var i := GetFinds(b, a[0].key);
    var j := GetFinds(a, b[0].key);
  }

  lemma HeadKeyGone(a: seq<Field>)
    requires a != [] && KeysAscend(a)
    ensures Get(a[1..], a[0].key) == None
  {
    LexLessTotal();
    if Get(a[1..], a[0].key).Some? { var i := GetFinds(a[1..], a[0].key); }
  }

  /** The fields of an object with their values canonicalized. */
  function Mapped(fields: seq<Field>): (r: seq<Field>)
    ensures |r| == |fields|
    ensures forall i :: 0 <= i < |r| ==> r[i] == Field(fields[i].key, CanonicalizeJson(fields[i].value))
  {
    seq(|fields|, i requires 0 <= i < |fields| => Field(fields[i].key, CanonicalizeJson(fields[i].value)))
  }

  lemma CanonicalObject(fields: seq<Field>)
    ensures CanonicalizeJson(Object(fields)) == Object(SortFields(Mapped(fields)))
  {
    assert CanonicalizeJson(Object(fields)).fields ==
           SortFields(seq(|fields|, i requires 0 <= i < |fields| =>
             Field(fields[i].key, CanonicalizeJson(fields[i].value))));
    assert seq(|fields|, i requires 0 <= i < |fields| => Field(fields[i].key, CanonicalizeJson(fields[i].value)))
        == Mapped(fields);
  }

  lemma {:induction false} GetMapped(fields: seq<Field>, key: Key)
    ensures Get(Mapped(fields), key) ==
            match Get(fields, key) case None => None case Some(v) => Some(CanonicalizeJson(v))
  {
    if fields != [] {
      GetMapped(fields[1..], key);
      assert Mapped(fields)[1..] == Mapped(fields[1..]);
    }
  }

  /** Entries of the canonical object, by key. */
  lemma CanonicalGet(fields: seq<Field>, key: Key)
    requires UniqueKeys(fields)
    ensures KeysAscend(SortFields(Mapped(fields)))
    ensures Get(SortFields(Mapped(fields)), key) ==
            match Get(fields, key) case None => None case Some(v) => Some(CanonicalizeJson(v))
  {
    assert forall i :: 0 <= i < |fields| ==> Mapped(fields)[i].key == fields[i].key;
    SortFieldsKeeps(Mapped(fields));
    GetMapped(fields, key);
  }

  // ---------------------------------------------------------------- canonical JSON is exact

  lemma {:induction false} SameIsCanonical(a: Json, b: Json)
    requires WellFormed(a) && WellFormed(b) && Same(a, b)
    ensures CanonicalizeJson(a) == CanonicalizeJson(b)
    decreases a
  {
    match a
    case Atom(_) =>
    case Array(items) =>
      forall i | 0 <= i < |items| ensures CanonicalizeJson(items[i]) == CanonicalizeJson(b.items[i]) {
        SameIsCanonical(items[i], b.items[i]);
      }
      assert CanonicalizeJson(a).items == CanonicalizeJson(b).items;
    case Object(fields) =>
      CanonicalObject(fields);
      CanonicalObject(b.fields);
      forall key ensures Get(SortFields(Mapped(fields)), key) == Get(SortFields(Mapped(b.fields)), key) {
        CanonicalGet(fields, key);
        CanonicalGet(b.fields, key);
        assert Get(fields, key).Some? <==> Get(b.fields, key).Some?;
        if Get(fields, key).Some? {
          var i := GetFinds(fields, key);
          var j := GetFinds(b.fields, key);
          SameIsCanonical(fields[i].value, b.fields[j].value);
        }
      }
      CanonicalGet(fields, []);
      CanonicalGet(b.fields, []);
      SameEntriesSameFields(SortFields(Mapped(fields)), SortFields(Mapped(b.fields)));
  }

  lemma {:induction false} CanonicalIsSame(a: Json, b: Json)
    requires WellFormed(a) && WellFormed(b) && CanonicalizeJson(a) == CanonicalizeJson(b)
    ensures Same(a, b)
    decreases a
  {
    match a
    case Atom(_) =>
    case Array(items) =>
      forall i | 0 <= i < |items| ensures Same(items[i], b.items[i]) {
        assert CanonicalizeJson(a).items[i] == CanonicalizeJson(b).items[i];
        CanonicalIsSame(items[i], b.items[i]);
      }
    case Object(fields) =>
      CanonicalObject(fields);
      CanonicalObject(b.fields);
      forall key ensures Get(fields, key).Some? <==> Get(b.fields, key).Some? {
        CanonicalGet(fields, key);
        CanonicalGet(b.fields, key);
      }
      forall i | 0 <= i < |fields|
        ensures Get(b.fields, fields[i].key).Some? && Same(fields[i].value, Get(b.fields, fields[i].key).value)
      {
        var key := fields[i].key;
        GetAt(fields, i);
        CanonicalGet(fields, key);
        CanonicalGet(b.fields, key);
        var j := GetFinds(b.fields, key);
        CanonicalIsSame(fields[i].value, b.fields[j].value);
      }
  }

  /** Canonical forms are equal exactly when the values are equal up to key order, at every depth. */
  lemma CanonicalJsonExact(a: Json, b: Json)
    requires WellFormed(a) && WellFormed(b)
    ensures CanonicalizeJson(a) == CanonicalizeJson(b) <==> Same(a, b)
  {
    if Same(a, b) { SameIsCanonical(a, b); }
    if CanonicalizeJson(a) == CanonicalizeJson(b) { CanonicalIsSame(a, b); }
  }

  /** Canonicalizing keeps the value and changes only key order, so doing it twice is doing it once. */
  lemma {:induction false} CanonicalKeepsValue(a: Json)
    requires WellFormed(a)
    ensures WellFormed(CanonicalizeJson(a)) && Same(a, CanonicalizeJson(a))
    decreases a
  {
    match a
    case Atom(_) =>
    case Array(items) =>
      forall i | 0 <= i < |items|
        ensures WellFormed(CanonicalizeJson(items[i])) && Same(items[i], CanonicalizeJson(items[i]))
      {
        CanonicalKeepsValue(items[i]);
      }
    case Object(fields) =>
      CanonicalObject(fields);
      var sorted := SortFields(Mapped(fields));
      CanonicalGet(fields, []);
      AscendingKeysUnique(sorted);
      forall key ensures Get(fields, key).Some? <==> Get(sorted, key).Some? { CanonicalGet(fields, key); }
      forall i | 0 <= i < |fields|
        ensures Get(sorted, fields[i].key).Some? && Same(fields[i].value, Get(sorted, fields[i].key).value)
      {
        GetAt(fields, i);
        CanonicalGet(fields, fields[i].key);
        CanonicalKeepsValue(fields[i].value);
      }
      forall i | 0 <= i < |sorted| ensures WellFormed(sorted[i].value) {
        GetAt(sorted, i);
        CanonicalGet(fields, sorted[i].key);
        var j := GetFinds(fields, sorted[i].key);
        CanonicalKeepsValue(fields[j].value);
      }
  }

  lemma CanonicalJsonIdempotent(a: Json)
    requires WellFormed(a)
    ensures CanonicalizeJson(CanonicalizeJson(a)) == CanonicalizeJson(a)
  {
    CanonicalKeepsValue(a);
    CanonicalJsonExact(a, CanonicalizeJson(a));
  }

  // ---------------------------------------------------------------- length framing

  type Byte = b: int | 0 <= b < 256

  const MAX_DOMAIN: int := 0xFFFF_FFFF
  const MAX_PAYLOAD: int := 0xFFFF_FFFF_FFFF_FFFF

  /** Big-endian bytes of `n` in the given width. */
  function BigEndian(n: nat, width: nat): (r: seq<Byte>)
    ensures |r| == width
  {
    if width == 0 then [] else BigEndian(n / 256, width - 1) + [n % 256]
  }

  function FromBigEndian(bytes: seq<Byte>): nat {
    if bytes == [] then 0 else FromBigEndian(bytes[..|bytes| - 1]) * 256 + bytes[|bytes| - 1]
  }

  function Power256(width: nat): nat {
    if width == 0 then 1 else 256 * Power256(width - 1)
  }

  lemma {:induction false} BigEndianRoundTrip(n: nat, width: nat)
    requires n < Power256(width)
    ensures FromBigEndian(BigEndian(n, width)) == n
  {
    if width > 0 {
      BigEndianRoundTrip(n / 256, width - 1);
      var r := BigEndian(n, width);
      assert r[..width - 1] == BigEndian(n / 256, width - 1);
    }
  }

  /** digest.rs:161-185 after serialization */
  method CanonicalBytes(domain: seq<Byte>, encoded: seq<Byte>) returns (r: Result<seq<Byte>>)
    ensures r.Ok? <==> 0 < |domain| <= MAX_DOMAIN && |encoded| <= MAX_PAYLOAD
    ensures r.Err? ==> r.error == InvalidInput
    ensures r.Ok? ==> r.value == Framed(domain, encoded)
  {
    if |domain| == 0 {
      return Err(InvalidInput);
    }
    if |domain| > MAX_DOMAIN || |encoded| > MAX_PAYLOAD {
      return Err(InvalidInput);
    }
    var output := BigEndian(|domain|, 4);
    output := output + domain;
    output := output + BigEndian(|encoded|, 8);
    output := output + encoded;
    return Ok(output);
  }

  /** A byte string behind its big-endian length. */
  function Part(width: nat, s: seq<Byte>): seq<Byte> {
    BigEndian(|s|, width) + s
  }

  function Framed(domain: seq<Byte>, encoded: seq<Byte>): seq<Byte> {
    Part(4, domain) + Part(8, encoded)
  }

  /** A reader of one part: its content and what follows. */
  function ReadPart(width: nat, bytes: seq<Byte>): Option<(seq<Byte>, seq<Byte>)> {
    if |bytes| < width then None
    else
      var n := FromBigEndian(bytes[..width]);
      var rest := bytes[width..];
      if |rest| < n then None else Some((rest[..n], rest[n..]))
  }

  /** A reader of frames: domain, payload and what follows. */
  function Unframe(bytes: seq<Byte>): Option<(seq<Byte>, seq<Byte>, seq<Byte>)> {
    match ReadPart(4, bytes)
    case None => None
    case Some((domain, rest)) =>
      match ReadPart(8, rest)
      case None => None
      case Some((encoded, tail)) => Some((domain, encoded, tail))
  }

  lemma PartRoundTrip(width: nat, s: seq<Byte>, rest: seq<Byte>)
    requires |s| < Power256(width)
    ensures ReadPart(width, Part(width, s) + rest) == Some((s, rest))
  {
    BigEndianRoundTrip(|s|, width);
    var bytes := Part(width, s) + rest;
    assert bytes[..width] == BigEndian(|s|, width);
    assert bytes[width..] == s + rest;
  }

  lemma FrameRoundTrip(domain: seq<Byte>, encoded: seq<Byte>, rest: seq<Byte>)
    requires |domain| <= MAX_DOMAIN && |encoded| <= MAX_PAYLOAD
    ensures Unframe(Framed(domain, encoded) + rest) == Some((domain, encoded, rest))
  {
    PowersFit();
    PartRoundTrip(4, domain, Part(8, encoded) + rest);
    PartRoundTrip(8, encoded, rest);
    assert Framed(domain, encoded) + rest == Part(4, domain) + (Part(8, encoded) + rest);
  }

  lemma PowersFit()
    ensures Power256(4) == MAX_DOMAIN + 1 && Power256(8) == MAX_PAYLOAD + 1
  {
    assert Power256(4) == 256 * 256 * 256 * 256;
    assert Power256(8) == 256 * 256 * 256 * 256 * Power256(4);
  }

  /** Framing is injective and prefix-free over (domain, payload). */
  lemma FramesPrefixFree(d1: seq<Byte>, p1: seq<Byte>, d2: seq<Byte>, p2: seq<Byte>)
    requires |d1| <= MAX_DOMAIN && |p1| <= MAX_PAYLOAD && |d2| <= MAX_DOMAIN && |p2| <= MAX_PAYLOAD
    requires Framed(d1, p1) <= Framed(d2, p2)
    ensures d1 == d2 && p1 == p2
  {
    var a, b := Framed(d1, p1), Framed(d2, p2);
    FrameRoundTrip(d1, p1, b[|a|..]);
    FrameRoundTrip(d2, p2, []);
    assert a + b[|a|..] == b + [];
  }

  // ---------------------------------------------------------------- hexadecimal digests

  const DIGEST_BYTES: nat := 32

  type Nibble = n: int | 0 <= n < 16

  function HexDigit(n: Nibble): char {
    "0123456789abcdef"[n]
  }

  /** digest.rs:65-71: lowercase only */
  function DecodeHex(c: char): Option<Nibble> {
    if '0' <= c <= '9' then Some(c as int - '0' as int)
    else if 'a' <= c <= 'f' then Some(c as int - 'a' as int + 10)
    else None
  }

  function HexPair(b: Byte): (s: string)
    ensures |s| == 2
  {
    [HexDigit(b / 16), HexDigit(b % 16)]
  }

  function Join(high: Nibble, low: Nibble): Byte {
    var h: int, l: int := high, low;
    h * 16 + l
  }

  function HexOf(bytes: seq<Byte>): (s: string)
    ensures |s| == 2 * |bytes|
  {
    if bytes == [] then []
    else
      var n := |bytes| - 1;
      HexOf(bytes[..n]) + HexPair(bytes[n])
  }

  /** Pairs of digits from left to right; none if any character is not a lowercase digit. */
  function Unhex(s: string): Option<seq<Byte>> {
    if s == [] then Some([])
    else if |s| == 1 then None
    else
      var n := |s| - 2;
      match (Unhex(s[..n]), DecodeHex(s[n]), DecodeHex(s[n + 1]))
      case (Some(bytes), Some(high), Some(low)) => Some(bytes + [Join(high, low)])
      case _ => None
  }

  lemma DigitRoundTrip(c: char, n: Nibble)
    ensures DecodeHex(c) == Some(n) <==> c == HexDigit(n)
  {}

  lemma JoinExact(high: Nibble, low: Nibble, b: Byte)
    ensures Join(high, low) == b <==> high == b / 16 && low == b % 16
  {}

  lemma PairRoundTrip(c: char, d: char, b: Byte)
    ensures (DecodeHex(c).Some? && DecodeHex(d).Some? && Join(DecodeHex(c).value, DecodeHex(d).value) == b) <==>
              [c, d] == HexPair(b)
  {
    var high: Nibble, low: Nibble := b / 16, b % 16;
    DigitRoundTrip(c, high);
    DigitRoundTrip(d, low);
    assert [c, d] == HexPair(b) <==> c == HexDigit(high) && d == HexDigit(low) by {
      if [c, d] == HexPair(b) { assert [c, d][0] == HexPair(b)[0] && [c, d][1] == HexPair(b)[1]; }
    }
    if DecodeHex(c).Some? && DecodeHex(d).Some? { JoinExact(DecodeHex(c).value, DecodeHex(d).value, b); }
  }

  lemma SplitEqual(a: string, x: string, b: string, y: string)
    requires |x| == |y|
    ensures a + x == b + y <==> a == b && x == y
  {
    if a + x == b + y {
      assert a == (a + x)[..|a|] && b == (b + y)[..|b|];
      assert x == (a + x)[|a|..] && y == (b + y)[|b|..];
    }
  }

  /** The decoder accepts exactly the encoder's outputs and inverts it. */
  lemma {:induction false} HexRoundTrip(s: string, bytes: seq<Byte>)
    ensures Unhex(s) == Some(bytes) <==> s == HexOf(bytes)
    decreases |s|
  {
    if |s| >= 2 && bytes != [] {
      var n, m := |s| - 2, |bytes| - 1;
      HexRoundTrip(s[..n], bytes[..m]);
      PairRoundTrip(s[n], s[n + 1], bytes[m]);
      assert s == s[..n] + [s[n], s[n + 1]];
      assert bytes == bytes[..m] + [bytes[m]];
      SplitEqual(s[..n], [s[n], s[n + 1]], HexOf(bytes[..m]), HexPair(bytes[m]));
    }
  }

  lemma {:induction false} BadPrefix(s: string, n: nat)
    requires n <= |s| && (|s| - n) % 2 == 0 && Unhex(s[..n]) == None
    ensures Unhex(s) == None
    decreases |s|
  {
    if n == |s| {
      assert s[..n] == s;
    } else {
      assert s[..|s| - 2][..n] == s[..n];
      BadPrefix(s[..|s| - 2], n);
    }
  }

  /** digest.rs:34-41 */
  method ToHex(digest: seq<Byte>) returns (encoded: string)
    requires |digest| == DIGEST_BYTES
    ensures encoded == HexOf(digest)
  {
    encoded := "";
    for i := 0 to |digest|
      invariant encoded == HexOf(digest[..i])
    {
      assert digest[..i + 1][..i] == digest[..i];
      encoded := encoded + HexPair(digest[i]);
    }
    assert digest[..|digest|] == digest;
  }

  /** digest.rs:43-62 */
  method FromHex(value: string) returns (r: Result<seq<Byte>>)
    ensures r.Err? ==> r.error == InvalidInput
    ensures r.Ok? <==> |value| == 2 * DIGEST_BYTES && Unhex(value).Some?
    ensures r.Ok? ==> Unhex(value) == Some(r.value) && |r.value| == DIGEST_BYTES
  {
    if |value| != 2 * DIGEST_BYTES {
      return Err(InvalidInput);
    }
    var bytes: seq<Byte> := [];
    for i := 0 to DIGEST_BYTES
      invariant |bytes| == i
      invariant Unhex(value[..2 * i]) == Some(bytes)
    {
      var high, low := DecodeHex(value[2 * i]), DecodeHex(value[2 * i + 1]);
      assert value[..2 * i + 2][..2 * i] == value[..2 * i];
      if high == None || low == None {
        BadPrefix(value, 2 * i + 2);
        return Err(InvalidInput);
      }
      bytes := bytes + [Join(high.value, low.value)];
    }
    assert value[..2 * DIGEST_BYTES] == value;
    return Ok(bytes);
  }
}
