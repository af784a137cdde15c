/** The canonical string that names a cart line (src/modules/cart/cart.service.ts). */
module Signature {
  import opened Documents

  /** Attributes as they arrive: a Mongoose Map, a plain object, or nothing usable. Both list their entries in
      insertion order and name each key once. */
  datatype Attributes =
    | Absent
    | AsMap(entries: seq<(string, AttributeValue)>)
    | AsObject(entries: seq<(string, AttributeValue)>)

  predicate IsPrototypeKey(key: string) {
    key == "__proto__" || key == "constructor" || key == "prototype"
  }

  /** The entries written one after the other, prototype keys skipped. */
  function Written(entries: seq<(string, AttributeValue)>): map<string, AttributeValue> {
    if entries == [] then map[]
    else
      var (key, value) := entries[|entries| - 1];
      var earlier := Written(entries[..|entries| - 1]);
      if IsPrototypeKey(key) then earlier else earlier[key := value]
  }

  function Normalize(a: Attributes): map<string, AttributeValue> {
    match a
    case Absent => map[]
    case AsMap(entries) => Written(entries)
    case AsObject(entries) => Written(entries)
  }

  method NormalizeAttributes(a: Attributes) returns (result: map<string, AttributeValue>)
    ensures result == Normalize(a)
  {
    result := map[];
    if a.Absent? {
      return;
    }
    var i := 0;
    while i < |a.entries|
      invariant 0 <= i <= |a.entries|
      invariant result == Written(a.entries[..i])
    {
      var (key, value) := a.entries[i];
      assert a.entries[..i + 1][..i] == a.entries[..i];
      if !IsPrototypeKey(key) {
        result := result[key := value];
      }
      i := i + 1;
    }
    assert a.entries[..i] == a.entries;
  }

  /** `${value}` in a template string. */
  function ToText(v: AttributeValue): string {
    match v
    case Text(text) => text
    case Number(repr) => repr
    case Boolean(flag) => if flag then "true" else "false"
  }

  // ----- sorted keys

  predicate AtMost(a: string, b: string) {
    a == [] || (b != [] && (a[0] < b[0] || (a[0] == b[0] && AtMost(a[1..], b[1..]))))
  }

  lemma {:induction false} AtMostTotal(a: string, b: string)
    ensures AtMost(a, b) || AtMost(b, a)
  {
    if a != [] && b != [] && a[0] == b[0] {
      AtMostTotal(a[1..], b[1..]);
    }
  }

  lemma {:induction false} AtMostAntisymmetric(a: string, b: string)
    requires AtMost(a, b) && AtMost(b, a)
    ensures a == b
  {
    if a != [] && b != [] {
      AtMostAntisymmetric(a[1..], b[1..]);
      assert a == [a[0]] + a[1..] && b == [b[0]] + b[1..];
    }
  }

  lemma {:induction false} AtMostTransitive(a: string, b: string, c: string)
    requires AtMost(a, b) && AtMost(b, c)
    ensures AtMost(a, c)
  {
    if a != [] && a[0] == b[0] && b[0] == c[0] {
      AtMostTransitive(a[1..], b[1..], c[1..]);
    }
  }

  predicate IsLeast(key: string, keys: set<string>) {
    key in keys && forall k :: k in keys ==> AtMost(key, k)
  }

  lemma {:induction false} LeastExists(keys: set<string>)
    requires keys != {}
    ensures exists key :: IsLeast(key, keys)
  {
    var some :| some in keys;
    var rest := keys - {some};
    AtMostTotal(some, some);
    if rest == {} {
      assert forall k :: k in keys ==> k == some || k in rest;
      assert IsLeast(some, keys);
    } else {
      LeastExists(rest);
      var least :| IsLeast(least, rest);
      AtMostTotal(some, least);
      if AtMost(some, least) {
        forall k | k in keys
          ensures AtMost(some, k)
        {
          if k != some {
            AtMostTransitive(some, least, k);
          }
        }
        assert IsLeast(some, keys);
      } else {
        assert IsLeast(least, keys);
      }
    }
  }

  /** `Object.keys(normalized).sort()`. */
  function SortedKeys(keys: set<string>): (r: seq<string>)
    ensures |r| == |keys|
  {
    if keys == {} then []
    else
      LeastExists(keys);
      LeastIsUnique(keys);
      var key :| IsLeast(key, keys);
      [key] + SortedKeys(keys - {key})
  }

  lemma LeastIsUnique(keys: set<string>)
    ensures forall a, b :: IsLeast(a, keys) && IsLeast(b, keys) ==> a == b
  {
    forall a, b | IsLeast(a, keys) && IsLeast(b, keys)
      ensures a == b
    {
      AtMostAntisymmetric(a, b);
    }
  }

  predicate Ascending(ks: seq<string>) {
    forall i, j :: 0 <= i < j < |ks| ==> AtMost(ks[i], ks[j]) && ks[i] != ks[j]
  }

  predicate Enumerates(ks: seq<string>, keys: set<string>) {
    && (forall i :: 0 <= i < |ks| ==> ks[i] in keys)
    && (forall k :: k in keys ==> k in ks)
  }

  lemma {:induction false} SortedKeysSorts(keys: set<string>)
    ensures Ascending(SortedKeys(keys)) && Enumerates(SortedKeys(keys), keys)
  {
    if keys == {} {
    } else {
      LeastExists(keys);
      LeastIsUnique(keys);
      var key :| IsLeast(key, keys);
      var rest := keys - {key};
      SortedKeysSorts(rest);
      LeastFirst(key, SortedKeys(rest), keys);
    }
  }

  lemma LeastFirst(key: string, ks: seq<string>, keys: set<string>)
    requires IsLeast(key, keys) && Ascending(ks) && Enumerates(ks, keys - {key})
    ensures Ascending([key] + ks) && Enumerates([key] + ks, keys)
  {
    forall k | k in keys
      ensures k in [key] + ks
    {
      if k != key {
        assert k in ks;
      }
    }
  }

  /** However keys are enumerated and sorted, the outcome is the same sequence. */
  lemma {:induction false} SortedKeysUnique(ks: seq<string>, keys: set<string>)
    requires Ascending(ks) && Enumerates(ks, keys)
    ensures ks == SortedKeys(keys)
  {
    if keys == {} {
      assert ks == [];
    } else {
      LeastExists(keys);
      LeastIsUnique(keys);
      HeadIsLeast(ks, keys);
      TailEnumerates(ks, keys);
      SortedKeysUnique(ks[1..], keys - {ks[0]});
      assert ks == [ks[0]] + ks[1..];
    }
  }

  lemma HeadIsLeast(ks: seq<string>, keys: set<string>)
    requires Ascending(ks) && Enumerates(ks, keys) && keys != {}
    ensures ks != [] && IsLeast(ks[0], keys)
  {
    var some :| some in keys;
    assert some in ks;
    forall k | k in keys
      ensures AtMost(ks[0], k)
    {
      assert k in ks;
      AtMostTotal(k, k);
    }
  }

  lemma TailEnumerates(ks: seq<string>, keys: set<string>)
    requires ks != [] && Ascending(ks) && Enumerates(ks, keys)
    ensures Ascending(ks[1..]) && Enumerates(ks[1..], keys - {ks[0]})
  {
    forall k | k in keys - {ks[0]}
      ensures k in ks[1..]
    {
      var j :| 0 <= j < |ks| && ks[j] == k;
      assert ks[1..][j - 1] == k;
    }
  }

  /** Where two texts first differ. */
  predicate DifferAt(a: string, b: string, k: nat) {
    k < |a| && k < |b| && a[..k] == b[..k] && a[k] != b[k]
  }

  /** In dictionary order, a text comes before those it starts, and otherwise the first difference decides. */
  ghost predicate InOrder(a: string, b: string) {
    a <= b || exists k: nat :: DifferAt(a, b, k) && a[k] < b[k]
  }

  lemma {:induction false} AtMostInOrder(a: string, b: string)
    requires AtMost(a, b)
    ensures InOrder(a, b)
  {
    if a != [] && a[0] < b[0] {
      assert DifferAt(a, b, 0);
    } else if a != [] {
      AtMostInOrder(a[1..], b[1..]);
      assert a == [a[0]] + a[1..] && b == [b[0]] + b[1..];
      if k: nat :| DifferAt(a[1..], b[1..], k) && a[1..][k] < b[1..][k] {
        assert a[..k + 1] == [a[0]] + a[1..][..k] && b[..k + 1] == [b[0]] + b[1..][..k];
        assert DifferAt(a, b, k + 1);
      }
    }
  }

  /** The keys of a signature are listed each once, in dictionary order. */
  lemma KeysInDictionaryOrder(keys: set<string>)
    ensures Enumerates(SortedKeys(keys), keys)
    ensures forall i, j :: 0 <= i < j < |SortedKeys(keys)| ==>
      InOrder(SortedKeys(keys)[i], SortedKeys(keys)[j]) && SortedKeys(keys)[i] != SortedKeys(keys)[j]
  {
    SortedKeysSorts(keys);
    forall i, j | 0 <= i < j < |SortedKeys(keys)|
      ensures InOrder(SortedKeys(keys)[i], SortedKeys(keys)[j])
    {
      AtMostInOrder(SortedKeys(keys)[i], SortedKeys(keys)[j]);
    }
  }

  // ----- the signature

  function Join(parts: seq<string>): string
    requires parts != []
  {
    if |parts| == 1 then parts[0] else parts[0] + ['|'] + Join(parts[1..])
  }

  function Segments(ks: seq<string>, texts: map<string, string>): seq<string>
    requires forall i :: 0 <= i < |ks| ==> ks[i] in texts
  {
    seq(|ks|, i requires 0 <= i < |ks| => ks[i] + [':'] + texts[ks[i]])
  }

  function Texts(m: map<string, AttributeValue>): map<string, string> {
    map k | k in m :: ToText(m[k])
  }

  function SignatureOf(productId: string, m: map<string, AttributeValue>): string {
    if m == map[] then productId
    else
      SortedKeysSorts(m.Keys);
      productId + ['|'] + Join(Segments(SortedKeys(m.Keys), Texts(m)))
  }

  /** `generateItemSignature`. */
  function ItemSignature(productId: string, a: Attributes): string {
    SignatureOf(productId, Normalize(a))
  }

  // ----- canonical: the form the attributes arrive in does not matter

  predicate DistinctKeys(entries: seq<(string, AttributeValue)>) {
    forall i, j :: 0 <= i < j < |entries| ==> entries[i].0 != entries[j].0
  }

  lemma {:induction false} WrittenContents(entries: seq<(string, AttributeValue)>, key: string)
    requires DistinctKeys(entries)
    ensures key in Written(entries)
       <==> !IsPrototypeKey(key) && exists i :: 0 <= i < |entries| && entries[i].0 == key
    ensures key in Written(entries) ==> (key, Written(entries)[key]) in entries
  {
    if entries == [] {
    } else {
      var n := |entries| - 1;
      WrittenContents(entries[..n], key);
      if exists i :: 0 <= i < n && entries[i].0 == key {
        var i :| 0 <= i < n && entries[i].0 == key;
        assert entries[..n][i].0 == key;
      }
      assert entries[n] == (entries[n].0, entries[n].1);
    }
  }

  /** The last entry of a key stands at place k. */
  predicate LastOf(entries: seq<(string, AttributeValue)>, key: string, k: nat) {
    k < |entries| && entries[k].0 == key && forall j :: k < j < |entries| ==> entries[j].0 != key
  }

  /** A key stays exactly if it does not reach an object's prototype, with the value of its last entry. */
  lemma NormalizeKeeps(a: Attributes, key: string, value: AttributeValue)
    ensures (key in Normalize(a) && Normalize(a)[key] == value)
       <==> && key !in {"__proto__", "constructor", "prototype"}
            && exists k: nat :: LastOf(Entries(a), key, k) && Entries(a)[k].1 == value
  {
    assert Normalize(a) == Written(Entries(a));
    LastWriteStays(Entries(a), key, value);
  }

  lemma {:induction false} LastWriteStays(entries: seq<(string, AttributeValue)>, key: string, value: AttributeValue)
    ensures (key in Written(entries) && Written(entries)[key] == value)
       <==> !IsPrototypeKey(key) && exists k: nat :: LastOf(entries, key, k) && entries[k].1 == value
  {
    if entries == [] {
    } else {
      var n := |entries| - 1;
      LastWriteStays(entries[..n], key, value);
      if entries[n].0 == key {
        assert LastOf(entries, key, n);
      } else {
        if k: nat :| LastOf(entries[..n], key, k) && entries[..n][k].1 == value {
          assert LastOf(entries, key, k);
        }
        if k: nat :| LastOf(entries, key, k) && entries[k].1 == value {
          assert LastOf(entries[..n], key, k);
        }
      }
    }
  }

  /** What there is to enumerate; nothing usable counts as an empty object. */
  function Entries(a: Attributes): seq<(string, AttributeValue)> {
    if a.Absent? then [] else a.entries
  }

  /** Insertion order, Map, plain object or nothing at all, and prototype keys make no difference to the signature: two
      inputs with the same remaining entries have the same one. */
  lemma SignatureIsCanonical(productId: string, a: Attributes, b: Attributes)
    requires DistinctKeys(Entries(a)) && DistinctKeys(Entries(b))
    requires forall e: (string, AttributeValue) :: !IsPrototypeKey(e.0) ==> (e in Entries(a) <==> e in Entries(b))
    ensures ItemSignature(productId, a) == ItemSignature(productId, b)
  {
    var xs, ys := Entries(a), Entries(b);
    assert Normalize(a) == Written(xs) && Normalize(b) == Written(ys);
    forall key
      ensures key in Written(xs) <==> key in Written(ys)
      ensures key in Written(xs) ==> Written(xs)[key] == Written(ys)[key]
    {
      WrittenContents(xs, key);
      WrittenContents(ys, key);
      if key in Written(xs) {
        SameValue(xs, ys, key);
      }
      if key in Written(ys) {
        SameValue(ys, xs, key);
      }
    }
    assert Written(xs) == Written(ys);
  }

  lemma SameValue(xs: seq<(string, AttributeValue)>, ys: seq<(string, AttributeValue)>, key: string)
    requires DistinctKeys(xs) && DistinctKeys(ys)
    requires forall e: (string, AttributeValue) :: !IsPrototypeKey(e.0) ==> (e in xs <==> e in ys)
    requires key in Written(xs)
    ensures key in Written(ys) && Written(ys)[key] == Written(xs)[key]
  {
    WrittenContents(xs, key);
    WrittenContents(ys, key);
    var e := (key, Written(xs)[key]);
    assert e in ys;
    var i :| 0 <= i < |ys| && ys[i] == e;
    assert ys[i].0 == key;
    var f := (key, Written(ys)[key]);
    var j :| 0 <= j < |ys| && ys[j] == f;
  }

  // ----- decodable: the signature gives back the product and the attribute texts

  function Split(s: string): (r: seq<string>)
    ensures r != []
  {
    if s == [] then [[]]
    else
      var rest := Split(s[1..]);
      if s[0] == '|' then [[]] + rest else [[s[0]] + rest[0]] + rest[1..]
  }

  /** The key up to the first colon and the text after it. */
  function DecodeSegment(segment: string): (string, string) {
    if segment == [] then ([], [])
    else if segment[0] == ':' then ([], segment[1..])
    else
      var (key, text) := DecodeSegment(segment[1..]);
      ([segment[0]] + key, text)
  }

  function DecodeSegments(segments: seq<string>): map<string, string> {
    if segments == [] then map[]
    else
      var (key, text) := DecodeSegment(segments[|segments| - 1]);
      DecodeSegments(segments[..|segments| - 1])[key := text]
  }

  function Decode(signature: string): (string, map<string, string>) {
    var parts := Split(signature);
    (parts[0], DecodeSegments(parts[1..]))
  }

  /** Product ids are hexadecimal; the condition is on attribute keys and texts. */
  predicate Clean(productId: string, m: map<string, AttributeValue>) {
    && '|' !in productId
    && forall k :: k in m ==> '|' !in k && ':' !in k && '|' !in ToText(m[k])
  }

  predicate BarFree(productId: string, m: map<string, AttributeValue>) {
    '|' !in productId && forall k :: k in m ==> '|' !in k && '|' !in ToText(m[k])
  }

  lemma {:induction false} SplitPlain(s: string)
    requires '|' !in s
    ensures Split(s) == [s]
  {
    if s == [] {
    } else {
      SplitPlain(s[1..]);
      assert s == [s[0]] + s[1..];
    }
  }

  lemma {:induction false} SplitFirst(s: string, rest: string)
    requires '|' !in s
    ensures Split(s + ['|'] + rest) == [s] + Split(rest)
  {
    if s == [] {
      assert (s + ['|'] + rest)[1..] == rest;
    } else {
      SplitFirst(s[1..], rest);
      assert (s + ['|'] + rest)[1..] == s[1..] + ['|'] + rest;
      assert s == [s[0]] + s[1..];
    }
  }

  lemma {:induction false} SplitJoin(parts: seq<string>)
    requires parts != []
    requires forall i :: 0 <= i < |parts| ==> '|' !in parts[i]
    ensures Split(Join(parts)) == parts
  {
    if |parts| == 1 {
      SplitPlain(parts[0]);
    } else {
      SplitJoin(parts[1..]);
      SplitFirst(parts[0], Join(parts[1..]));
      assert parts == [parts[0]] + parts[1..];
    }
  }

  lemma {:induction false} DecodeOneSegment(key: string, text: string)
    requires ':' !in key
    ensures DecodeSegment(key + [':'] + text) == (key, text)
  {
    if key == [] {
      assert (key + [':'] + text)[1..] == text;
    } else {
      DecodeOneSegment(key[1..], text);
      assert (key + [':'] + text)[1..] == key[1..] + [':'] + text;
      assert key == [key[0]] + key[1..];
    }
  }

  lemma {:induction false} DecodeAllSegments(ks: seq<string>, texts: map<string, string>)
    requires forall i :: 0 <= i < |ks| ==> ks[i] in texts && ':' !in ks[i]
    ensures DecodeSegments(Segments(ks, texts)) == map k | k in ks :: texts[k]
  {
    if ks == [] {
    } else {
      var n := |ks| - 1;
      assert Segments(ks, texts)[..n] == Segments(ks[..n], texts);
      DecodeAllSegments(ks[..n], texts);
      DecodeOneSegment(ks[n], texts[ks[n]]);
      assert forall k :: k in ks <==> k in ks[..n] || k == ks[n];
    }
  }

  lemma SignatureDecodes(productId: string, m: map<string, AttributeValue>)
    requires Clean(productId, m)
    ensures Decode(SignatureOf(productId, m)) == (productId, Texts(m))
  {
    SplitSignature(productId, m);
    SegmentsDecode(m);
    var parts := [productId] + SegmentsOf(m);
    assert parts[1..] == SegmentsOf(m);
  }

  lemma SegmentsDecode(m: map<string, AttributeValue>)
    requires forall k :: k in m ==> ':' !in k
    ensures DecodeSegments(SegmentsOf(m)) == Texts(m)
  {
    SortedKeysSorts(m.Keys);
    var ks := SortedKeys(m.Keys);
    DecodeAllSegments(ks, Texts(m));
    assert (map k | k in ks :: Texts(m)[k]) == Texts(m);
  }

  lemma SegmentsSplit(productId: string, ks: seq<string>, m: map<string, AttributeValue>)
    requires BarFree(productId, m) && ks != [] && forall i :: 0 <= i < |ks| ==> ks[i] in m
    ensures Split(productId + ['|'] + Join(Segments(ks, Texts(m)))) == [productId] + Segments(ks, Texts(m))
  {
    var segments := Segments(ks, Texts(m));
    forall i | 0 <= i < |segments|
      ensures '|' !in segments[i]
    {
      assert ks[i] in m;
    }
    SplitJoin(segments);
    SplitFirst(productId, Join(segments));
  }

  /** For clean attributes two lines share a signature exactly when they name the same product with the same attribute
      texts. */
  lemma SignatureIdentifies(p: string, m: map<string, AttributeValue>, q: string, n: map<string, AttributeValue>)
    requires Clean(p, m) && Clean(q, n)
    ensures SignatureOf(p, m) == SignatureOf(q, n) <==> p == q && Texts(m) == Texts(n)
  {
    SignatureDecodes(p, m);
    SignatureDecodes(q, n);
    if p == q && Texts(m) == Texts(n) {
      assert m.Keys == Texts(m).Keys && n.Keys == Texts(n).Keys;
      assert m == map[] <==> m.Keys == {};
      assert n == map[] <==> n.Keys == {};
    }
  }

  /** The product can always be read off, whatever the attributes hold. */
  lemma SignatureNamesProduct(p: string, m: map<string, AttributeValue>, q: string, n: map<string, AttributeValue>)
    requires '|' !in p && '|' !in q && SignatureOf(p, m) == SignatureOf(q, n)
    ensures p == q
  {
    FirstPart(p, m);
    FirstPart(q, n);
  }

  lemma FirstPart(p: string, m: map<string, AttributeValue>)
    requires '|' !in p
    ensures Split(SignatureOf(p, m))[0] == p
  {
    if m == map[] {
      SplitPlain(p);
    } else {
      SortedKeysSorts(m.Keys);
      SplitFirst(p, Join(Segments(SortedKeys(m.Keys), Texts(m))));
    }
  }

  function SegmentsOf(m: map<string, AttributeValue>): seq<string> {
    SortedKeysSorts(m.Keys);
    Segments(SortedKeys(m.Keys), Texts(m))
  }

  // ----- which variants collide, whatever their attributes hold

  /** The pieces between bars of one text after another. */
  function Pieces(parts: seq<string>): seq<string> {
    if parts == [] then [] else Split(parts[0]) + Pieces(parts[1..])
  }

  function Prepended(c: char, parts: seq<string>): seq<string>
    requires parts != []
  {
    if c == '|' then [[]] + parts else [[c] + parts[0]] + parts[1..]
  }

  lemma SplitPrepended(c: char, s: string)
    ensures Split([c] + s) == Prepended(c, Split(s))
  {
    assert ([c] + s)[1..] == s;
  }

  lemma PrependedConcat(c: char, xs: seq<string>, ys: seq<string>)
    requires xs != []
    ensures Prepended(c, xs + ys) == Prepended(c, xs) + ys
  {
    assert (xs + ys)[0] == xs[0] && (xs + ys)[1..] == xs[1..] + ys;
  }

  lemma {:induction false} SplitConcat(s: string, rest: string)
    ensures Split(s + ['|'] + rest) == Split(s) + Split(rest)
  {
    if s == [] {
      assert (s + ['|'] + rest)[1..] == rest;
    } else {
      var tail := s[1..];
      SplitConcat(tail, rest);
      SplitPrepended(s[0], tail);
      SplitPrepended(s[0], tail + ['|'] + rest);
      PrependedConcat(s[0], Split(tail), Split(rest));
      assert s == [s[0]] + tail;
      assert s + ['|'] + rest == [s[0]] + (tail + ['|'] + rest);
    }
  }

  lemma {:induction false} SplitOfJoin(parts: seq<string>)
    requires parts != []
    ensures Split(Join(parts)) == Pieces(parts)
  {
    if |parts| == 1 {
      assert Pieces(parts[1..]) == [];
    } else {
      SplitOfJoin(parts[1..]);
      SplitConcat(parts[0], Join(parts[1..]));
    }
  }

  lemma {:induction false} JoinOfSplit(s: string)
    ensures Join(Split(s)) == s
  {
    if s == [] {
    } else {
      JoinOfSplit(s[1..]);
      var rest := Split(s[1..]);
      if s[0] == '|' {
        assert ([[]] + rest)[1..] == rest;
      } else {
        var head := [s[0]] + rest[0];
        assert ([head] + rest[1..])[1..] == rest[1..];
        assert |rest| > 1 ==> Join([head] + rest[1..]) == head + ['|'] + Join(rest[1..]);
        assert s == [s[0]] + s[1..];
      }
    }
  }

  /** For any attributes at all, two variants collide exactly when they are of one product and their `key:text`
      segments, sorted by key, fall into the same pieces at the bars. */
  lemma CollideIff(p: string, m: map<string, AttributeValue>, q: string, n: map<string, AttributeValue>)
    requires '|' !in p && '|' !in q
    ensures SignatureOf(p, m) == SignatureOf(q, n) <==> p == q && Pieces(SegmentsOf(m)) == Pieces(SegmentsOf(n))
  {
    SignaturePieces(p, m);
    SignaturePieces(q, n);
    JoinOfSplit(SignatureOf(p, m));
    JoinOfSplit(SignatureOf(q, n));
    SameHeadAndTail(p, Pieces(SegmentsOf(m)), q, Pieces(SegmentsOf(n)));
  }

  lemma SameHeadAndTail(p: string, xs: seq<string>, q: string, ys: seq<string>)
    ensures [p] + xs == [q] + ys <==> p == q && xs == ys
  {
    if [p] + xs == [q] + ys {
      assert ([p] + xs)[0] == p && ([q] + ys)[0] == q;
      assert ([p] + xs)[1..] == xs && ([q] + ys)[1..] == ys;
    }
  }

  lemma SignaturePieces(p: string, m: map<string, AttributeValue>)
    requires '|' !in p
    ensures Split(SignatureOf(p, m)) == [p] + Pieces(SegmentsOf(m))
  {
    SignatureFromSegments(p, m);
    if SegmentsOf(m) == [] {
      SplitPlain(p);
    } else {
      SplitFirst(p, Join(SegmentsOf(m)));
      SplitOfJoin(SegmentsOf(m));
    }
  }

  /** Without bars the pieces are the segments themselves. */
  lemma {:induction false} PlainPieces(parts: seq<string>)
    requires forall i :: 0 <= i < |parts| ==> '|' !in parts[i]
    ensures Pieces(parts) == parts
  {
    if parts == [] {
    } else {
      SplitPlain(parts[0]);
      PlainPieces(parts[1..]);
      assert parts == [parts[0]] + parts[1..];
    }
  }

  lemma CollideWithoutBarsIff(p: string, m: map<string, AttributeValue>, q: string, n: map<string, AttributeValue>)
    requires BarFree(p, m) && BarFree(q, n)
    ensures SignatureOf(p, m) == SignatureOf(q, n) <==> p == q && SegmentsOf(m) == SegmentsOf(n)
  {
    CollideIff(p, m, q, n);
    SegmentsBarFree(p, m);
    SegmentsBarFree(q, n);
    PlainPieces(SegmentsOf(m));
    PlainPieces(SegmentsOf(n));
  }

  lemma SegmentsBarFree(p: string, m: map<string, AttributeValue>)
    requires BarFree(p, m)
    ensures forall i :: 0 <= i < |SegmentsOf(m)| ==> '|' !in SegmentsOf(m)[i]
  {
    SortedKeysSorts(m.Keys);
    var ks := SortedKeys(m.Keys);
    forall i | 0 <= i < |SegmentsOf(m)|
      ensures '|' !in SegmentsOf(m)[i]
    {
      assert ks[i] in m;
    }
  }

  lemma SplitSignature(p: string, m: map<string, AttributeValue>)
    requires BarFree(p, m)
    ensures Split(SignatureOf(p, m)) == [p] + SegmentsOf(m)
  {
    SortedKeysSorts(m.Keys);
    if m == map[] {
      SplitPlain(p);
      assert SegmentsOf(m) == [];
    } else {
      SegmentsSplit(p, SortedKeys(m.Keys), m);
    }
  }

  lemma SignatureFromSegments(p: string, m: map<string, AttributeValue>)
    ensures SignatureOf(p, m) == if SegmentsOf(m) == [] then p else p + ['|'] + Join(SegmentsOf(m))
  {
    SortedKeysSorts(m.Keys);
    assert |SegmentsOf(m)| == |m.Keys|;
    assert m == map[] <==> m.Keys == {};
  }

  /** And they do collide: a colon in a key may as well belong to the text. */
  lemma UncleanKeysCollide(p: string, key: string, rest: string, text: string)
    ensures SignatureOf(p, map[key + [':'] + rest := Text(text)])
         == SignatureOf(p, map[key := Text(rest + [':'] + text)])
  {
    OneSegment(p, key + [':'] + rest, text);
    OneSegment(p, key, rest + [':'] + text);
    assert (key + [':'] + rest) + [':'] + text == key + [':'] + (rest + [':'] + text);
  }

  /** Nor does it take a colon in a key: a text with a bar passes for the text and a further attribute. */
  lemma BarredTextCollides(p: string, key: string, text: string, later: string, laterText: string)
    requires AtMost(key, later) && key != later
    ensures SignatureOf(p, map[key := Text(text + ['|'] + later + [':'] + laterText)])
         == SignatureOf(p, map[key := Text(text), later := Text(laterText)])
  {
    OneSegment(p, key, text + ['|'] + later + [':'] + laterText);
    TwoSegments(p, key, text, later, laterText);
    BarBetween(key + [':'], text, later, laterText);
  }

  lemma BarBetween(head: string, text: string, later: string, laterText: string)
    ensures head + (text + ['|'] + later + [':'] + laterText) == (head + text) + ['|'] + (later + [':'] + laterText)
  {
  }

  lemma OneSegment(p: string, key: string, text: string)
    ensures SignatureOf(p, map[key := Text(text)]) == p + ['|'] + (key + [':'] + text)
  {
    OneValue(p, key, Text(text));
  }

  lemma OneValue(p: string, key: string, value: AttributeValue)
    ensures SignatureOf(p, map[key := value]) == p + ['|'] + (key + [':'] + ToText(value))
  {
    var m := map[key := value];
    assert key in m;
    SignatureInOrder(p, m, [key]);
    assert Segments([key], Texts(m)) == [key + [':'] + ToText(value)];
  }

  /** How a signature reads: the product alone, or each attribute after a bar, key and value around a colon; numbers by
      their digits, and the truth values by name. */
  lemma SignatureReads(p: string, key: string, text: string)
    ensures SignatureOf(p, map[]) == p
    ensures SignatureOf(p, map[key := Text(text)]) == p + "|" + key + ":" + text
    ensures SignatureOf(p, map[key := Number(text)]) == p + "|" + key + ":" + text
    ensures SignatureOf(p, map[key := Boolean(true)]) == p + "|" + key + ":true"
    ensures SignatureOf(p, map[key := Boolean(false)]) == p + "|" + key + ":false"
  {
    OneValue(p, key, Text(text));
    OneValue(p, key, Number(text));
    OneValue(p, key, Boolean(true));
    OneValue(p, key, Boolean(false));
    Spelled(p, key, text);
    Spelled(p, key, "true");
    Spelled(p, key, "false");
    assert ":" + "true" == ":true" && ":" + "false" == ":false";
  }

  lemma Spelled(p: string, key: string, text: string)
    ensures p + ['|'] + (key + [':'] + text) == p + "|" + key + ":" + text
    ensures p + "|" + key + ":" + text == p + "|" + key + (":" + text)
  {
  }

  lemma TwoSegments(p: string, key: string, text: string, later: string, laterText: string)
    requires AtMost(key, later) && key != later
    ensures SignatureOf(p, map[key := Text(text), later := Text(laterText)])
         == p + ['|'] + ((key + [':'] + text) + ['|'] + (later + [':'] + laterText))
  {
    var m := map[key := Text(text), later := Text(laterText)];
    assert key in m;
    SignatureInOrder(p, m, [key, later]);
    assert Segments([key, later], Texts(m)) == [key + [':'] + text, later + [':'] + laterText];
    JoinTwo(key + [':'] + text, later + [':'] + laterText);
  }

  lemma SignatureInOrder(p: string, m: map<string, AttributeValue>, ks: seq<string>)
    requires m != map[] && Ascending(ks) && Enumerates(ks, m.Keys)
    ensures SignatureOf(p, m) == p + ['|'] + Join(Segments(ks, Texts(m)))
  {
    SortedKeysUnique(ks, m.Keys);
  }

  lemma JoinTwo(first: string, second: string)
    ensures Join([first, second]) == first + ['|'] + second
  {
    assert [first, second][1..] == [second];
  }
}
