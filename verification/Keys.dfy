/**
  Canonical bucket keys and domain scoping (internal/storage/storage.go).

  A Go string is a byte sequence. Here it is a Dafny `string` with one character per byte; no
  definition below looks at a character except to compare it.
*/
module Keys {

  datatype Option<+T> = None | Some(value: T)

  /** The `bucket` field of a BucketId message. A missing BucketId message is `None`. */
  type BucketId = map<string, string>
  type BucketKey = string

  lemma SubsetSize<T>(a: set<T>, b: set<T>)
    requires a <= b
    ensures |a| <= |b|
  {
    assert b == a + (b - a);
  }

  const NUL := '\0'
  const RS := '\U{1E}'
  const US := '\U{1F}'

  // ---------------------------------------------------------------------------------------------
  // Bytewise order and sort.Strings
  // ---------------------------------------------------------------------------------------------

  predicate Less(a: string, b: string) {
    b != "" && (a == "" || a[0] < b[0] || (a[0] == b[0] && Less(a[1..], b[1..])))
  }

  lemma LessIrreflexive(a: string)
    ensures !Less(a, a)
  {}

  lemma LessTransitive(a: string, b: string, c: string)
    requires Less(a, b) && Less(b, c)
    ensures Less(a, c)
  {}

  lemma {:induction false} LessTotal(a: string, b: string)
    ensures a == b || Less(a, b) || Less(b, a)
  {
    if a == "" || b == "" || a[0] != b[0] {
    } else {
      LessTotal(a[1..], b[1..]);
      assert a == [a[0]] + a[1..] && b == [b[0]] + b[1..];
    }
  }

  predicate StrictlySorted(s: seq<string>) {
    forall i, j :: 0 <= i < j < |s| ==> Less(s[i], s[j])
  }

  predicate NoDuplicates(s: seq<string>) {
    forall i, j :: 0 <= i < j < |s| ==> s[i] != s[j]
  }

  ghost function Elements(s: seq<string>): set<string> {
    set x | x in s
  }

  /** Two strictly sorted lists of the same elements are the same list. */
  lemma {:induction false} SortedIsUnique(a: seq<string>, b: seq<string>)
    requires StrictlySorted(a) && StrictlySorted(b)
    requires Elements(a) == Elements(b)
    ensures a == b
  {
    if a == [] || b == [] {
      EmptyElements(a);
      EmptyElements(b);
    } else {
      assert a[0] in Elements(b) && b[0] in Elements(a);
      SmallestFirst(a, b[0]);
      SmallestFirst(b, a[0]);
      if a[0] != b[0] {
        LessTransitive(a[0], b[0], a[0]);
        LessIrreflexive(a[0]);
      }
      ElementsOfTail(a);
      ElementsOfTail(b);
      SortedIsUnique(a[1..], b[1..]);
      assert a == [a[0]] + a[1..] && b == [b[0]] + b[1..];
    }
  }

  lemma EmptyElements(a: seq<string>)
    ensures Elements(a) == {} <==> a == []
  {
    if a != [] {
      assert a[0] in Elements(a);
    }
  }

  lemma SmallestFirst(a: seq<string>, x: string)
    requires StrictlySorted(a) && x in a
    ensures a[0] == x || Less(a[0], x)
  {
    var i :| 0 <= i < |a| && a[i] == x;
  }

  lemma ElementsOfTail(a: seq<string>)
    requires StrictlySorted(a) && a != []
    ensures Elements(a[1..]) == Elements(a) - {a[0]}
  {
    assert forall i :: 1 <= i < |a| ==> a[i] == a[1..][i - 1];
    forall i | 1 <= i < |a| ensures a[i] != a[0] {
      LessIrreflexive(a[0]);
    }
  }

  /** Insertion into a sorted list, the step of the sort below. */
  function Insert(x: string, s: seq<string>): (r: seq<string>)
    requires StrictlySorted(s) && x !in s
    ensures StrictlySorted(r) && forall y :: y in r <==> y == x || y in s
  {
    if s == [] then [x]
    else if Less(x, s[0]) then
      assert StrictlySorted([x] + s) by {
        forall j | 0 < j < |s| ensures Less(x, s[j]) { LessTransitive(x, s[0], s[j]); }
      }
      [x] + s
    else
      var t := Insert(x, s[1..]);
      assert s == [s[0]] + s[1..];
      assert StrictlySorted([s[0]] + t) by {
        LessTotal(x, s[0]);
        assert forall y :: y in s[1..] ==> Less(s[0], y);
      }
      [s[0]] + t
  }

  /** sort.Strings on a list without duplicates (the keys of a map). */
  function SortStrings(s: seq<string>): (r: seq<string>)
    requires NoDuplicates(s)
    ensures StrictlySorted(r) && Elements(r) == Elements(s)
  {
    if s == [] then []
    else
      assert s == [s[0]] + s[1..];
      var t := SortStrings(s[1..]);
      assert forall y :: y in t <==> y in Elements(s[1..]);
      Insert(s[0], t)
  }

  /** The strictly sorted list of a set: what collecting in any order and sorting must give. */
  ghost function SortedList(s: set<string>): (r: seq<string>)
    ensures StrictlySorted(r) && Elements(r) == s
  {
    if s == {} then []
    else
      var x :| x in s;
      var t := SortedList(s - {x});
      assert forall y :: y in t <==> y in Elements(t);
      Insert(x, t)
  }

  /** Whatever order a map's keys are visited in, sorting them yields the same list. */
  lemma SortIgnoresOrder(visited: seq<string>, keys: set<string>)
    requires NoDuplicates(visited) && Elements(visited) == keys
    ensures SortStrings(visited) == SortedList(keys)
  {
    SortedIsUnique(SortStrings(visited), SortedList(keys));
  }

  // ---------------------------------------------------------------------------------------------
  // BucketKeyFromProto
  // ---------------------------------------------------------------------------------------------

  /** One "key NUL value" record. */
  function PairRecord(k: string, v: string): string {
    k + [NUL] + v
  }

  function JoinRecords(ks: seq<string>, id: BucketId): BucketKey
    requires forall k :: k in ks ==> k in id
  {
    if ks == [] then ""
    else if |ks| == 1 then PairRecord(ks[0], id[ks[0]])
    else PairRecord(ks[0], id[ks[0]]) + [RS] + JoinRecords(ks[1..], id)
  }

  lemma {:induction false} JoinRecordsSnoc(ks: seq<string>, k: string, id: BucketId)
    requires forall x :: x in ks + [k] ==> x in id
    ensures JoinRecords(ks + [k], id)
         == (if ks == [] then "" else JoinRecords(ks, id) + [RS]) + PairRecord(k, id[k])
  {
    hide PairRecord;
    if ks == [] {
      assert ks + [k] == [k];
    } else {
      assert (ks + [k])[1..] == ks[1..] + [k];
      assert forall x :: x in ks[1..] + [k] ==> x in ks + [k];
      JoinRecordsSnoc(ks[1..], k, id);
      var head, tail, last := PairRecord(ks[0], id[ks[0]]) + [RS], JoinRecords(ks[1..], id), PairRecord(k, id[k]);
      assert JoinRecords(ks + [k], id) == head + JoinRecords(ks[1..] + [k], id);
      if |ks| > 1 {
        assert head + (tail + [RS] + last) == (head + tail) + [RS] + last;
      } else {
        assert ks[1..] == [] && JoinRecords(ks, id) + [RS] == head;
        assert head + ("" + last) == head + last;
      }
    }
  }

  ghost function KeyOf(id: BucketId): BucketKey {
    var ks := SortedList(id.Keys);
    assert forall k :: k in ks <==> k in Elements(ks);
    JoinRecords(ks, id)
  }

  /** The canonical key; a missing BucketId has the key of an empty one. */
  ghost function CanonicalKey(id: Option<BucketId>): BucketKey {
    if id.None? then "" else KeyOf(id.value)
  }

  /** Ranging over a Go map visits its keys once each, in no fixed order. */
  method CollectKeys<V>(bucket: map<string, V>) returns (keys: seq<string>)
    ensures NoDuplicates(keys) && Elements(keys) == bucket.Keys
  {
    keys := [];
    var todo := bucket.Keys;
    while todo != {}
      invariant todo <= bucket.Keys && NoDuplicates(keys)
      invariant forall k :: k in keys <==> k in bucket.Keys - todo
      decreases todo
    {
      var k :| k in todo;
      assert k !in keys;
      keys, todo := keys + [k], todo - {k};
    }
  }

  method BucketKeyFromProto(id: Option<BucketId>) returns (key: BucketKey)
    ensures key == CanonicalKey(id)
  {
    if id.None? || |id.value| == 0 {
      assert id.Some? ==> id.value.Keys == {};
      return "";
    }
    var bucket := id.value;
    var keys := CollectKeys(bucket);
    SortIgnoresOrder(keys, bucket.Keys);
    keys := SortStrings(keys);
    assert forall k :: k in keys <==> k in Elements(keys);

    key := WriteRecords(keys, bucket);
  }

  method WriteRecords(keys: seq<string>, bucket: BucketId) returns (sb: string)
    requires forall k :: k in keys ==> k in bucket
    ensures sb == JoinRecords(keys, bucket)
  {
    sb := "";
    for i := 0 to |keys|
      invariant sb == JoinRecords(keys[..i], bucket)
    {
      JoinRecordsSnoc(keys[..i], keys[i], bucket);
      assert keys[..i + 1] == keys[..i] + [keys[i]];
      if i > 0 {
        sb := sb + [RS];
      }
      sb := sb + keys[i];
      sb := sb + [NUL];
      sb := sb + bucket[keys[i]];
    }
    assert keys[..|keys|] == keys;
  }

  // ---------------------------------------------------------------------------------------------
  // The left inverse: split at every RS, then each record at its first NUL
  // ---------------------------------------------------------------------------------------------

  function IndexOf(s: string, c: char): (i: nat)
    ensures i <= |s| && c !in s[..i] && (i < |s| ==> s[i] == c)
  {
    if s == "" || s[0] == c then 0
    else
      assert forall j :: 0 < j <= |s| ==> s[..j] == [s[0]] + s[1..][..j - 1];
      1 + IndexOf(s[1..], c)
  }

  lemma {:induction false} IndexOfIs(a: string, c: char, b: string)
    requires c !in a
    ensures IndexOf(a + [c] + b, c) == |a| && IndexOf(a, c) == |a|
  {
    if a == "" {
    } else {
      assert (a + [c] + b)[1..] == a[1..] + [c] + b;
      IndexOfIs(a[1..], c, b);
    }
  }

  function DecodeRecord(r: string): map<string, string> {
    var i := IndexOf(r, NUL);
    if i == |r| then map[] else map[r[..i] := r[i + 1..]]
  }

  function Decode(s: string): BucketId
    decreases |s|
  {
    var i := IndexOf(s, RS);
    if i == |s| then DecodeRecord(s)
    else DecodeRecord(s[..i]) + Decode(s[i + 1..])
  }

  /** Separators never occur where they would be mistaken for structure. */
  predicate Clean(id: BucketId) {
    forall k :: k in id ==> NUL !in k && RS !in k && RS !in id[k]
  }

  lemma DecodeRecordIsClean(r: string)
    requires RS !in r
    ensures Clean(DecodeRecord(r))
  {}

  lemma {:induction false} DecodeIsClean(s: string)
    ensures Clean(Decode(s))
    decreases |s|
  {
    var i := IndexOf(s, RS);
    DecodeRecordIsClean(s[..i]);
    if i == |s| {
      assert s[..i] == s;
    } else {
      DecodeIsClean(s[i + 1..]);
    }
  }

  lemma DecodeRecordInverts(k: string, v: string)
    requires NUL !in k
    ensures DecodeRecord(PairRecord(k, v)) == map[k := v]
  {
    IndexOfIs(k, NUL, v);
    var r := k + [NUL] + v;
    assert r[..|k|] == k && r[|k| + 1..] == v;
  }

  lemma DecodeFirst(k: string, v: string, rest: string)
    requires NUL !in k && RS !in k && RS !in v
    ensures Decode(PairRecord(k, v)) == map[k := v]
    ensures Decode(PairRecord(k, v) + [RS] + rest) == map[k := v] + Decode(rest)
  {
    var r := PairRecord(k, v);
    DecodeRecordInverts(k, v);
    IndexOfIs(r, RS, rest);
    var s := r + [RS] + rest;
    assert s[..|r|] == r && s[|r| + 1..] == rest;
  }

  ghost function Restrict(id: BucketId, ks: seq<string>): BucketId
    requires forall k :: k in ks ==> k in id
  {
    map k | k in ks :: id[k]
  }

  lemma RestrictCons(id: BucketId, k: string, ks: seq<string>)
    requires forall x :: x in [k] + ks ==> x in id
    ensures k in id && (forall x :: x in ks ==> x in id)
    ensures Restrict(id, [k] + ks) == map[k := id[k]] + Restrict(id, ks)
  {
    assert forall x :: x in [k] + ks <==> x == k || x in ks;
  }

  lemma {:induction false} DecodeInvertsJoin(ks: seq<string>, id: BucketId)
    requires Clean(id)
    requires forall k :: k in ks ==> k in id
    ensures Decode(JoinRecords(ks, id)) == Restrict(id, ks)
  {
    if ks == [] {
    } else {
      var k, rest := ks[0], JoinRecords(ks[1..], id);
      assert ks == [k] + ks[1..];
      RestrictCons(id, k, ks[1..]);
      DecodeFirst(k, id[k], rest);
      DecodeInvertsJoin(ks[1..], id);
    }
  }

  /**
    The round trip holds exactly for the ids whose keys avoid NUL and RS and whose values avoid RS.
  */
  lemma RoundTripIffClean(id: BucketId)
    ensures Decode(KeyOf(id)) == id <==> Clean(id)
  {
    var ks := SortedList(id.Keys);
    assert forall k :: k in ks <==> k in Elements(ks);
    if Clean(id) {
      DecodeInvertsJoin(ks, id);
    } else {
      DecodeIsClean(KeyOf(id));
    }
  }

  /** Distinct clean ids never share a key. */
  lemma KeyOfInjective(a: BucketId, b: BucketId)
    requires Clean(a) && Clean(b)
    ensures KeyOf(a) == KeyOf(b) <==> a == b
  {
    RoundTripIffClean(a);
    RoundTripIffClean(b);
  }

  lemma SortedListIs(s: set<string>, l: seq<string>)
    requires StrictlySorted(l) && Elements(l) == s
    ensures SortedList(s) == l
  {
    SortedIsUnique(SortedList(s), l);
  }

  // ---------------------------------------------------------------------------------------------
  // DomainScopedKey
  // ---------------------------------------------------------------------------------------------

  function DomainScopedKey(domain: string, key: BucketKey): BucketKey {
    if domain == "" then key else domain + [US] + key
  }

  /** Within one domain, whatever bytes it holds, scoping loses nothing. */
  lemma ScopeInjectiveInKey(domain: string, k1: BucketKey, k2: BucketKey)
    requires DomainScopedKey(domain, k1) == DomainScopedKey(domain, k2)
    ensures k1 == k2
  {
    if domain != "" {
      assert k1 == (domain + [US] + k1)[|domain| + 1..];
      assert k2 == (domain + [US] + k2)[|domain| + 1..];
    }
  }

  /** `outer` is `inner` followed by US and the start of the key that `inner` carries. */
  ghost predicate Shadows(inner: string, innerKey: BucketKey, outer: string, outerKey: BucketKey) {
    exists r: string :: outer == inner + [US] + r && innerKey == r + [US] + outerKey
  }

  lemma ScopeCollisionBySize(d1: string, k1: BucketKey, d2: string, k2: BucketKey)
    requires d1 != "" && d2 != ""
    ensures Shadows(d1, k1, d2, k2) ==> DomainScopedKey(d1, k1) == DomainScopedKey(d2, k2)
    ensures |d1| <= |d2| && DomainScopedKey(d1, k1) == DomainScopedKey(d2, k2)
        ==> (d1 == d2 && k1 == k2) || Shadows(d1, k1, d2, k2)
  {
    var s1, s2 := d1 + [US] + k1, d2 + [US] + k2;
    if Shadows(d1, k1, d2, k2) {
      var r: string :| d2 == d1 + [US] + r && k1 == r + [US] + k2;
      assert d1 + [US] + (r + [US] + k2) == (d1 + [US] + r) + [US] + k2;
    }
    if |d1| <= |d2| && s1 == s2 {
      if |d1| == |d2| {
        assert d1 == s1[..|d1|] == s2[..|d1|] == d2;
        ScopeInjectiveInKey(d1, k1, k2);
      } else {
        var r := d2[|d1| + 1..];
        assert d2 == s2[..|d2|] == s1[..|d2|];
        assert d2 == d1 + [US] + r;
        assert s1 == d1 + [US] + (r + [US] + k2);
        ScopeInjectiveInKey(d1, k1, r + [US] + k2);
        assert Shadows(d1, k1, d2, k2);
      }
    }
  }

  /** The key of the empty domain is a scoped key of the other one. */
  predicate Bare(domain: string, key: BucketKey, other: string, otherKey: BucketKey) {
    domain == "" != other && key == other + [US] + otherKey
  }

  /** Exactly when two (domain, key) pairs share a scoped key. */
  lemma ScopeCollision(d1: string, k1: BucketKey, d2: string, k2: BucketKey)
    ensures DomainScopedKey(d1, k1) == DomainScopedKey(d2, k2)
       <==> || (d1 == d2 && k1 == k2)
            || Bare(d1, k1, d2, k2) || Bare(d2, k2, d1, k1)
            || (d1 != "" && d2 != "" && (Shadows(d1, k1, d2, k2) || Shadows(d2, k2, d1, k1)))
  {
    if d1 != "" && d2 != "" {
      ScopeCollisionBySize(d1, k1, d2, k2);
      ScopeCollisionBySize(d2, k2, d1, k1);
    }
  }

  lemma ShadowHoldsUS(inner: string, innerKey: BucketKey, outer: string, outerKey: BucketKey)
    ensures Shadows(inner, innerKey, outer, outerKey) ==> US in outer
  {
    if Shadows(inner, innerKey, outer, outerKey) {
      assert outer[|inner|] == US;
    }
  }

  /** Non-empty domains free of US never share a scoped key. */
  lemma ScopeInjective(d1: string, k1: BucketKey, d2: string, k2: BucketKey)
    requires d1 != "" && d2 != "" && US !in d1 && US !in d2
    ensures DomainScopedKey(d1, k1) == DomainScopedKey(d2, k2) <==> d1 == d2 && k1 == k2
  {
    ScopeCollision(d1, k1, d2, k2);
    ShadowHoldsUS(d1, k1, d2, k2);
    ShadowHoldsUS(d2, k2, d1, k1);
  }
}
