/**
  Which bucket ids share their canonical key with another id. NUL and RS are ordinary bytes inside keys
  and values, so a key can be split at any NUL it holds, and each split is an id with that key.
*/
module Collisions {
  import opened Keys
  import opened Protocol

  /** Keys and values have at least `m` bytes. */
  predicate Wide(m: nat, id: BucketId) {
    forall k :: k in id ==> |k| >= m && |id[k]| >= m
  }

  /** Some other wide id has the same canonical key. */
  ghost predicate Collides(m: nat, a: BucketId) {
    exists b: BucketId :: b != a && Wide(m, b) && KeyOf(b) == KeyOf(a)
  }

  /** More than one entry, or a NUL in the only one, away from the outer ends of its key and value. */
  predicate Ambiguous(m: nat, id: BucketId)
    requires Wide(m, id)
  {
    |id| > 1 || exists k :: k in id && (NUL in k[m..] || NUL in id[k][..|id[k]| - m])
  }

  predicate SplitPoint(m: nat, s: string, p: nat) {
    m <= p && p + m < |s| && s[p] == NUL
  }

  function Split(s: string, p: nat): BucketId
    requires p < |s|
  {
    map[s[..p] := s[p + 1..]]
  }

  lemma OneEntryKey(k: string, v: string)
    ensures KeyOf(map[k := v]) == PairRecord(k, v)
  {
    SortedListIs(map[k := v].Keys, [k]);
  }

  /** Every split of a string is an id with that key, and no two splits agree. */
  lemma SplitHasKey(m: nat, s: string, p: nat)
    requires SplitPoint(m, s, p)
    ensures Wide(m, Split(s, p)) && KeyOf(Split(s, p)) == s
  {
    OneEntryKey(s[..p], s[p + 1..]);
    assert s == s[..p] + [NUL] + s[p + 1..];
  }

  lemma SplitsDiffer(s: string, p: nat, q: nat)
    requires p < q < |s|
    ensures Split(s, p) != Split(s, q)
  {
    assert s[..p] in Split(s, p);
    assert |s[..p]| != |s[..q]|;
  }

  lemma NoEntries(id: BucketId)
    requires |id| == 0
    ensures id == map[] && KeyOf(id) == ""
  {
    assert id.Keys == {};
    SortedListIs({}, []);
  }

  lemma OnlyEntry(id: BucketId) returns (k: string)
    requires |id| == 1
    ensures k in id && id == map[k := id[k]]
    ensures KeyOf(id) == PairRecord(k, id[k])
  {
    k :| k in id.Keys;
    assert |id.Keys - {k}| == 0;
    OneEntryKey(k, id[k]);
  }

  /** The key of an id with several entries can be split within its first entry and within its second. */
  lemma TwoSplits(m: nat, id: BucketId) returns (p: nat, q: nat)
    requires Wide(m, id) && |id| > 1
    ensures p < q && SplitPoint(m, KeyOf(id), p) && SplitPoint(m, KeyOf(id), q)
  {
    var ks := SortedList(id.Keys);
    assert forall k :: k in ks <==> k in Elements(ks);
    ElementsSize(ks);
    var first, second := PairRecord(ks[0], id[ks[0]]) + [RS], PairRecord(ks[1], id[ks[1]]);
    var rest := JoinRecords(ks[1..], id);
    assert KeyOf(id) == first + rest;
    assert ks[1..][0] == ks[1];
    assert second <= rest;
    p, q := |ks[0]|, |first| + |ks[1]|;
    assert KeyOf(id)[q] == rest[|ks[1]|] == second[|ks[1]|] == NUL;
  }

  lemma {:induction false} ElementsSize(ks: seq<string>)
    ensures |Elements(ks)| <= |ks|
  {
    if ks == [] {
      assert Elements(ks) == {};
    } else {
      ElementsSize(ks[1..]);
      assert Elements(ks) == Elements(ks[1..]) + {ks[0]};
    }
  }

  /** A one-entry key can be split at its own separator, and at any other NUL far enough from the ends. */
  lemma OtherSplit(m: nat, k: string, v: string) returns (q: nat)
    requires |k| >= m && |v| >= m && (NUL in k[m..] || NUL in v[..|v| - m])
    ensures q != |k| && SplitPoint(m, PairRecord(k, v), q)
  {
    if NUL in k[m..] {
      var i :| 0 <= i < |k[m..]| && k[m..][i] == NUL;
      q := m + i;
    } else {
      var i :| 0 <= i < |v[..|v| - m]| && v[..|v| - m][i] == NUL;
      q := |k| + 1 + i;
    }
  }

  lemma OwnSplit(m: nat, k: string, v: string)
    requires |k| >= m && |v| >= m
    ensures SplitPoint(m, PairRecord(k, v), |k|)
  {}

  lemma SplitIsOwn(m: nat, k: string, v: string, q: nat)
    requires |k| >= m && |v| >= m && SplitPoint(m, PairRecord(k, v), q)
    ensures q == |k| || NUL in k[m..] || NUL in v[..|v| - m]
  {
    if q < |k| {
      assert k[m..][q - m] == NUL;
    } else if q > |k| {
      assert v[..|v| - m][q - |k| - 1] == NUL;
    }
  }

  /** Of two splits of the key of an id, one is another id. */
  lemma OneSplitDiffers(m: nat, a: BucketId, p: nat, q: nat) returns (r: nat)
    requires p < q && SplitPoint(m, KeyOf(a), p) && SplitPoint(m, KeyOf(a), q)
    ensures SplitPoint(m, KeyOf(a), r) && Split(KeyOf(a), r) != a
  {
    SplitsDiffer(KeyOf(a), p, q);
    r := if Split(KeyOf(a), p) != a then p else q;
  }

  lemma AmbiguousHasSplit(m: nat, a: BucketId) returns (r: nat)
    requires Wide(m, a) && Ambiguous(m, a)
    ensures SplitPoint(m, KeyOf(a), r) && Split(KeyOf(a), r) != a
  {
    if |a| > 1 {
      var p, q := TwoSplits(m, a);
      r := OneSplitDiffers(m, a, p, q);
    } else {
      var k :| k in a && (NUL in k[m..] || NUL in a[k][..|a[k]| - m]);
      var _ := OnlyEntry(a);
      OwnSplit(m, k, a[k]);
      var q := OtherSplit(m, k, a[k]);
      r := OneSplitDiffers(m, a, if q < |k| then q else |k|, if q < |k| then |k| else q);
    }
  }

  lemma SameKeyIsAmbiguous(m: nat, a: BucketId, b: BucketId)
    requires Wide(m, a) && Wide(m, b) && KeyOf(b) == KeyOf(a)
    ensures b == a || Ambiguous(m, a)
  {
    hide KeyOf;
    if |a| == 0 || |b| == 0 {
      OnlyEmptyHasEmptyKey(a);
      OnlyEmptyHasEmptyKey(b);
    } else if |a| == 1 {
      var k := OnlyEntry(a);
      if |b| == 1 {
        var k' := OnlyEntry(b);
        OwnSplit(m, k', b[k']);
        SplitIsOwn(m, k, a[k], |k'|);
        if |k'| == |k| {
          assert k' == KeyOf(b)[..|k|] == k && b[k'] == KeyOf(b)[|k| + 1..] == a[k];
        }
      } else {
        var p, q := TwoSplits(m, b);
        SplitIsOwn(m, k, a[k], p);
        SplitIsOwn(m, k, a[k], q);
      }
    }
  }

  lemma OnlyEmptyHasEmptyKey(id: BucketId)
    ensures KeyOf(id) == "" <==> id == map[]
  {
    if |id| == 0 {
      NoEntries(id);
    } else if |id| == 1 {
      var k := OnlyEntry(id);
    } else {
      var p, q := TwoSplits(0, id);
    }
  }

  lemma CollidesIffAmbiguous(m: nat, a: BucketId)
    requires Wide(m, a)
    ensures Collides(m, a) <==> Ambiguous(m, a)
  {
    if Ambiguous(m, a) {
      var r := AmbiguousHasSplit(m, a);
      SplitHasKey(m, KeyOf(a), r);
    } else {
      forall b: BucketId | Wide(m, b) && KeyOf(b) == KeyOf(a) ensures b == a {
        SameKeyIsAmbiguous(m, a, b);
      }
    }
  }

  // ---------------------------------------------------------------------------------------------
  // Exactly when an id has its key for itself
  // ---------------------------------------------------------------------------------------------

  /** An id shares its key with another exactly if it has several entries, or a NUL in its only one. */
  lemma CollidesIff(a: BucketId)
    ensures (exists b: BucketId :: b != a && KeyOf(b) == KeyOf(a))
       <==> |a| > 1 || exists k :: k in a && (NUL in k || NUL in a[k])
  {
    CollidesIffAmbiguous(0, a);
    assert (exists b: BucketId :: b != a && KeyOf(b) == KeyOf(a)) <==> Collides(0, a) by {
      if b: BucketId :| b != a && KeyOf(b) == KeyOf(a) {
        assert Wide(0, b);
      }
    }
    assert forall k :: k in a ==> k[0..] == k && a[k][..|a[k]| - 0] == a[k];
  }

  /**
    The same among the ids the server accepts. Empty keys and values are refused, so a NUL at the outer
    end of the only entry gives no second reading. Length limits can only take readings away; they take
    none away from a key that is within both.
  */
  lemma AcceptedCollides(l: Limits, a: BucketId)
    requires ValidBucket(l, a)
    ensures var shared := exists b: BucketId :: b != a && ValidBucket(l, b) && KeyOf(b) == KeyOf(a);
            && Wide(1, a)
            && (shared ==> Ambiguous(1, a))
            && (shared <== Ambiguous(1, a) && WithinLimit(|KeyOf(a)|, l.maxBucketKeyLen)
                                           && WithinLimit(|KeyOf(a)|, l.maxBucketValueLen))
  {
    hide KeyOf, ValidBucket, Wide, Ambiguous, Split;
    AcceptedIsWide(l, a);
    CollidesIffAmbiguous(1, a);
    if b: BucketId :| b != a && ValidBucket(l, b) && KeyOf(b) == KeyOf(a) {
      AcceptedIsWide(l, b);
    }
    if Ambiguous(1, a) && WithinLimit(|KeyOf(a)|, l.maxBucketKeyLen)
       && WithinLimit(|KeyOf(a)|, l.maxBucketValueLen) {
      var r := AmbiguousHasSplit(1, a);
      SplitHasKey(1, KeyOf(a), r);
      SplitIsAccepted(l, KeyOf(a), r);
    }
  }

  lemma AcceptedIsWide(l: Limits, id: BucketId)
    requires ValidBucket(l, id)
    ensures Wide(1, id)
  {}

  lemma SplitIsAccepted(l: Limits, s: string, p: nat)
    requires SplitPoint(1, s, p) && WithinLimit(|s|, l.maxBucketKeyLen) && WithinLimit(|s|, l.maxBucketValueLen)
    ensures ValidBucket(l, Split(s, p))
  {
    assert Split(s, p).Keys == {s[..p]};
  }

  /** For example, two short entries read as one whose value holds the separators. */
  lemma TwoEntriesReadAsOne()
    ensures var one := map["a" := "1" + [RS] + "b" + [NUL] + "2"];
            var two := map["a" := "1", "b" := "2"];
            one != two && KeyOf(one) == KeyOf(two)
  {
    var one := map["a" := "1" + [RS] + "b" + [NUL] + "2"];
    var two := map["a" := "1", "b" := "2"];
    SortedListIs(one.Keys, ["a"]);
    assert two.Keys == {"a", "b"} == Elements(["a", "b"]);
    SortedListIs(two.Keys, ["a", "b"]);
    assert "a" in two && "a" in one;
    assert one["a"] != two["a"];
    assert JoinRecords(["a", "b"], two) == PairRecord("a", "1") + [RS] + JoinRecords(["b"], two) by {
      assert ["a", "b"][1..] == ["b"];
    }
    assert KeyOf(one) == "a" + [NUL] + ("1" + [RS] + "b" + [NUL] + "2");
    assert KeyOf(two) == ("a" + [NUL] + "1") + [RS] + ("b" + [NUL] + "2");
  }
}
