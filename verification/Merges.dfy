/**
  Bucket ids without NUL and RS. Their keys can still be shared, because two neighbouring entries read as
  one whose key or value holds the separators between them; the server's length limits decide whether
  such an id is accepted.
*/
module Merges {
  import opened Keys
  import opened Protocol
  import opened Collisions

  predicate Plain(id: BucketId) {
    forall k :: k in id ==> NUL !in k && RS !in k && NUL !in id[k] && RS !in id[k]
  }

  /** Two neighbouring entries read as one, with the second in its value or with the first in its key. */
  function InValue(id: BucketId, k: string, next: string): string
    requires k in id && next in id
  {
    id[k] + [RS] + PairRecord(next, id[next])
  }

  function InKey(id: BucketId, k: string, next: string): string
    requires k in id
  {
    PairRecord(k, id[k]) + [RS] + next
  }

  predicate Mergeable(l: Limits, id: BucketId, k: string, next: string)
    requires k in id && next in id
  {
    WithinLimit(|InValue(id, k, next)|, l.maxBucketValueLen) || WithinLimit(|InKey(id, k, next)|, l.maxBucketKeyLen)
  }

  /** Some two neighbours, in the order of the keys, can be read as one entry within the limits. */
  ghost predicate HasMerge(l: Limits, id: BucketId) {
    var ks := SortedList(id.Keys);
    exists i :: 0 <= i < |ks| - 1 && ks[i] in id && ks[i + 1] in id && Mergeable(l, id, ks[i], ks[i + 1])
  }

  // --- a different reading merges two neighbours ---

  /** Where the first record of a key lies. */
  lemma FirstRecord(ks: seq<string>, id: BucketId)
    requires ks != [] && forall k :: k in ks ==> k in id
    ensures var s, r := JoinRecords(ks, id), PairRecord(ks[0], id[ks[0]]);
            && r <= s
            && (|ks| == 1 ==> s == r)
            && (|ks| > 1 ==> |r| < |s| && s[|r|] == RS && s[|r| + 1..] == JoinRecords(ks[1..], id))
  {}

  /** Where separators can be, given that the first record is `k NUL v`. */
  lemma SeparatorPlace(k: string, v: string, s: string, x: nat)
    requires PairRecord(k, v) <= s && x < |s|
    ensures s[x] == NUL ==> x == |k| || x >= |PairRecord(k, v)| || NUL in k || NUL in v
    ensures s[x] == RS ==> x >= |PairRecord(k, v)| || RS in k || RS in v
  {
    var r := PairRecord(k, v);
    if x < |k| {
      assert s[x] == r[x] == k[x];
    } else if |k| < x < |r| {
      assert s[x] == r[x] == v[x - |k| - 1];
    }
  }

  /** If the first key is another one, it reaches at least to the separator of the second entry. */
  lemma LongerKey(ks: seq<string>, id: BucketId, k: string, v: string)
    requires ks != [] && Plain(id) && (forall x :: x in ks ==> x in id) && k != ks[0]
    requires PairRecord(k, v) <= JoinRecords(ks, id)
    ensures |ks| > 1 && |k| >= |InKey(id, ks[0], ks[1])|
  {
    hide JoinRecords;
    var s, r := JoinRecords(ks, id), PairRecord(ks[0], id[ks[0]]);
    FirstRecord(ks, id);
    assert s[|k|] == PairRecord(k, v)[|k|] == NUL;
    assert s[..|k|] == PairRecord(k, v)[..|k|] == k && s[..|ks[0]|] == r[..|ks[0]|] == ks[0];
    SeparatorPlace(ks[0], id[ks[0]], s, |k|);
    FirstRecord(ks[1..], id);
    SeparatorPlace(ks[1], id[ks[1]], JoinRecords(ks[1..], id), |k| - |r| - 1);
  }

  /** If the first value is longer, it reaches at least to the end of the second entry. */
  lemma LongerValue(ks: seq<string>, id: BucketId, js: seq<string>, jd: BucketId)
    requires ks != [] && js != [] && Plain(id)
    requires (forall k :: k in ks ==> k in id) && forall k :: k in js ==> k in jd
    requires JoinRecords(ks, id) == JoinRecords(js, jd) && js[0] == ks[0] && |jd[js[0]]| > |id[ks[0]]|
    ensures |ks| > 1 && |jd[js[0]]| >= |InValue(id, ks[0], ks[1])|
  {
    hide JoinRecords;
    var s, r, q := JoinRecords(ks, id), PairRecord(ks[0], id[ks[0]]), PairRecord(js[0], jd[js[0]]);
    FirstRecord(ks, id);
    FirstRecord(js, jd);
    FirstRecord(ks[1..], id);
    var rest := JoinRecords(ks[1..], id);
    assert |rest| == |s| - |r| - 1;
    if |js| > 1 {
      assert rest[|q| - |r| - 1] == s[|q|] == RS;
      SeparatorPlace(ks[1], id[ks[1]], rest, |q| - |r| - 1);
    }
  }

  /** Otherwise the first entries agree, and so do the rests. */
  lemma FirstAgrees(ks: seq<string>, id: BucketId, js: seq<string>, jd: BucketId)
    requires ks != [] && js != [] && Plain(id)
    requires (forall k :: k in ks ==> k in id) && forall k :: k in js ==> k in jd
    requires JoinRecords(ks, id) == JoinRecords(js, jd) && js[0] == ks[0] && |jd[js[0]]| <= |id[ks[0]]|
    ensures jd[js[0]] == id[ks[0]] && (|ks| == 1 <==> |js| == 1)
    ensures |ks| > 1 ==> JoinRecords(ks[1..], id) == JoinRecords(js[1..], jd)
  {
    hide JoinRecords;
    var s, r, q := JoinRecords(ks, id), PairRecord(ks[0], id[ks[0]]), PairRecord(js[0], jd[js[0]]);
    FirstRecord(ks, id);
    FirstRecord(js, jd);
    if |js| > 1 {
      SeparatorPlace(ks[0], id[ks[0]], s, |q|);
    }
    assert |q| == |r|;
    assert q == s[..|q|] == r;
    assert id[ks[0]] == r[|ks[0]| + 1..] && jd[js[0]] == q[|ks[0]| + 1..];
  }

  /** Another list of records with the same key has an entry at least as long as a merge of two neighbours. */
  lemma {:induction false} SameOrMerged(ks: seq<string>, id: BucketId, js: seq<string>, jd: BucketId)
    returns (same: bool, i: nat, j: nat)
    requires ks != [] && js != [] && Plain(id)
    requires (forall k :: k in ks ==> k in id) && forall k :: k in js ==> k in jd
    requires JoinRecords(ks, id) == JoinRecords(js, jd)
    ensures same ==> ks == js && forall k :: k in ks ==> id[k] == jd[k]
    ensures !same ==>
              && i + 1 < |ks| && j < |js|
              && (|jd[js[j]]| >= |InValue(id, ks[i], ks[i + 1])| || |js[j]| >= |InKey(id, ks[i], ks[i + 1])|)
    decreases ks
  {
    hide JoinRecords;
    FirstRecord(ks, id);
    FirstRecord(js, jd);
    same, i, j := false, 0, 0;
    if js[0] != ks[0] {
      LongerKey(ks, id, js[0], jd[js[0]]);
    } else if |jd[js[0]]| > |id[ks[0]]| {
      LongerValue(ks, id, js, jd);
    } else {
      FirstAgrees(ks, id, js, jd);
      if |ks| == 1 {
        same := true;
      } else {
        same, i, j := SameOrMerged(ks[1..], id, js[1..], jd);
        i, j := i + 1, j + 1;
        assert ks == [ks[0]] + ks[1..] && js == [js[0]] + js[1..];
      }
    }
  }

  // --- a merge is a different reading ---

  lemma {:induction false} JoinAppend(xs: seq<string>, ys: seq<string>, id: BucketId)
    requires xs != [] && ys != [] && forall k :: k in xs + ys ==> k in id
    ensures JoinRecords(xs + ys, id) == JoinRecords(xs, id) + [RS] + JoinRecords(ys, id)
  {
    assert (xs + ys)[1..] == xs[1..] + ys;
    if |xs| == 1 {
      assert xs[1..] + ys == ys;
    } else {
      JoinAppend(xs[1..], ys, id);
    }
  }

  lemma {:induction false} JoinAgrees(ks: seq<string>, a: BucketId, b: BucketId)
    requires forall k :: k in ks ==> k in a && k in b && a[k] == b[k]
    ensures JoinRecords(ks, a) == JoinRecords(ks, b)
  {
    if ks == [] {
    } else {
      JoinAgrees(ks[1..], a, b);
    }
  }

  lemma {:induction false} LessExtended(a: string, b: string, t: string)
    requires Less(a, b)
    ensures Less(a, b + t)
  {
    if a == "" || a[0] < b[0] {
    } else {
      LessExtended(a[1..], b[1..], t);
      assert (b + t)[1..] == b[1..] + t;
    }
  }

  /** NUL sorts before everything else. */
  lemma {:induction false} LessWithNul(a: string, b: string, t: string)
    requires Less(a, b) && NUL !in b
    ensures Less(a + [NUL] + t, b)
  {
    if a == "" || a[0] < b[0] {
    } else {
      LessWithNul(a[1..], b[1..], t);
      assert (a + [NUL] + t)[1..] == a[1..] + [NUL] + t;
    }
  }

  /** The id with two neighbours replaced by one entry that reads the same. */
  ghost function Replaced(a: BucketId, k: string, next: string, key: string, value: string): BucketId {
    (a - {k, next})[key := value]
  }

  /** `ks` is the sorted key list of `a`, and stays sorted with `key` in the place of the two neighbours. */
  ghost predicate Replaceable(a: BucketId, pre: seq<string>, k: string, next: string, suf: seq<string>, key: string) {
    && StrictlySorted(pre + [k, next] + suf) && Elements(pre + [k, next] + suf) == a.Keys
    && StrictlySorted(pre + [key] + suf)
  }

  lemma JoinOneTwo(a: BucketId, k: string, next: string, b: BucketId, key: string)
    requires k in a && next in a && key in b
    ensures JoinRecords([k, next], a) == PairRecord(k, a[k]) + [RS] + PairRecord(next, a[next])
    ensures JoinRecords([key], b) == PairRecord(key, b[key])
  {
    assert [k, next][1..] == [next];
  }

  lemma JoinThree(pre: seq<string>, mid: seq<string>, suf: seq<string>, id: BucketId)
    requires mid != [] && forall k :: k in pre + mid + suf ==> k in id
    ensures JoinRecords(pre + mid + suf, id)
         == (if pre == [] then "" else JoinRecords(pre, id) + [RS]) + JoinRecords(mid, id)
            + (if suf == [] then "" else [RS] + JoinRecords(suf, id))
  {
    hide JoinRecords;
    if pre == [] {
      assert pre + mid == mid;
    } else {
      JoinAppend(pre, mid, id);
    }
    if suf == [] {
      assert pre + mid + suf == pre + mid;
    } else {
      JoinAppend(pre + mid, suf, id);
    }
  }

  lemma MidDistinct(pre: seq<string>, mid: seq<string>, suf: seq<string>, x: string, y: string)
    requires StrictlySorted(pre + mid + suf) && (x in pre || x in suf) && y in mid
    ensures x != y
  {
    var all := pre + mid + suf;
    var j :| 0 <= j < |mid| && mid[j] == y;
    assert all[|pre| + j] == y;
    if x in pre {
      var i :| 0 <= i < |pre| && pre[i] == x;
      assert all[i] == x;
    } else {
      var i :| 0 <= i < |suf| && suf[i] == x;
      assert all[|pre| + |mid| + i] == x;
    }
    LessIrreflexive(x);
  }

  /** The new id has the expected keys, and its other entries are as before. */
  lemma ReplacedEntries(a: BucketId, pre: seq<string>, k: string, next: string, suf: seq<string>, key: string,
                        value: string)
    requires Replaceable(a, pre, k, next, suf, key)
    ensures var b := Replaced(a, k, next, key, value);
            && Elements(pre + [key] + suf) == b.Keys && key in b && b[key] == value
            && (forall x :: x in pre + [k, next] + suf ==> x in a) && (forall x :: x in pre + [key] + suf ==> x in b)
            && (forall x :: x in pre || x in suf ==> x in a && x in b && a[x] == b[x])
  {
    hide StrictlySorted;
    forall x | x in pre || x in suf ensures x != k && x != next && x != key {
      MidDistinct(pre, [k, next], suf, x, k);
      MidDistinct(pre, [k, next], suf, x, next);
      MidDistinct(pre, [key], suf, x, key);
    }
    assert forall x :: x in a <==> x in Elements(pre + [k, next] + suf);
  }

  lemma JoinReplaced(a: BucketId, pre: seq<string>, k: string, next: string, suf: seq<string>, key: string,
                     value: string)
    requires Replaceable(a, pre, k, next, suf, key) && k in a && next in a
    requires PairRecord(key, value) == PairRecord(k, a[k]) + [RS] + PairRecord(next, a[next])
    ensures KeyOf(Replaced(a, k, next, key, value)) == KeyOf(a)
  {
    hide PairRecord, JoinRecords, Elements, StrictlySorted, Replaced;
    var b := Replaced(a, k, next, key, value);
    ReplacedEntries(a, pre, k, next, suf, key, value);
    SortedListIs(a.Keys, pre + [k, next] + suf);
    SortedListIs(b.Keys, pre + [key] + suf);
    JoinThree(pre, [k, next], suf, a);
    JoinThree(pre, [key], suf, b);
    JoinAgrees(pre, a, b);
    JoinAgrees(suf, a, b);
    JoinOneTwo(a, k, next, b, key);
  }

  lemma SortedWith(pre: seq<string>, k: string, next: string, suf: seq<string>, key: string)
    requires StrictlySorted(pre + [k, next] + suf)
    requires (forall x :: x in pre ==> Less(x, key)) && forall x :: x in suf ==> Less(key, x)
    ensures StrictlySorted(pre + [key] + suf)
  {
    hide Less;
    var was, js, n := pre + [k, next] + suf, pre + [key] + suf, |pre|;
    forall x, y | 0 <= x < y < |js| ensures Less(js[x], js[y]) {
      if x == n {
        assert js[y] in suf;
      } else if y == n {
        assert js[x] in pre;
      } else {
        var x', y' := if x < n then x else x + 1, if y < n then y else y + 1;
        assert was[x'] == js[x] && was[y'] == js[y];
      }
    }
  }

  lemma Neighbours(pre: seq<string>, k: string, next: string, suf: seq<string>)
    requires StrictlySorted(pre + [k, next] + suf)
    ensures (forall x :: x in pre ==> Less(x, k)) && forall x :: x in suf ==> Less(k, x)
  {
    hide Less;
    var all := pre + [k, next] + suf;
    forall x | x in pre ensures Less(x, k) {
      var i :| 0 <= i < |pre| && pre[i] == x;
      assert all[i] == x && all[|pre|] == k;
    }
    forall x | x in suf ensures Less(k, x) {
      var i :| 0 <= i < |suf| && suf[i] == x;
      assert all[|pre| + 2 + i] == x && all[|pre|] == k;
    }
  }

  /** Both merges keep the order of the keys, so that the result is an id with the same key. */
  lemma MergesReadTheSame(a: BucketId, pre: seq<string>, k: string, next: string, suf: seq<string>)
    requires Plain(a) && StrictlySorted(pre + [k, next] + suf) && Elements(pre + [k, next] + suf) == a.Keys
    requires k in a && next in a
    ensures KeyOf(Replaced(a, k, next, k, InValue(a, k, next))) == KeyOf(a)
    ensures KeyOf(Replaced(a, k, next, InKey(a, k, next), a[next])) == KeyOf(a)
  {
    hide KeyOf, Replaced, StrictlySorted, Less;
    Neighbours(pre, k, next, suf);
    SortedWith(pre, k, next, suf, k);
    assert PairRecord(k, InValue(a, k, next)) == PairRecord(k, a[k]) + [RS] + PairRecord(next, a[next]);
    JoinReplaced(a, pre, k, next, suf, k, InValue(a, k, next));

    var key, tail := InKey(a, k, next), a[k] + [RS] + next;
    assert key == k + ([NUL] + tail) == k + [NUL] + tail;
    forall x | x in pre ensures Less(x, key) {
      LessExtended(x, k, [NUL] + tail);
    }
    forall x | x in suf ensures Less(key, x) {
      assert x in Elements(pre + [k, next] + suf);
      LessWithNul(k, x, tail);
    }
    SortedWith(pre, k, next, suf, key);
    assert PairRecord(key, a[next]) == PairRecord(k, a[k]) + [RS] + PairRecord(next, a[next]);
    JoinReplaced(a, pre, k, next, suf, key, a[next]);
  }

  lemma ReplacedIsAccepted(l: Limits, a: BucketId, k: string, next: string, key: string, value: string)
    requires ValidBucket(l, a) && k in a && next in a && k != next && key != "" && value != ""
    requires WithinLimit(|key|, l.maxBucketKeyLen) && WithinLimit(|value|, l.maxBucketValueLen)
    ensures ValidBucket(l, Replaced(a, k, next, key, value))
  {
    var b := Replaced(a, k, next, key, value);
    assert b.Keys == (a.Keys - {k, next}) + {key};
    assert |a.Keys - {k, next}| < |a.Keys|;
  }

  lemma MergesDiffer(l: Limits, a: BucketId, k: string, next: string)
    requires ValidBucket(l, a) && Plain(a) && k in a && next in a
    ensures Replaced(a, k, next, k, InValue(a, k, next)) != a
    ensures Replaced(a, k, next, InKey(a, k, next), a[next]) != a
    ensures k != "" && InValue(a, k, next) != "" && InKey(a, k, next) != "" && a[next] != ""
    ensures WithinLimit(|k|, l.maxBucketKeyLen) && WithinLimit(|a[next]|, l.maxBucketValueLen)
  {
    assert |InValue(a, k, next)| > |a[k]|;
    assert Replaced(a, k, next, k, InValue(a, k, next))[k] != a[k];
    assert InKey(a, k, next)[|k|] == NUL;
    assert InKey(a, k, next) in Replaced(a, k, next, InKey(a, k, next), a[next]);
  }

  lemma MergeCollides(l: Limits, a: BucketId)
    requires ValidBucket(l, a) && Plain(a) && HasMerge(l, a)
    ensures exists b: BucketId :: b != a && ValidBucket(l, b) && KeyOf(b) == KeyOf(a)
  {
    hide KeyOf, Replaced, ValidBucket, WithinLimit, Less, InKey, InValue;
    var ks := SortedList(a.Keys);
    var i :| 0 <= i < |ks| - 1 && ks[i] in a && ks[i + 1] in a && Mergeable(l, a, ks[i], ks[i + 1]);
    var k, next := ks[i], ks[i + 1];
    assert ks == ks[..i] + [k, next] + ks[i + 2..];
    MergesReadTheSame(a, ks[..i], k, next, ks[i + 2..]);
    MergesDiffer(l, a, k, next);
    LessIrreflexive(k);
    if WithinLimit(|InValue(a, k, next)|, l.maxBucketValueLen) {
      ReplacedIsAccepted(l, a, k, next, k, InValue(a, k, next));
    } else {
      ReplacedIsAccepted(l, a, k, next, InKey(a, k, next), a[next]);
    }
  }

  lemma SharedKeyHasMerge(l: Limits, a: BucketId, b: BucketId)
    requires ValidBucket(l, a) && Plain(a) && ValidBucket(l, b) && KeyOf(b) == KeyOf(a)
    ensures b == a || HasMerge(l, a)
  {
    hide JoinRecords, Plain, StrictlySorted, InKey, InValue;
    var ks, js := SortedList(a.Keys), SortedList(b.Keys);
    assert forall k :: k in ks <==> k in Elements(ks);
    assert forall k :: k in js <==> k in Elements(js);
    OnlyEmptyHasEmptyKey(a);
    OnlyEmptyHasEmptyKey(b);
    EmptyElements(ks);
    EmptyElements(js);
    if ks != [] && js != [] {
      var same, i, j := SameOrMerged(ks, a, js, b);
      if same {
        assert a.Keys == b.Keys;
      } else {
        assert js[j] in b && ks[i] in a && ks[i + 1] in a;
        assert Mergeable(l, a, ks[i], ks[i + 1]);
      }
    }
  }

  /**
    Among the ids the server accepts under any limits: one without NUL and RS shares its key with another
    exactly if two neighbouring entries can be read as one within the limits.
  */
  lemma PlainCollidesIff(l: Limits, a: BucketId)
    requires ValidBucket(l, a) && Plain(a)
    ensures (exists b: BucketId :: b != a && ValidBucket(l, b) && KeyOf(b) == KeyOf(a)) <==> HasMerge(l, a)
  {
    if HasMerge(l, a) {
      MergeCollides(l, a);
    }
    forall b: BucketId | b != a && ValidBucket(l, b) && KeyOf(b) == KeyOf(a) ensures HasMerge(l, a) {
      SharedKeyHasMerge(l, a, b);
    }
  }
}
