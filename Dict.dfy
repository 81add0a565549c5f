/** Plain JavaScript objects used as string dictionaries (`Record<string,
    string>`): an association list in insertion order with distinct keys.
    Insertion order is what `Object.keys` and `Object.entries` enumerate
    for keys that are not array indices; JavaScript would list keys such
    as `"15"` first, in numeric order, which this model does not. */
module Dict {
  import opened Text

  type Dict = seq<(string, string)>

  function KeysOf(d: Dict): (ks: seq<string>)
    ensures |ks| == |d| && forall i :: 0 <= i < |d| ==> ks[i] == d[i].0
  {
    if d == [] then [] else [d[0].0] + KeysOf(d[1..])
  }

  predicate HasKey(d: Dict, k: string) {
    exists i :: 0 <= i < |d| && d[i].0 == k
  }

  predicate DistinctKeys(d: Dict) {
    forall i, j :: 0 <= i < j < |d| ==> d[i].0 != d[j].0
  }

  /** `obj[k]`: the value stored under `k`, if any. */
  function Get(d: Dict, k: string): (r: Option<string>)
    ensures r.Some? <==> HasKey(d, k)
  {
    if d == [] then None
    else if d[0].0 == k then Some(d[0].1)
    else
      assert HasKey(d, k) <==> HasKey(d[1..], k) by {
        if HasKey(d, k) {
          var i :| 0 <= i < |d| && d[i].0 == k;
          assert d[1..][i - 1].0 == k;
        }
        if HasKey(d[1..], k) {
          var i :| 0 <= i < |d[1..]| && d[1..][i].0 == k;
          assert d[i + 1].0 == k;
        }
      }
      Get(d[1..], k)
  }

  /** `obj[k]` read as a JavaScript condition: present and not the empty string. */
  predicate Truthy(d: Dict, k: string) {
    Get(d, k).Some? && Get(d, k).value != ""
  }

  /** `obj[k] = v`: an existing key keeps its position, a new key goes last. */
  function Put(d: Dict, k: string, v: string): Dict {
    if d == [] then [(k, v)]
    else if d[0].0 == k then [(k, v)] + d[1..]
    else [d[0]] + Put(d[1..], k, v)
  }

  /** `{ ...a, ...b }`: the entries of `b` written over `a`, in `b`'s order. */
  function Merge(a: Dict, b: Dict): Dict
    decreases |b|
  {
    if b == [] then a else Merge(Put(a, b[0].0, b[0].1), b[1..])
  }

  /** The keys of `b` not in `keys`, in `b`'s order, each once. */
  function NewKeys(keys: seq<string>, b: Dict): seq<string>
    decreases |b|
  {
    if b == [] then []
    else if b[0].0 in keys then NewKeys(keys, b[1..])
    else [b[0].0] + NewKeys(keys + [b[0].0], b[1..])
  }

  lemma HasKeyIffListed(d: Dict, k: string)
    ensures HasKey(d, k) <==> k in KeysOf(d)
  {
    var ks := KeysOf(d);
    if k in ks {
      var i :| 0 <= i < |ks| && ks[i] == k;
      assert d[i].0 == k;
    }
  }

  lemma {:induction false} PutGet(d: Dict, k: string, v: string, k': string)
    ensures Get(Put(d, k, v), k') == if k' == k then Some(v) else Get(d, k')
    decreases |d|
  {
    if d != [] && d[0].0 != k {
      PutGet(d[1..], k, v, k');
    }
  }

  /** Writing a key keeps the other keys where they were; a new key is appended. */
  lemma {:induction false} PutKeys(d: Dict, k: string, v: string)
    ensures KeysOf(Put(d, k, v)) == if HasKey(d, k) then KeysOf(d) else KeysOf(d) + [k]
    decreases |d|
  {
    if d == [] {
      assert KeysOf([(k, v)]) == [k];
    } else if d[0].0 == k {
      assert HasKey(d, k);
    } else {
      var rest := Put(d[1..], k, v);
      PutKeys(d[1..], k, v);
      HasKeyTail(d, k);
      assert KeysOf(d) == [d[0].0] + KeysOf(d[1..]);
      assert ([d[0]] + rest)[1..] == rest;
      assert KeysOf([d[0]] + rest) == [d[0].0] + KeysOf(rest);
      if !HasKey(d, k) {
        assert [d[0].0] + (KeysOf(d[1..]) + [k]) == [d[0].0] + KeysOf(d[1..]) + [k];
      }
    }
  }

  /** The keys of a non-empty dictionary are those before its last entry,
      then the last entry's key. */
  lemma KeysOfLast(d: Dict)
    requires d != []
    ensures KeysOf(d) == KeysOf(d[..|d| - 1]) + [d[|d| - 1].0]
  {
  }

  /** With distinct keys, the last key is not among the keys before it. */
  lemma LastKeyFresh(d: Dict, r: Dict)
    requires d != [] && DistinctKeys(d) && KeysOf(r) == KeysOf(d[..|d| - 1])
    ensures !HasKey(r, d[|d| - 1].0)
  {
    forall i | 0 <= i < |r| ensures r[i].0 != d[|d| - 1].0 {
      assert KeysOf(r)[i] == d[i].0;
    }
  }

  lemma DistinctInit(d: Dict)
    requires d != [] && DistinctKeys(d)
    ensures DistinctKeys(d[..|d| - 1])
  {
  }

  /** Past a different first key, the key is present iff it is in the rest. */
  lemma HasKeyTail(d: Dict, k: string)
    requires d != [] && d[0].0 != k
    ensures HasKey(d, k) <==> HasKey(d[1..], k)
  {
    if HasKey(d, k) {
      var i :| 0 <= i < |d| && d[i].0 == k;
      assert d[1..][i - 1].0 == k;
    }
    if HasKey(d[1..], k) {
      var i :| 0 <= i < |d[1..]| && d[1..][i].0 == k;
      assert d[i + 1].0 == k;
    }
  }

  lemma PutDistinct(d: Dict, k: string, v: string)
    requires DistinctKeys(d)
    ensures DistinctKeys(Put(d, k, v))
    ensures |Put(d, k, v)| == if HasKey(d, k) then |d| else |d| + 1
  {
    PutKeys(d, k, v);
    var p := Put(d, k, v);
    var ks, ks' := KeysOf(d), KeysOf(p);
    assert forall i :: 0 <= i < |p| ==> ks'[i] == p[i].0;
    if !HasKey(d, k) {
      forall i | 0 <= i < |d| ensures d[i].0 != k {
      }
    }
  }

  /** Spread precedence: the later source wins on a shared key. */
  lemma {:induction false} MergeGet(a: Dict, b: Dict, k: string)
    requires DistinctKeys(b)
    ensures Get(Merge(a, b), k) == if HasKey(b, k) then Get(b, k) else Get(a, k)
    decreases |b|
  {
    if b != [] {
      var a' := Put(a, b[0].0, b[0].1);
      PutGet(a, b[0].0, b[0].1, k);
      MergeGet(a', b[1..], k);
      assert HasKey(b, k) <==> b[0].0 == k || HasKey(b[1..], k) by {
        if HasKey(b, k) && b[0].0 != k {
          var i :| 0 <= i < |b| && b[i].0 == k;
          assert b[1..][i - 1].0 == k;
        }
        if HasKey(b[1..], k) {
          var i :| 0 <= i < |b[1..]| && b[1..][i].0 == k;
          assert b[i + 1].0 == k;
        }
      }
      if b[0].0 == k {
        forall i | 0 <= i < |b[1..]| ensures b[1..][i].0 != k {
          assert b[1..][i] == b[i + 1];
        }
      }
    }
  }

  /** The merged keys are the first object's keys, then the new ones in order. */
  lemma {:induction false} MergeKeys(a: Dict, b: Dict)
    ensures KeysOf(Merge(a, b)) == KeysOf(a) + NewKeys(KeysOf(a), b)
    decreases |b|
  {
    if b != [] {
      var k := b[0].0;
      var a' := Put(a, k, b[0].1);
      var ks, ks' := KeysOf(a), KeysOf(a');
      assert Merge(a, b) == Merge(a', b[1..]);
      MergeKeys(a', b[1..]);
      assert KeysOf(Merge(a, b)) == ks' + NewKeys(ks', b[1..]);
      PutKeys(a, k, b[0].1);
      HasKeyIffListed(a, k);
      if k in ks {
        assert ks' == ks;
        assert NewKeys(ks, b) == NewKeys(ks, b[1..]);
      } else {
        assert ks' == ks + [k];
        assert NewKeys(ks, b) == [k] + NewKeys(ks', b[1..]);
        assert ks' + NewKeys(ks', b[1..]) == ks + ([k] + NewKeys(ks', b[1..]));
      }
    }
  }

  lemma MergeDistinct(a: Dict, b: Dict)
    requires DistinctKeys(a)
    ensures DistinctKeys(Merge(a, b))
    decreases |b|
  {
    if b != [] {
      PutDistinct(a, b[0].0, b[0].1);
      MergeDistinct(Put(a, b[0].0, b[0].1), b[1..]);
    }
  }

  lemma {:induction false} GetAppend(d: Dict, k: string, v: string, k': string)
    ensures HasKey(d + [(k, v)], k') <==> HasKey(d, k') || k' == k
    ensures Get(d + [(k, v)], k') == if HasKey(d, k') then Get(d, k') else if k' == k then Some(v) else None
    decreases |d|
  {
    var e := d + [(k, v)];
    assert e[|d|].0 == k;
    if HasKey(d, k') {
      var i :| 0 <= i < |d| && d[i].0 == k';
      assert e[i].0 == k';
    }
    if d != [] {
      assert e[1..] == d[1..] + [(k, v)];
      GetAppend(d[1..], k, v, k');
      if d[0].0 != k' {
        assert HasKey(d, k') <==> HasKey(d[1..], k') by {
          if HasKey(d, k') {
            var i :| 0 <= i < |d| && d[i].0 == k';
            assert d[1..][i - 1].0 == k';
          }
          if HasKey(d[1..], k') {
            var i :| 0 <= i < |d[1..]| && d[1..][i].0 == k';
            assert d[i + 1].0 == k';
          }
        }
      } else {
        assert d[0].0 == k';
      }
    }
  }
}
