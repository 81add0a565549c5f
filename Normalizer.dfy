/** `SumoTextNormalizer`: replaces sumo terms, techniques, organizations
    and wrestler names by their readings before speech synthesis, then
    spells out numbers with units.

    The wrestler-name lookup asks a language model for the names in the
    text and their readings, and the official site for each name it does
    not know yet; both are given here as oracles (`AiReply`, `official`).
    Dictionaries are ordered string maps (`Dict`). */
module SumoNormalizer {
  import opened Text
  import opened Dict
  import opened NumberReadings

  // ---------------------------------------------------------------------
  // escapeRegExp

  /** `escapeRegExp`: a backslash before every regular-expression
      metacharacter. */
  function EscapeRegExp(s: string): (r: string)
    ensures |r| >= |s|
  {
    if s == [] then []
    else (if IsRegexMeta(s[0]) then ['\\', s[0]] else [s[0]]) + EscapeRegExp(s[1..])
  }

  /** A pattern built only of ordinary characters and escaped
      metacharacters: it matches exactly one string. */
  predicate IsLiteralPattern(p: string)
    decreases |p|
  {
    if p == [] then true
    else if p[0] == '\\' then |p| >= 2 && IsRegexMeta(p[1]) && IsLiteralPattern(p[2..])
    else !IsRegexMeta(p[0]) && IsLiteralPattern(p[1..])
  }

  /** The string a literal pattern matches. */
  function PatternText(p: string): string
    requires IsLiteralPattern(p)
    decreases |p|
  {
    if p == [] then []
    else if p[0] == '\\' then [p[1]] + PatternText(p[2..])
    else [p[0]] + PatternText(p[1..])
  }

  /** An escaped key is a literal pattern that matches the key itself, so
      `new RegExp(escapeRegExp(kanji), 'g')` replaces the key literally. */
  lemma {:induction false} EscapeIsLiteral(s: string)
    ensures IsLiteralPattern(EscapeRegExp(s))
    ensures PatternText(EscapeRegExp(s)) == s
  {
    if s != [] {
      EscapeIsLiteral(s[1..]);
      var rest := EscapeRegExp(s[1..]);
      if IsRegexMeta(s[0]) {
        var p := ['\\', s[0]] + rest;
        assert p[2..] == rest;
      } else {
        assert s[0] != '\\';
        var p := [s[0]] + rest;
        assert p[1..] == rest;
      }
    }
  }

  // ---------------------------------------------------------------------
  // Ordering the keys: `Object.keys(allEntries).sort((a, b) => b.length - a.length)`

  /** Puts `k` before the first key that is not longer than it. */
  function InsertByLength(k: string, sorted: seq<string>): seq<string>
  {
    if sorted == [] then [k]
    else if |sorted[0]| > |k| then [sorted[0]] + InsertByLength(k, sorted[1..])
    else [k] + sorted
  }

  /** `Array.prototype.sort` with a length-descending comparator; the sort
      is stable, so keys of equal length keep their order. */
  function SortByLength(keys: seq<string>): seq<string>
  {
    if keys == [] then [] else InsertByLength(keys[0], SortByLength(keys[1..]))
  }

  lemma {:induction false} InsertPermutes(k: string, sorted: seq<string>)
    ensures multiset(InsertByLength(k, sorted)) == multiset(sorted) + multiset{k}
  {
    if sorted != [] && |sorted[0]| > |k| {
      InsertPermutes(k, sorted[1..]);
      assert sorted == [sorted[0]] + sorted[1..];
    }
  }

  /** Sorting only reorders the keys. */
  lemma {:induction false} SortPermutes(keys: seq<string>)
    ensures multiset(SortByLength(keys)) == multiset(keys)
  {
    if keys != [] {
      SortPermutes(keys[1..]);
      InsertPermutes(keys[0], SortByLength(keys[1..]));
      assert keys == [keys[0]] + keys[1..];
    }
  }

  predicate LongestFirst(s: seq<string>) {
    forall i, j :: 0 <= i < j < |s| ==> |s[i]| >= |s[j]|
  }

  /** The keys of length `n`, in order. */
  function WithLength(s: seq<string>, n: nat): seq<string> {
    if s == [] then []
    else (if |s[0]| == n then [s[0]] else []) + WithLength(s[1..], n)
  }

  lemma {:induction false} InsertKeepsOrder(k: string, sorted: seq<string>)
    requires LongestFirst(sorted)
    ensures LongestFirst(InsertByLength(k, sorted))
  {
    if sorted == [] {
    } else if |sorted[0]| > |k| {
      InsertKeepsOrder(k, sorted[1..]);
      var rest := InsertByLength(k, sorted[1..]);
      InsertMembers(k, sorted[1..]);
      forall j | 0 <= j < |rest| ensures |sorted[0]| >= |rest[j]| {
        if rest[j] != k {
          var m :| 0 <= m < |sorted[1..]| && sorted[1..][m] == rest[j];
          assert sorted[m + 1] == rest[j];
        }
      }
      ConsLongestFirst(sorted[0], rest);
    } else {
      forall j | 0 <= j < |sorted| ensures |k| >= |sorted[j]| {
        assert |sorted[0]| >= |sorted[j]|;
      }
      ConsLongestFirst(k, sorted);
    }
  }

  /** Every key of the insertion's result is the inserted key or an old one. */
  lemma {:induction false} InsertMembers(k: string, sorted: seq<string>)
    ensures forall j :: 0 <= j < |InsertByLength(k, sorted)| ==>
      InsertByLength(k, sorted)[j] == k || InsertByLength(k, sorted)[j] in sorted
  {
    if sorted != [] && |sorted[0]| > |k| {
      InsertMembers(k, sorted[1..]);
      var rest := InsertByLength(k, sorted[1..]);
      forall j | 0 <= j < |rest| + 1
        ensures ([sorted[0]] + rest)[j] == k || ([sorted[0]] + rest)[j] in sorted
      {
        if j > 0 {
          assert ([sorted[0]] + rest)[j] == rest[j - 1];
          assert rest[j - 1] in sorted[1..] ==> rest[j - 1] in sorted;
        }
      }
    }
  }

  lemma ConsLongestFirst(x: string, s: seq<string>)
    requires LongestFirst(s)
    requires forall j :: 0 <= j < |s| ==> |x| >= |s[j]|
    ensures LongestFirst([x] + s)
  {
    var t := [x] + s;
    forall i, j | 0 <= i < j < |t| ensures |t[i]| >= |t[j]| {
      assert t[j] == s[j - 1];
      if i > 0 {
        assert t[i] == s[i - 1];
      }
    }
  }

  /** The sorted keys run from longest to shortest. */
  lemma {:induction false} SortIsLongestFirst(keys: seq<string>)
    ensures LongestFirst(SortByLength(keys))
  {
    if keys != [] {
      SortIsLongestFirst(keys[1..]);
      InsertKeepsOrder(keys[0], SortByLength(keys[1..]));
    }
  }

  lemma {:induction false} WithLengthConcat(a: seq<string>, b: seq<string>, n: nat)
    ensures WithLength(a + b, n) == WithLength(a, n) + WithLength(b, n)
  {
    if a != [] {
      assert (a + b)[1..] == a[1..] + b;
      WithLengthConcat(a[1..], b, n);
    } else {
      assert a + b == b;
    }
  }

  lemma {:induction false} InsertWithLength(k: string, sorted: seq<string>, n: nat)
    ensures WithLength(InsertByLength(k, sorted), n)
         == if |k| == n then [k] + WithLength(sorted, n) else WithLength(sorted, n)
  {
    WithLengthSingle(k, n);
    if sorted == [] {
      assert InsertByLength(k, sorted) == [k];
      assert WithLength(sorted, n) == [];
    } else if |sorted[0]| > |k| {
      InsertWithLength(k, sorted[1..], n);
      InsertAfterHead(k, sorted, n);
    } else {
      assert InsertByLength(k, sorted) == [k] + sorted;
      WithLengthConcat([k], sorted, n);
    }
  }

  /** The inductive step of `InsertWithLength`, when `k` goes after the
      first key. */
  lemma InsertAfterHead(k: string, sorted: seq<string>, n: nat)
    requires sorted != [] && |sorted[0]| > |k|
    requires WithLength(InsertByLength(k, sorted[1..]), n) == WithLength([k], n) + WithLength(sorted[1..], n)
    requires WithLength([k], n) == if |k| == n then [k] else []
    ensures WithLength(InsertByLength(k, sorted), n) == WithLength([k], n) + WithLength(sorted, n)
  {
    var head, tail := sorted[0], sorted[1..];
    var rest := InsertByLength(k, tail);
    var mine := WithLength([k], n);
    assert InsertByLength(k, sorted) == [head] + rest;
    WithLengthConcat([head], rest, n);
    assert sorted == [head] + tail;
    WithLengthConcat([head], tail, n);
    WithLengthSingle(head, n);
    if |k| == n {
      assert WithLength([head], n) == [];
    } else {
      assert mine == [];
    }
  }

  lemma WithLengthSingle(k: string, n: nat)
    ensures WithLength([k], n) == if |k| == n then [k] else []
  {
    assert [k][1..] == [];
  }

  /** Stability: for each length, the keys of that length come out in the
      order they went in. */
  lemma {:induction false} SortIsStable(keys: seq<string>, n: nat)
    ensures WithLength(SortByLength(keys), n) == WithLength(keys, n)
  {
    if keys != [] {
      SortIsStable(keys[1..], n);
      InsertWithLength(keys[0], SortByLength(keys[1..]), n);
    }
  }

  // ---------------------------------------------------------------------
  // Substitution

  /** The text after replacing, in the given key order, every key whose
      reading is non-empty (`if (!reading) continue;`). */
  function Substitute(text: string, keys: seq<string>, entries: Dict): string
    decreases |keys|
  {
    if keys == [] then text
    else
      SubstituteOne(Substitute(text, keys[..|keys| - 1], entries), keys[|keys| - 1], entries)
  }

  /** One pass of the loop: the key is replaced when its reading is non-empty. */
  function SubstituteOne(text: string, kanji: string, entries: Dict): string {
    if Truthy(entries, kanji) then ReplaceAll(text, kanji, Get(entries, kanji).value) else text
  }

  lemma SubstitutePair(text: string, a: string, b: string, entries: Dict)
    ensures Substitute(text, [a, b], entries) == SubstituteOne(SubstituteOne(text, a, entries), b, entries)
  {
    assert Substitute(text, [a], entries) == SubstituteOne(text, a, entries) by {
      assert [a][..0] == [];
    }
    assert [a, b][..1] == [a];
  }

  /** `{ ...terms, ...techniques, ...organizations, ...wrestlerCache, ...dynamic }`. */
  function AllEntries(terms: Dict, techniques: Dict, organizations: Dict, cache: Dict, dynamic: Dict): Dict {
    Merge(Merge(Merge(Merge(Merge([], terms), techniques), organizations), cache), dynamic)
  }

  /** What `normalize` makes of a text once the entries are merged: keys
      longest first, then the number readings. */
  function NormalizeWith(text: string, entries: Dict): string {
    NormalizeNumbers(Substitute(text, SortByLength(KeysOf(entries)), entries))
  }

  /** The later source wins: the model's readings over the wrestler cache,
      over organizations, over techniques, over terms. */
  lemma AllEntriesPrecedence(terms: Dict, techniques: Dict, organizations: Dict, cache: Dict, dynamic: Dict, k: string)
    requires DistinctKeys(terms) && DistinctKeys(techniques) && DistinctKeys(organizations)
    requires DistinctKeys(cache) && DistinctKeys(dynamic)
    ensures Get(AllEntries(terms, techniques, organizations, cache, dynamic), k)
         == if HasKey(dynamic, k) then Get(dynamic, k)
            else if HasKey(cache, k) then Get(cache, k)
            else if HasKey(organizations, k) then Get(organizations, k)
            else if HasKey(techniques, k) then Get(techniques, k)
            else Get(terms, k)
  {
    var m1 := Merge([], terms);
    var m2 := Merge(m1, techniques);
    var m3 := Merge(m2, organizations);
    var m4 := Merge(m3, cache);
    MergeGet([], terms, k);
    MergeGet(m1, techniques, k);
    MergeGet(m2, organizations, k);
    MergeGet(m3, cache, k);
    MergeGet(m4, dynamic, k);
  }

  lemma NameReplaced()
    ensures ReplaceAll("大の里が勝った", "大の里", "おおのさと") == "おおのさとが勝った"
  {
    var key, rep := "大の里", "おおのさと";
    assert "大の里が勝った"[..3] == key && "大の里が勝った"[3..] == "が勝った";
    assert ReplaceAll("た", key, rep) == "た";
    assert ReplaceAll("った", key, rep) == "った";
    assert ReplaceAll("勝った", key, rep) == "勝った";
    assert ReplaceAll("が勝った", key, rep) == "が勝った";
  }

  lemma NoShortKeyLeft()
    ensures ReplaceAll("おおのさとが勝った", "里", "さと") == "おおのさとが勝った"
  {
    AbsentHead("おおのさとが勝った", "里");
    ReplaceAllAbsent("おおのさとが勝った", "里", "さと");
  }

  lemma LengthOrderOfExample()
    ensures SortByLength(["里", "大の里"]) == ["大の里", "里"]
  {
  }

  lemma NoDigitInExample()
    ensures !HasDigit("おおのさとが勝った")
  {
  }

  /** Longest key first: with `{"大の里": "おおのさと", "里": "さと"}`, the
      whole name is read, even when the shorter key was added first. */
  lemma LongestKeyWins()
    ensures NormalizeWith("大の里が勝った", [("里", "さと"), ("大の里", "おおのさと")]) == "おおのさとが勝った"
  {
    var entries := [("里", "さと"), ("大の里", "おおのさと")];
    assert KeysOf(entries) == ["里", "大の里"];
    LengthOrderOfExample();
    NameReplaced();
    NoShortKeyLeft();
    assert Get(entries, "大の里") == Some("おおのさと");
    assert Get(entries, "里") == Some("さと");
    SubstitutePair("大の里が勝った", "大の里", "里", entries);
    NoDigitInExample();
    NormalizeNumbersNoDigit("おおのさとが勝った");
  }

  lemma ShortKeyReplaced()
    ensures ReplaceAll("大の里が勝った", "里", "さと") == "大のさとが勝った"
  {
    var key, rep, tail := "里", "さと", "が勝った";
    AbsentHead(tail, key);
    ReplaceAllAbsent(tail, key, rep);
    ReplaceAllHit(tail, key, rep);
    ReplaceAllSkip('の', key + tail, key, rep);
    ReplaceAllSkip('大', ['の'] + (key + tail), key, rep);
    assert "大の里が勝った" == ['大'] + (['の'] + (key + tail));
    assert "大のさとが勝った" == ['大'] + (['の'] + (rep + tail));
  }

  lemma LongKeyGone()
    ensures ReplaceAll("大のさとが勝った", "大の里", "おおのさと") == "大のさとが勝った"
  {
    var key, rep, tail := "大の里", "おおのさと", "さとが勝った";
    AbsentHead(tail, key);
    ReplaceAllAbsent(tail, key, rep);
    ReplaceAllSkip('の', tail, key, rep);
    assert (['大'] + (['の'] + tail))[..3][2] != key[2];
    ReplaceAllSkip('大', ['の'] + tail, key, rep);
    assert "大のさとが勝った" == ['大'] + (['の'] + tail);
  }

  /** The same entries in insertion order would garble the name. */
  lemma ShortestFirstGarbles()
    ensures Substitute("大の里が勝った", ["里", "大の里"], [("里", "さと"), ("大の里", "おおのさと")]) == "大のさとが勝った"
  {
    var entries := [("里", "さと"), ("大の里", "おおのさと")];
    ShortKeyReplaced();
    LongKeyGone();
    assert Get(entries, "大の里") == Some("おおのさと");
    assert Get(entries, "里") == Some("さと");
    SubstitutePair("大の里が勝った", "里", "大の里", entries);
  }

  /** The first pass over "王関": the long key is absent and the short one
      becomes 大. */
  lemma FirstPassOfExample()
    ensures Substitute("王関", ["大関", "王"], [("大関", "おおぜき"), ("王", "大")]) == "大関"
  {
    var entries := [("大関", "おおぜき"), ("王", "大")];
    assert Get(entries, "大関") == Some("おおぜき");
    assert Get(entries, "王") == Some("大");
    AbsentHead("王関", "大関");
    ReplaceAllAbsent("王関", "大関", "おおぜき");
    AbsentHead("関", "王");
    ReplaceAllAbsent("関", "王", "大");
    ReplaceAllHit("関", "王", "大");
    assert "王" + "関" == "王関";
    SubstitutePair("王関", "大関", "王", entries);
  }

  /** The second pass: the long key is now there. */
  lemma SecondPassOfExample()
    ensures Substitute("大関", ["大関", "王"], [("大関", "おおぜき"), ("王", "大")]) == "おおぜき"
  {
    var entries := [("大関", "おおぜき"), ("王", "大")];
    assert Get(entries, "大関") == Some("おおぜき");
    assert Get(entries, "王") == Some("大");
    ReplaceAllHit([], "大関", "おおぜき");
    assert "大関" + [] == "大関";
    assert ReplaceAll([], "大関", "おおぜき") == [];
    assert ReplaceAll("大関", "大関", "おおぜき") == "おおぜき";
    AbsentHead("おおぜき", "王");
    ReplaceAllAbsent("おおぜき", "王", "大");
    SubstitutePair("大関", "大関", "王", entries);
  }

  lemma NoDigitInPasses()
    ensures !HasDigit("大関") && !HasDigit("おおぜき")
  {
  }

  /** Normalizing twice is not normalizing once, even with fixed entries:
      with `{"大関": "おおぜき", "王": "大"}` the first pass turns "王関"
      into "大関", which only the second pass reads. */
  lemma NormalizeNotIdempotent()
    ensures var entries := [("大関", "おおぜき"), ("王", "大")];
      && NormalizeWith("王関", entries) == "大関"
      && NormalizeWith(NormalizeWith("王関", entries), entries) == "おおぜき"
      && NormalizeWith(NormalizeWith("王関", entries), entries) != NormalizeWith("王関", entries)
  {
    var entries := [("大関", "おおぜき"), ("王", "大")];
    assert KeysOf(entries) == ["大関", "王"];
    assert SortByLength(["大関", "王"]) == ["大関", "王"];
    FirstPassOfExample();
    SecondPassOfExample();
    NoDigitInPasses();
    NormalizeNumbersNoDigit("大関");
    NormalizeNumbersNoDigit("おおぜき");
  }

  // ---------------------------------------------------------------------
  // Wrestler readings

  /** The language model's answer in `extractWrestlerReadings`. */
  datatype AiReply =
    | CallFailed              // the request threw
    | NoContent               // no message content
    | Unparsable              // `JSON.parse` threw
    | Readings(entries: Dict) // name -> reading, as parsed

  predicate WellFormedReply(reply: AiReply) {
    reply.Readings? ==> DistinctKeys(reply.entries)
  }

  /** `if (officialReading)`: the lookup found a non-empty reading. */
  predicate Found(r: Option<string>) {
    r.Some? && r.value != ""
  }

  /** The reading chosen for one name: the cached one if it is non-empty,
      else the official one if found, else the model's. */
  function ChosenReading(cache: Dict, kanji: string, aiReading: string, official: string -> Option<string>): string {
    if Truthy(cache, kanji) then Get(cache, kanji).value
    else if Found(official(kanji)) then official(kanji).value
    else aiReading
  }

  /** The readings loop over the model's entries, in order: the returned
      readings and the cache afterwards. */
  function Resolve(cache: Dict, entries: Dict, official: string -> Option<string>): (Dict, Dict)
    decreases |entries|
  {
    if entries == [] then ([], cache)
    else
      var (readings, c) := Resolve(cache, entries[..|entries| - 1], official);
      var (kanji, aiReading) := entries[|entries| - 1];
      if Truthy(c, kanji) then (Put(readings, kanji, Get(c, kanji).value), c)
      else
        var reading := if Found(official(kanji)) then official(kanji).value else aiReading;
        (Put(readings, kanji, reading), Put(c, kanji, reading))
  }

  /** For each name the model returned, the reading is the cached one, else
      the official one, else the model's, and the cache then holds that
      same reading; every other name is absent from the readings and keeps
      its cache entry. */
  lemma {:induction false} ResolveGet(cache: Dict, entries: Dict, official: string -> Option<string>, k: string)
    requires DistinctKeys(entries)
    ensures var (readings, c) := Resolve(cache, entries, official);
      && (HasKey(entries, k) ==>
            && Get(readings, k) == Some(ChosenReading(cache, k, Get(entries, k).value, official))
            && Get(c, k) == Get(readings, k))
      && (!HasKey(entries, k) ==> Get(readings, k) == None && Get(c, k) == Get(cache, k))
    decreases |entries|
  {
    if entries != [] {
      var init := entries[..|entries| - 1];
      var (kanji, aiReading) := entries[|entries| - 1];
      assert entries == init + [(kanji, aiReading)];
      assert DistinctKeys(init);
      ResolveGet(cache, init, official, k);
      ResolveGet(cache, init, official, kanji);
      GetAppend(init, kanji, aiReading, k);
      forall i | 0 <= i < |init| ensures init[i].0 != kanji {
        assert entries[i].0 != entries[|entries| - 1].0;
      }
      var (readings, c) := Resolve(cache, init, official);
      if Truthy(c, kanji) {
        PutGet(readings, kanji, Get(c, kanji).value, k);
      } else {
        var reading := if Found(official(kanji)) then official(kanji).value else aiReading;
        PutGet(readings, kanji, reading, k);
        PutGet(c, kanji, reading, k);
      }
    }
  }

  /** The readings list the model's names in its order. */
  lemma {:induction false} ResolveKeys(cache: Dict, entries: Dict, official: string -> Option<string>)
    requires DistinctKeys(entries)
    ensures KeysOf(Resolve(cache, entries, official).0) == KeysOf(entries)
    decreases |entries|
  {
    if entries != [] {
      var init := entries[..|entries| - 1];
      var (kanji, aiReading) := entries[|entries| - 1];
      DistinctInit(entries);
      ResolveKeys(cache, init, official);
      var (readings, c) := Resolve(cache, init, official);
      LastKeyFresh(entries, readings);
      var reading := if Truthy(c, kanji) then Get(c, kanji).value
                     else if Found(official(kanji)) then official(kanji).value else aiReading;
      PutKeys(readings, kanji, reading);
      KeysOfLast(entries);
    }
  }

  lemma {:induction false} ResolveDistinct(cache: Dict, entries: Dict, official: string -> Option<string>)
    requires DistinctKeys(cache)
    ensures DistinctKeys(Resolve(cache, entries, official).0) && DistinctKeys(Resolve(cache, entries, official).1)
    decreases |entries|
  {
    if entries != [] {
      var init := entries[..|entries| - 1];
      var (kanji, aiReading) := entries[|entries| - 1];
      ResolveDistinct(cache, init, official);
      var (readings, c) := Resolve(cache, init, official);
      var reading := if Truthy(c, kanji) then Get(c, kanji).value
                     else if Found(official(kanji)) then official(kanji).value else aiReading;
      PutDistinct(readings, kanji, reading);
      PutDistinct(c, kanji, reading);
    }
  }

  /** `extractWrestlerReadings` as a function of the cache it starts from:
      the readings it returns and the cache it leaves. */
  function Extracted(cache: Dict, reply: AiReply, official: string -> Option<string>): (Dict, Dict) {
    if reply.Readings? then Resolve(cache, reply.entries, official) else ([], cache)
  }

  // ---------------------------------------------------------------------
  // The normalizer

  datatype Category = Terms | Techniques | Organizations

  /** The result of `getDictionaryStats`. */
  datatype DictionaryStats = DictionaryStats(total: nat, cachedWrestlers: nat, terms: nat, techniques: nat, organizations: nat)

  /** `Object.keys(d).length` for each dictionary, and their sum. */
  function StatsOf(cache: Dict, terms: Dict, techniques: Dict, organizations: Dict): DictionaryStats {
    DictionaryStats(|cache| + |terms| + |techniques| + |organizations|, |cache|, |terms|, |techniques|, |organizations|)
  }

  /** Adding a wrestler grows the total and the cached count by one for a
      new name and leaves them as they were for a known one. */
  lemma StatsAfterAddWrestler(cache: Dict, terms: Dict, techniques: Dict, organizations: Dict, kanji: string, reading: string)
    requires DistinctKeys(cache)
    ensures var before := StatsOf(cache, terms, techniques, organizations);
            var after := StatsOf(Put(cache, kanji, reading), terms, techniques, organizations);
            var grown := if HasKey(cache, kanji) then 0 else 1;
            && after.total == before.total + grown
            && after.cachedWrestlers == before.cachedWrestlers + grown
            && after.total == after.cachedWrestlers + after.terms + after.techniques + after.organizations
  {
    PutDistinct(cache, kanji, reading);
  }

  /** The static dictionary as loaded from its JSON file. */
  datatype SumoDictionary = SumoDictionary(terms: Dict, techniques: Dict, organizations: Dict)

  predicate WellFormedDictionary(d: SumoDictionary) {
    DistinctKeys(d.terms) && DistinctKeys(d.techniques) && DistinctKeys(d.organizations)
  }

  /** `loadCache`: the cache file's object, or `{}` when the file is
      missing or cannot be read or parsed (`None`). */
  function LoadCache(cacheFile: Option<Dict>): (r: Dict)
    ensures cacheFile.None? ==> r == []
  {
    if cacheFile.Some? then cacheFile.value else []
  }

  class SumoTextNormalizer {
    var terms: Dict
    var techniques: Dict
    var organizations: Dict
    var wrestlerCache: Dict

    ghost predicate Valid()
      reads this
    {
      DistinctKeys(terms) && DistinctKeys(techniques) && DistinctKeys(organizations) && DistinctKeys(wrestlerCache)
    }

    /** The dictionary file's contents, or empty dictionaries when it
        cannot be read (`None`); then the cache, through `loadCache`. */
    constructor(dictionaryFile: Option<SumoDictionary>, cacheFile: Option<Dict>)
      requires dictionaryFile.Some? ==> WellFormedDictionary(dictionaryFile.value)
      requires cacheFile.Some? ==> DistinctKeys(cacheFile.value)
      ensures Valid()
      ensures dictionaryFile.Some? ==> terms == dictionaryFile.value.terms && techniques == dictionaryFile.value.techniques
                                       && organizations == dictionaryFile.value.organizations
      ensures dictionaryFile.None? ==> terms == [] && techniques == [] && organizations == []
      ensures wrestlerCache == LoadCache(cacheFile)
    {
      if dictionaryFile.Some? {
        terms := dictionaryFile.value.terms;
        techniques := dictionaryFile.value.techniques;
        organizations := dictionaryFile.value.organizations;
      } else {
        terms := [];
        techniques := [];
        organizations := [];
      }
      wrestlerCache := LoadCache(cacheFile);
    }

    /** `extractWrestlerReadings`: resolves each name the model returned,
        writing new readings into the cache as it goes; any failure gives
        no readings and leaves the cache alone. */
    method ExtractWrestlerReadings(reply: AiReply, official: string -> Option<string>) returns (readings: Dict)
      requires Valid() && WellFormedReply(reply)
      modifies this
      ensures Valid()
      ensures (readings, wrestlerCache) == Extracted(old(wrestlerCache), reply, official)
      ensures terms == old(terms) && techniques == old(techniques) && organizations == old(organizations)
    {
      if !reply.Readings? {
        return [];
      }
      var entries := reply.entries;
      ghost var cache0 := wrestlerCache;
      readings := [];
      for i := 0 to |entries|
        invariant (readings, wrestlerCache) == Resolve(cache0, entries[..i], official)
        invariant terms == old(terms) && techniques == old(techniques) && organizations == old(organizations)
      {
        var (kanji, aiReading) := entries[i];
        assert entries[..i + 1][..i] == entries[..i];
        if Truthy(wrestlerCache, kanji) {
          readings := Put(readings, kanji, Get(wrestlerCache, kanji).value);
          continue;
        }
        var officialReading := official(kanji);
        if Found(officialReading) {
          readings := Put(readings, kanji, officialReading.value);
          wrestlerCache := Put(wrestlerCache, kanji, officialReading.value);
        } else {
          readings := Put(readings, kanji, aiReading);
          wrestlerCache := Put(wrestlerCache, kanji, aiReading);
        }
      }
      assert entries[..|entries|] == entries;
      ResolveDistinct(cache0, entries, official);
    }

    /** `normalize`: looks the wrestlers up, merges every source, replaces
        the keys longest first and spells out the numbers. */
    method Normalize(text: string, reply: AiReply, official: string -> Option<string>) returns (normalizedText: string)
      requires Valid() && WellFormedReply(reply)
      modifies this
      ensures Valid()
      ensures terms == old(terms) && techniques == old(techniques) && organizations == old(organizations)
      ensures wrestlerCache == Extracted(old(wrestlerCache), reply, official).1
      ensures normalizedText == NormalizeWith(text, AllEntries(terms, techniques, organizations, wrestlerCache,
                                                               Extracted(old(wrestlerCache), reply, official).0))
    {
      normalizedText := text;
      var dynamicWrestlers := ExtractWrestlerReadings(reply, official);
      var allEntries := AllEntries(terms, techniques, organizations, wrestlerCache, dynamicWrestlers);
      var sortedKeys := SortByLength(KeysOf(allEntries));

      for k := 0 to |sortedKeys|
        invariant normalizedText == Substitute(text, sortedKeys[..k], allEntries)
      {
        var kanji := sortedKeys[k];
        assert sortedKeys[..k + 1][..k] == sortedKeys[..k];
        var reading := Get(allEntries, kanji);
        if !(reading.Some? && reading.value != "") {
          continue;
        }
        normalizedText := ReplaceAll(normalizedText, kanji, reading.value);
      }
      assert sortedKeys[..|sortedKeys|] == sortedKeys;

      normalizedText := NormalizeNumbers(normalizedText);
    }

    /** `addEntry`: writes the reading into the chosen dictionary only. */
    method AddEntry(kanji: string, reading: string, category: Category)
      requires Valid()
      modifies this
      ensures Valid()
      ensures wrestlerCache == old(wrestlerCache)
      ensures terms == if category == Terms then Put(old(terms), kanji, reading) else old(terms)
      ensures techniques == if category == Techniques then Put(old(techniques), kanji, reading) else old(techniques)
      ensures organizations == if category == Organizations then Put(old(organizations), kanji, reading) else old(organizations)
    {
      match category {
        case Terms =>
          PutDistinct(terms, kanji, reading);
          terms := Put(terms, kanji, reading);
        case Techniques =>
          PutDistinct(techniques, kanji, reading);
          techniques := Put(techniques, kanji, reading);
        case Organizations =>
          PutDistinct(organizations, kanji, reading);
          organizations := Put(organizations, kanji, reading);
      }
    }

    /** `addWrestler`: sets the cache entry, nothing else. */
    method AddWrestler(kanji: string, reading: string)
      requires Valid()
      modifies this
      ensures Valid()
      ensures wrestlerCache == Put(old(wrestlerCache), kanji, reading)
      ensures terms == old(terms) && techniques == old(techniques) && organizations == old(organizations)
    {
      PutDistinct(wrestlerCache, kanji, reading);
      wrestlerCache := Put(wrestlerCache, kanji, reading);
    }

    /** `getDictionaryStats`: the size of each dictionary and their total. */
    method GetDictionaryStats() returns (stats: DictionaryStats)
      requires Valid()
      ensures stats == StatsOf(wrestlerCache, terms, techniques, organizations)
      ensures stats.total == stats.cachedWrestlers + stats.terms + stats.techniques + stats.organizations
      ensures stats.cachedWrestlers == |KeysOf(wrestlerCache)|
    {
      stats := DictionaryStats(
        |wrestlerCache| + |terms| + |techniques| + |organizations|,
        |wrestlerCache|, |terms|, |techniques|, |organizations|);
    }
  }
}
