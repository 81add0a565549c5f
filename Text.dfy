/** JavaScript string operations the pipeline relies on, over `string` (a
    sequence of Unicode scalar values), plus the Option/Outcome wrappers
    used for absent values and for operations that return or throw. */
module Text {

  datatype Option<T> = None | Some(value: T)

  /** The result of an awaited call: its value, or the message of the
      error it threw. */
  datatype Outcome<T> = Ok(value: T) | Fail(message: string)

  /** JavaScript truthiness of an optional string: set and not empty. */
  predicate Present(o: Option<string>) {
    o.Some? && o.value != ""
  }

  /** The characters matched by `\s` and removed by `String.prototype.trim`. */
  predicate IsWhitespace(c: char) {
    c == ' ' || c == '\t' || c == '\n' || c == '\r' || c == '\U{000B}' || c == '\U{000C}'
    || c == '\U{00A0}' || c == '\U{1680}' || ('\U{2000}' <= c <= '\U{200A}')
    || c == '\U{2028}' || c == '\U{2029}' || c == '\U{202F}' || c == '\U{205F}'
    || c == '\U{3000}' || c == '\U{FEFF}'
  }

  /** `\d` without the `u` flag: ASCII digits only. */
  predicate IsDigit(c: char) {
    '0' <= c <= '9'
  }

  /** The characters `escapeRegExp` prefixes with a backslash: `.*+?^${}()|[]\`. */
  predicate IsRegexMeta(c: char) {
    c == '.' || c == '*' || c == '+' || c == '?' || c == '^' || c == '$' || c == '{' || c == '}'
    || c == '(' || c == ')' || c == '|' || c == '[' || c == ']' || c == '\\'
  }

  predicate StartsWith(s: string, prefix: string) {
    |prefix| <= |s| && s[..|prefix|] == prefix
  }

  predicate EndsWith(s: string, suffix: string) {
    |suffix| <= |s| && s[|s| - |suffix|..] == suffix
  }

  predicate OccursAt(s: string, sub: string, i: nat) {
    i + |sub| <= |s| && s[i..i + |sub|] == sub
  }

  /** `s.includes(sub)`. */
  predicate Contains(s: string, sub: string)
    decreases |s|
  {
    StartsWith(s, sub) || (s != [] && Contains(s[1..], sub))
  }

  lemma {:induction false} OccursImpliesContains(s: string, sub: string, i: nat)
    requires OccursAt(s, sub, i)
    ensures Contains(s, sub)
    decreases i
  {
    if i == 0 {
      assert StartsWith(s, sub);
    } else {
      assert s[1..][i - 1..i - 1 + |sub|] == s[i..i + |sub|];
      OccursImpliesContains(s[1..], sub, i - 1);
    }
  }

  lemma {:induction false} ContainsIffOccurs(s: string, sub: string)
    ensures Contains(s, sub) <==> exists i: nat :: OccursAt(s, sub, i)
    decreases |s|
  {
    if Contains(s, sub) {
      if StartsWith(s, sub) {
        assert OccursAt(s, sub, 0);
      } else {
        ContainsIffOccurs(s[1..], sub);
        var i: nat :| OccursAt(s[1..], sub, i);
        assert s[1..][i..i + |sub|] == s[i + 1..i + 1 + |sub|];
        assert OccursAt(s, sub, i + 1);
      }
    }
    forall i: nat | OccursAt(s, sub, i) ensures Contains(s, sub) {
      OccursImpliesContains(s, sub, i);
    }
  }

  /** `s.replace(/<literal key>/g, rep)` without `$` patterns: every
      leftmost non-overlapping occurrence of `key` is replaced.  An empty
      key matches at every position, before each character and at the end. */
  function ReplaceAll(s: string, key: string, rep: string): string
    decreases |s|
  {
    if key == [] then
      if s == [] then rep else rep + [s[0]] + ReplaceAll(s[1..], key, rep)
    else if s == [] then []
    else if StartsWith(s, key) then rep + ReplaceAll(s[|key|..], key, rep)
    else [s[0]] + ReplaceAll(s[1..], key, rep)
  }

  /** The number of occurrences `ReplaceAll` replaces, for a non-empty key. */
  function CountMatches(s: string, key: string): nat
    requires key != []
    decreases |s|
  {
    if s == [] then 0
    else if StartsWith(s, key) then 1 + CountMatches(s[|key|..], key)
    else CountMatches(s[1..], key)
  }

  /** A text without the key is left as it is. */
  lemma {:induction false} ReplaceAllAbsent(s: string, key: string, rep: string)
    requires key != [] && !Contains(s, key)
    ensures ReplaceAll(s, key, rep) == s
    decreases |s|
  {
    if s != [] {
      ReplaceAllAbsent(s[1..], key, rep);
    }
  }

  /** A character that is not the key's first cannot start it. */
  lemma ReplaceAllSkip(c: char, s: string, key: string, rep: string)
    requires key != [] && !StartsWith([c] + s, key)
    ensures ReplaceAll([c] + s, key, rep) == [c] + ReplaceAll(s, key, rep)
  {
    assert ([c] + s)[1..] == s;
  }

  /** An occurrence at the front is replaced and the scan resumes after it. */
  lemma ReplaceAllHit(s: string, key: string, rep: string)
    requires key != []
    ensures ReplaceAll(key + s, key, rep) == rep + ReplaceAll(s, key, rep)
  {
    assert (key + s)[..|key|] == key;
    assert (key + s)[|key|..] == s;
  }

  /** A text in which the key's first character never appears does not
      contain the key. */
  lemma {:induction false} AbsentHead(s: string, key: string)
    requires key != [] && forall j :: 0 <= j < |s| ==> s[j] != key[0]
    ensures !Contains(s, key)
    decreases |s|
  {
    if s != [] {
      assert s[0] != key[0];
      assert !StartsWith(s, key) by {
        if |key| <= |s| {
          assert s[..|key|][0] == s[0];
        }
      }
      assert forall j :: 0 <= j < |s[1..]| ==> s[1..][j] == s[j + 1];
      AbsentHead(s[1..], key);
    }
  }

  /** Replacing a key by itself changes nothing. */
  lemma {:induction false} ReplaceAllSelf(s: string, key: string)
    requires key != []
    ensures ReplaceAll(s, key, key) == s
    decreases |s|
  {
    if s != [] {
      if StartsWith(s, key) {
        ReplaceAllSelf(s[|key|..], key);
        assert s == key + s[|key|..];
      } else {
        ReplaceAllSelf(s[1..], key);
        assert s == [s[0]] + s[1..];
      }
    }
  }

  /** Each replaced occurrence changes the length by |rep| - |key|. */
  lemma {:induction false} ReplaceAllLength(s: string, key: string, rep: string)
    requires key != []
    ensures |ReplaceAll(s, key, rep)| == |s| + CountMatches(s, key) * (|rep| - |key|)
    decreases |s|
  {
    if s != [] {
      var d := |rep| - |key|;
      if StartsWith(s, key) {
        var t := s[|key|..];
        ReplaceAllLength(t, key, rep);
        var c := CountMatches(t, key);
        assert ReplaceAll(s, key, rep) == rep + ReplaceAll(t, key, rep);
        assert CountMatches(s, key) == 1 + c;
        MulSucc(c, d);
      } else {
        var t := s[1..];
        ReplaceAllLength(t, key, rep);
        assert ReplaceAll(s, key, rep) == [s[0]] + ReplaceAll(t, key, rep);
        assert CountMatches(s, key) == CountMatches(t, key);
      }
    }
  }

  lemma MulSucc(c: nat, d: int)
    ensures (1 + c) * d == d + c * d
  {
  }

  /** `s.replace(key, rep)` with a string pattern: only the first occurrence. */
  function ReplaceFirst(s: string, key: string, rep: string): string
    decreases |s|
  {
    if StartsWith(s, key) then rep + s[|key|..]
    else if s == [] then []
    else [s[0]] + ReplaceFirst(s[1..], key, rep)
  }

  /** Removing a leading prefix with `replace` strips exactly that prefix. */
  lemma ReplaceFirstPrefix(s: string, prefix: string)
    requires StartsWith(s, prefix)
    ensures ReplaceFirst(s, prefix, "") == s[|prefix|..]
  {
  }

  /** `s.replace(/\s/g, '')`. */
  function RemoveWhitespace(s: string): (r: string)
    ensures forall i :: 0 <= i < |r| ==> !IsWhitespace(r[i])
    ensures |r| <= |s|
  {
    if s == [] then []
    else if IsWhitespace(s[0]) then RemoveWhitespace(s[1..])
    else [s[0]] + RemoveWhitespace(s[1..])
  }

  function TrimStart(s: string): string {
    if s != [] && IsWhitespace(s[0]) then TrimStart(s[1..]) else s
  }

  function TrimEnd(s: string): string {
    if s != [] && IsWhitespace(s[|s| - 1]) then TrimEnd(s[..|s| - 1]) else s
  }

  /** `s.trim()`. */
  function Trim(s: string): string {
    TrimEnd(TrimStart(s))
  }

  /** `!s || s.trim().length === 0` and `!s.trim()`: empty or only whitespace. */
  predicate IsBlank(s: string) {
    Trim(s) == []
  }

  lemma {:induction false} TrimStartEmpty(s: string)
    ensures TrimStart(s) == [] <==> forall i :: 0 <= i < |s| ==> IsWhitespace(s[i])
    decreases |s|
  {
    if s != [] && IsWhitespace(s[0]) {
      TrimStartEmpty(s[1..]);
      assert forall i :: 1 <= i < |s| ==> s[i] == s[1..][i - 1];
    }
  }

  lemma {:induction false} TrimEndShape(s: string)
    ensures TrimEnd(s) == [] <==> forall i :: 0 <= i < |s| ==> IsWhitespace(s[i])
    ensures TrimEnd(s) != [] ==> TrimEnd(s)[0] == s[0]
    decreases |s|
  {
    if s != [] && IsWhitespace(s[|s| - 1]) {
      TrimEndShape(s[..|s| - 1]);
    }
  }

  /** A string is blank exactly when every character is whitespace. */
  lemma BlankIffAllWhitespace(s: string)
    ensures IsBlank(s) <==> forall i :: 0 <= i < |s| ==> IsWhitespace(s[i])
  {
    TrimStartEmpty(s);
    TrimEndShape(TrimStart(s));
    if forall i :: 0 <= i < |s| ==> IsWhitespace(s[i]) {
      assert TrimStart(s) == [];
    } else {
      assert TrimStart(s) != [];
      TrimStartKeepsSuffix(s);
      var t := TrimStart(s);
      assert !IsWhitespace(t[0]);
    }
  }

  lemma {:induction false} TrimStartKeepsSuffix(s: string)
    ensures TrimStart(s) != [] ==> !IsWhitespace(TrimStart(s)[0])
    decreases |s|
  {
    if s != [] && IsWhitespace(s[0]) {
      TrimStartKeepsSuffix(s[1..]);
    }
  }

  /** `s.substring(0, n)` for n >= 0. */
  function Take(s: string, n: nat): (r: string)
    ensures |r| <= n && |r| <= |s|
    ensures r == s[..if n < |s| then n else |s|]
  {
    if n < |s| then s[..n] else s
  }

  function DigitChar(d: nat): (c: char)
    requires d < 10
    ensures IsDigit(c)
  {
    ('0' as int + d) as char
  }

  /** Decimal rendering of a non-negative integer, as in a template string. */
  function NatToString(n: nat): (r: string)
    ensures r != [] && forall i :: 0 <= i < |r| ==> IsDigit(r[i])
  {
    if n < 10 then [DigitChar(n)] else NatToString(n / 10) + [DigitChar(n % 10)]
  }

  /** Concatenation of a sequence of strings with a separator (`Array.join`). */
  function Join(parts: seq<string>, sep: string): string {
    if parts == [] then []
    else if |parts| == 1 then parts[0]
    else parts[0] + sep + Join(parts[1..], sep)
  }

  lemma {:induction false} ContainsMiddle(a: string, b: string, c: string)
    ensures Contains(a + b + c, b)
  {
    assert OccursAt(a + b + c, b, |a|) by {
      assert (a + b + c)[|a|..|a| + |b|] == b;
    }
    ContainsIffOccurs(a + b + c, b);
  }
  /** Trimming never lengthens a string. */
  lemma {:induction false} TrimLength(s: string)
    ensures |Trim(s)| <= |s|
  {
    TrimStartLength(s);
    TrimEndLength(TrimStart(s));
  }

  lemma {:induction false} TrimStartLength(s: string)
    ensures |TrimStart(s)| <= |s|
    decreases |s|
  {
    if s != [] && IsWhitespace(s[0]) {
      TrimStartLength(s[1..]);
    }
  }

  lemma {:induction false} TrimEndLength(s: string)
    ensures |TrimEnd(s)| <= |s|
    decreases |s|
  {
    if s != [] && IsWhitespace(s[|s| - 1]) {
      TrimEndLength(s[..|s| - 1]);
    }
  }

  /** What `b` contains, any string built around `b` contains. */
  lemma ContainsWithin(a: string, b: string, c: string, x: string)
    requires Contains(b, x)
    ensures Contains(a + b + c, x)
  {
    ContainsIffOccurs(b, x);
    var i: nat :| OccursAt(b, x, i);
    assert (a + b + c)[|a| + i..|a| + i + |x|] == b[i..i + |x|];
    assert OccursAt(a + b + c, x, |a| + i);
    ContainsIffOccurs(a + b + c, x);
  }

  /** A joined string contains each of its parts. */
  lemma {:induction false} JoinContains(parts: seq<string>, sep: string, k: nat)
    requires k < |parts|
    ensures Contains(Join(parts, sep), parts[k])
    decreases |parts|
  {
    if |parts| == 1 {
      ContainsWithin([], parts[0], [], parts[0]);
      assert [] + parts[0] + [] == parts[0];
    } else if k == 0 {
      ContainsWithin([], parts[0], sep + Join(parts[1..], sep), parts[0]);
      assert [] + parts[0] + (sep + Join(parts[1..], sep)) == Join(parts, sep);
    } else {
      JoinContains(parts[1..], sep, k - 1);
      ContainsWithin(parts[0] + sep, Join(parts[1..], sep), [], parts[k]);
      assert parts[0] + sep + Join(parts[1..], sep) + [] == Join(parts, sep);
    }
  }
}
