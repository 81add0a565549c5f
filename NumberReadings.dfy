/** `SumoTextNormalizer.normalizeNumbers`: a fixed chain of global regex
    rewrites that spell out the unit after a number in hiragana
    (「12勝5敗」 becomes 「12しょう5はい」).

    Every pattern has the shape `<digits>UNIT` and every replacement keeps
    the digits it captured, so each pass rewrites an occurrence of UNIT
    exactly when the digits before it have the shape the pattern asks for.
    That test looks at the text the pass starts from; a pass is a left to
    right scan that, like a global regex replace, resumes after each
    rewritten unit. */
module NumberReadings {
  import opened Text

  /** What must come before the unit. */
  datatype Guard =
    | AfterDigits   // `(\d+)UNIT`
    | DayNumber     // `([1-9]|[12][0-9]|3[01])日`
    | MonthNumber   // `([1-9]|1[0-2])月`
    | ParenNumber   // `（(\d+)＝`

  datatype Rule = Rule(unit: string, reading: string, guard: Guard)

  /** The passes of `normalizeNumbers`, in the order it applies them. */
  const Rules: seq<Rule> := [
    Rule("勝", "しょう", AfterDigits),
    Rule("敗", "はい", AfterDigits),
    Rule("番", "ばん", AfterDigits),
    Rule("日", "にち", DayNumber),
    Rule("歳", "さい", AfterDigits),
    Rule("連勝", "れんしょう", AfterDigits),
    Rule("連敗", "れんぱい", AfterDigits),
    Rule("年", "ねん", AfterDigits),
    Rule("月", "がつ", MonthNumber),
    Rule("時", "じ", AfterDigits),
    Rule("分", "ふん", AfterDigits),
    Rule("人", "にん", AfterDigits),
    Rule("回", "かい", AfterDigits),
    Rule("場所", "ばしょ", AfterDigits),
    Rule("位", "い", AfterDigits),
    Rule("＝", "さい、", ParenNumber)
  ]

  predicate IsNonZeroDigit(c: char) {
    '1' <= c <= '9'
  }

  /** The start of the run of ASCII digits that ends just before `i`. */
  function DigitRunStart(s: string, i: nat): (j: nat)
    requires i <= |s|
    ensures j <= i
  {
    if i > 0 && IsDigit(s[i - 1]) then DigitRunStart(s, i - 1) else i
  }

  /** The run found is all digits and cannot be extended to the left. */
  lemma {:induction false} DigitRunMaximal(s: string, i: nat)
    requires i <= |s|
    ensures forall k :: DigitRunStart(s, i) <= k < i ==> IsDigit(s[k])
    ensures DigitRunStart(s, i) == 0 || !IsDigit(s[DigitRunStart(s, i) - 1])
  {
    if i > 0 && IsDigit(s[i - 1]) {
      DigitRunMaximal(s, i - 1);
    }
  }

  /** Whether a match of the rule's pattern ends with the unit at `i`.
      For the day and month rules a match may start one or two characters
      before the unit; a two-digit match needs a first digit that the
      pattern allows. */
  predicate Allowed(guard: Guard, s: string, i: nat)
    requires i <= |s|
  {
    match guard
    case AfterDigits => i > 0 && IsDigit(s[i - 1])
    case DayNumber =>
      i > 0 && (IsNonZeroDigit(s[i - 1]) || (s[i - 1] == '0' && i > 1 && '1' <= s[i - 2] <= '3'))
    case MonthNumber =>
      i > 0 && (IsNonZeroDigit(s[i - 1]) || (s[i - 1] == '0' && i > 1 && s[i - 2] == '1'))
    case ParenNumber =>
      var j := DigitRunStart(s, i);
      j < i && j > 0 && s[j - 1] == '（'
  }

  /** Every guard asks for an ASCII digit just before the unit. */
  lemma AllowedNeedsDigit(guard: Guard, s: string, i: nat)
    requires i <= |s|
    requires i == 0 || !IsDigit(s[i - 1])
    ensures !Allowed(guard, s, i)
  {
  }

  /** One global rewrite over `s`, from position `i` on. */
  function RewriteFrom(s: string, rule: Rule, i: nat): string
    requires i <= |s|
    decreases |s| - i
  {
    if i == |s| then []
    else if rule.unit != [] && OccursAt(s, rule.unit, i) && Allowed(rule.guard, s, i) then
      rule.reading + RewriteFrom(s, rule, i + |rule.unit|)
    else [s[i]] + RewriteFrom(s, rule, i + 1)
  }

  function Rewrite(s: string, rule: Rule): string {
    RewriteFrom(s, rule, 0)
  }

  /** The passes from rule `from` on, applied in order. */
  function ApplyRulesFrom(s: string, rules: seq<Rule>, from: nat): string
    decreases |rules| - from
  {
    if from >= |rules| then s else ApplyRulesFrom(Rewrite(s, rules[from]), rules, from + 1)
  }

  /** `normalizeNumbers`. */
  function NormalizeNumbers(text: string): string {
    ApplyRulesFrom(text, Rules, 0)
  }

  predicate HasDigit(s: string) {
    exists k :: 0 <= k < |s| && IsDigit(s[k])
  }

  /** The ASCII digits of a text, in order. */
  function Digits(s: string): string {
    if s == [] then [] else (if IsDigit(s[0]) then [s[0]] else []) + Digits(s[1..])
  }

  lemma {:induction false} DigitsConcat(a: string, b: string)
    ensures Digits(a + b) == Digits(a) + Digits(b)
    decreases |a|
  {
    if a != [] {
      assert (a + b)[1..] == a[1..] + b;
      DigitsConcat(a[1..], b);
    } else {
      assert a + b == b;
    }
  }

  lemma {:induction false} DigitsNone(s: string)
    requires !HasDigit(s)
    ensures Digits(s) == []
    decreases |s|
  {
    if s != [] {
      assert forall k :: 0 <= k < |s[1..]| ==> s[1..][k] == s[k + 1];
      DigitsNone(s[1..]);
    }
  }

  /** Without a digit, a pass copies the text from `i` on. */
  lemma {:induction false} RewriteNoDigit(s: string, rule: Rule, i: nat)
    requires i <= |s| && !HasDigit(s)
    ensures RewriteFrom(s, rule, i) == s[i..]
    decreases |s| - i
  {
    if i < |s| {
      if i > 0 {
        assert !IsDigit(s[i - 1]);
      }
      AllowedNeedsDigit(rule.guard, s, i);
      RewriteNoDigit(s, rule, i + 1);
      assert s[i..] == [s[i]] + s[i + 1..];
    }
  }

  lemma {:induction false} ApplyRulesNoDigit(s: string, rules: seq<Rule>, from: nat)
    requires !HasDigit(s)
    ensures ApplyRulesFrom(s, rules, from) == s
    decreases |rules| - from
  {
    if from < |rules| {
      RewriteNoDigit(s, rules[from], 0);
      ApplyRulesNoDigit(s, rules, from + 1);
    }
  }

  /** A text without ASCII digits comes back unchanged. */
  lemma NormalizeNumbersNoDigit(text: string)
    requires !HasDigit(text)
    ensures NormalizeNumbers(text) == text
  {
    ApplyRulesNoDigit(text, Rules, 0);
  }

  predicate DigitFree(r: Rule) {
    Digits(r.unit) == [] && Digits(r.reading) == []
  }

  /** A pass keeps every digit, in order: it rewrites only units and
      readings, which hold none. */
  lemma {:induction false} RewriteKeepsDigits(s: string, rule: Rule, i: nat)
    requires i <= |s| && DigitFree(rule)
    ensures Digits(RewriteFrom(s, rule, i)) == Digits(s[i..])
    decreases |s| - i
  {
    if i < |s| {
      if rule.unit != [] && OccursAt(s, rule.unit, i) && Allowed(rule.guard, s, i) {
        var j := i + |rule.unit|;
        RewriteKeepsDigits(s, rule, j);
        HitStep(s, rule, i);
        DigitsOverUnit(s, i, rule, RewriteFrom(s, rule, j));
      } else {
        RewriteKeepsDigits(s, rule, i + 1);
        KeptOverChar(s, rule, i);
      }
    }
  }

  /** Rewriting a unit occurrence keeps the digits of the text. */
  lemma DigitsOverUnit(s: string, i: nat, rule: Rule, rest: string)
    requires DigitFree(rule) && OccursAt(s, rule.unit, i)
    requires Digits(rest) == Digits(s[i + |rule.unit|..])
    ensures Digits(rule.reading + rest) == Digits(s[i..])
  {
    SplitAtUnit(s, i, rule.unit);
    DigitsSwap(rule.reading, rest, rule.unit, s[i + |rule.unit|..]);
  }

  lemma SplitAtUnit(s: string, i: nat, unit: string)
    requires i + |unit| <= |s| && s[i..i + |unit|] == unit
    ensures s[i..] == unit + s[i + |unit|..]
  {
    assert s[i..] == s[i..i + |unit|] + s[i + |unit|..];
  }

  lemma SplitAtHead(s: string, i: nat)
    requires i < |s|
    ensures s[i..] == [s[i]] + s[i + 1..]
  {
  }

  /** Swapping one digit-free prefix for another keeps the digits. */
  lemma DigitsSwap(a: string, x: string, b: string, y: string)
    requires Digits(a) == [] && Digits(b) == [] && Digits(x) == Digits(y)
    ensures Digits(a + x) == Digits(b + y)
  {
    DigitsConcat(a, x);
    DigitsConcat(b, y);
  }

  lemma KeptOverChar(s: string, rule: Rule, i: nat)
    requires i < |s|
    requires !(rule.unit != [] && OccursAt(s, rule.unit, i) && Allowed(rule.guard, s, i))
    requires Digits(RewriteFrom(s, rule, i + 1)) == Digits(s[i + 1..])
    ensures Digits(RewriteFrom(s, rule, i)) == Digits(s[i..])
  {
    assert RewriteFrom(s, rule, i) == [s[i]] + RewriteFrom(s, rule, i + 1);
    SplitAtHead(s, i);
    DigitsConcat([s[i]], RewriteFrom(s, rule, i + 1));
    DigitsConcat([s[i]], s[i + 1..]);
  }

  lemma {:induction false} ApplyRulesKeepsDigits(s: string, rules: seq<Rule>, from: nat)
    requires forall k :: 0 <= k < |rules| ==> DigitFree(rules[k])
    ensures Digits(ApplyRulesFrom(s, rules, from)) == Digits(s)
    decreases |rules| - from
  {
    if from < |rules| {
      RewriteKeepsDigits(s, rules[from], 0);
      assert s[0..] == s;
      ApplyRulesKeepsDigits(Rewrite(s, rules[from]), rules, from + 1);
    }
  }

  /** The captured numbers survive: the digits of the result are those of
      the input, in the same order. */
  lemma NormalizeNumbersKeepsDigits(text: string)
    ensures Digits(NormalizeNumbers(text)) == Digits(text)
  {
    forall k | 0 <= k < |Rules| ensures DigitFree(Rules[k]) {
      var r := Rules[k];
      DigitsNone(r.unit);
      DigitsNone(r.reading);
    }
    ApplyRulesKeepsDigits(text, Rules, 0);
  }

  /** A pass leaves a unit alone when the guard does not hold before it. */
  lemma {:induction false} RewriteSkipsUnguarded(s: string, rule: Rule, i: nat)
    requires i <= |s|
    requires forall k :: i <= k <= |s| ==> !(rule.unit != [] && OccursAt(s, rule.unit, k) && Allowed(rule.guard, s, k))
    ensures RewriteFrom(s, rule, i) == s[i..]
    decreases |s| - i
  {
    if i < |s| {
      RewriteSkipsUnguarded(s, rule, i + 1);
      assert s[i..] == [s[i]] + s[i + 1..];
    }
  }

  /** A character that cannot start the unit is copied. */
  lemma CopyStep(s: string, rule: Rule, i: nat)
    requires i < |s| && rule.unit != [] && s[i] != rule.unit[0]
    ensures RewriteFrom(s, rule, i) == [s[i]] + RewriteFrom(s, rule, i + 1)
  {
  }

  /** A unit the guard rejects is copied character by character. */
  lemma BlockedStep(s: string, rule: Rule, i: nat)
    requires i < |s| && !Allowed(rule.guard, s, i)
    ensures RewriteFrom(s, rule, i) == [s[i]] + RewriteFrom(s, rule, i + 1)
  {
  }

  /** A unit the guard accepts is replaced by its reading. */
  lemma HitStep(s: string, rule: Rule, i: nat)
    requires i < |s| && rule.unit != [] && OccursAt(s, rule.unit, i) && Allowed(rule.guard, s, i)
    ensures RewriteFrom(s, rule, i) == rule.reading + RewriteFrom(s, rule, i + |rule.unit|)
  {
  }

  /** Every unit of rules `from` to `to` (exclusive) begins with a character
      in `lo..hi`. */
  predicate UnitsStartWithin(rules: seq<Rule>, from: nat, to: nat, lo: char, hi: char) {
    forall k :: from <= k < to && k < |rules| ==> rules[k].unit != [] && lo <= rules[k].unit[0] <= hi
  }

  /** No character that directly follows a digit lies in `lo..hi`. */
  predicate FollowersOutside(s: string, lo: char, hi: char) {
    forall i :: 0 < i < |s| && IsDigit(s[i - 1]) ==> !(lo <= s[i] <= hi)
  }

  /** Passes change nothing in a text where no digit is followed by a
      character that can start their units: every rewrite needs a digit
      right before its unit. */
  lemma {:induction false} ApplyRulesQuiet(s: string, rules: seq<Rule>, from: nat, to: nat, lo: char, hi: char)
    requires from <= to <= |rules|
    requires UnitsStartWithin(rules, from, to, lo, hi) && FollowersOutside(s, lo, hi)
    ensures ApplyRulesFrom(s, rules, from) == ApplyRulesFrom(s, rules, to)
    decreases |rules| - from
  {
    if from < to {
      var rule := rules[from];
      forall k | 0 <= k <= |s|
        ensures !(rule.unit != [] && OccursAt(s, rule.unit, k) && Allowed(rule.guard, s, k))
      {
        if k == 0 || !IsDigit(s[k - 1]) {
          AllowedNeedsDigit(rule.guard, s, k);
        }
      }
      RewriteSkipsUnguarded(s, rule, 0);
      assert s[0..] == s;
      ApplyRulesQuiet(s, rules, from + 1, to, lo, hi);
    }
  }

  /** Where the unit's first character never occurs, a pass copies. */
  lemma {:induction false} CopyFrom(s: string, rule: Rule, i: nat)
    requires i <= |s| && rule.unit != []
    requires forall k :: i <= k < |s| ==> s[k] != rule.unit[0]
    ensures RewriteFrom(s, rule, i) == s[i..]
    decreases |s| - i
  {
    if i < |s| {
      CopyFrom(s, rule, i + 1);
      CopyStep(s, rule, i);
      assert s[i..] == [s[i]] + s[i + 1..];
    }
  }

  /** A one-character unit that occurs only at `j`, where its guard
      holds, is the only thing a pass changes. */
  lemma {:induction false} SingleHit(s: string, j: nat, rule: Rule, i: nat)
    requires i <= j < |s| && |rule.unit| == 1 && s[j] == rule.unit[0]
    requires forall k :: 0 <= k < |s| && k != j ==> s[k] != rule.unit[0]
    requires Allowed(rule.guard, s, j)
    ensures RewriteFrom(s, rule, i) == s[i..j] + (rule.reading + s[j + 1..])
    decreases j - i
  {
    var tail := rule.reading + s[j + 1..];
    if i < j {
      SingleHit(s, j, rule, i + 1);
      CopyStep(s, rule, i);
      assert s[i..j] + tail == [s[i]] + (s[i + 1..j] + tail);
    } else {
      HitAt(s, j, rule);
      assert s[i..j] + tail == tail;
    }
  }

  lemma HitAt(s: string, j: nat, rule: Rule)
    requires j < |s| && |rule.unit| == 1 && s[j] == rule.unit[0]
    requires forall k :: j < k < |s| ==> s[k] != rule.unit[0]
    requires Allowed(rule.guard, s, j)
    ensures RewriteFrom(s, rule, j) == rule.reading + s[j + 1..]
  {
    assert s[j..j + 1] == rule.unit;
    HitStep(s, rule, j);
    CopyFrom(s, rule, j + 1);
  }

  lemma WinPass()
    ensures Rewrite("12勝5敗", Rules[0]) == "12しょう5敗"
  {
    var r := Rules[0];
    assert r == Rule("勝", "しょう", AfterDigits);
    SingleHit("12勝5敗", 2, r, 0);
  }

  lemma LossPass()
    ensures Rewrite("12しょう5敗", Rules[1]) == "12しょう5はい"
  {
    var r := Rules[1];
    assert r == Rule("敗", "はい", AfterDigits);
    SingleHit("12しょう5敗", 6, r, 0);
  }

  lemma LaterUnitsStartWide()
    ensures UnitsStartWithin(Rules, 2, |Rules|, '\U{4E00}', '\U{FFEF}')
  {
  }

  lemma WinLossFollowers()
    ensures FollowersOutside("12しょう5はい", '\U{4E00}', '\U{FFEF}')
  {
  }

  /** 「12勝5敗」 is read 「12しょう5はい」. */
  lemma WinLossExample()
    ensures NormalizeNumbers("12勝5敗") == "12しょう5はい"
  {
    var t := "12しょう5はい";
    WinPass();
    LossPass();
    LaterUnitsStartWide();
    WinLossFollowers();
    ApplyRulesQuiet(t, Rules, 2, |Rules|, '\U{4E00}', '\U{FFEF}');
    assert ApplyRulesFrom("12勝5敗", Rules, 0) == ApplyRulesFrom(Rewrite("12勝5敗", Rules[0]), Rules, 1);
    assert ApplyRulesFrom("12しょう5敗", Rules, 1) == ApplyRulesFrom(Rewrite("12しょう5敗", Rules[1]), Rules, 2);
  }

  lemma AgePass()
    ensures Rewrite("（21＝安治川）", Rules[15]) == "（21さい、安治川）"
  {
    var r := Rules[15];
    assert r == Rule("＝", "さい、", ParenNumber);
    var s := "（21＝安治川）";
    assert DigitRunStart(s, 3) == 1;
    SingleHit(s, 3, r, 0);
  }

  lemma KanjiUnitsStart()
    ensures UnitsStartWithin(Rules, 0, 15, '\U{4E00}', '\U{9FFF}')
  {
  }

  lemma AgeFollowers()
    ensures FollowersOutside("（21＝安治川）", '\U{4E00}', '\U{9FFF}')
  {
  }

  /** The age-and-stable note 「（21＝安治川）」 is read 「（21さい、安治川）」. */
  lemma AgeExample()
    ensures NormalizeNumbers("（21＝安治川）") == "（21さい、安治川）"
  {
    KanjiUnitsStart();
    AgeFollowers();
    AgePass();
    ApplyRulesQuiet("（21＝安治川）", Rules, 0, 15, '\U{4E00}', '\U{9FFF}');
    assert ApplyRulesFrom("（21＝安治川）", Rules, 15) == ApplyRulesFrom(Rewrite("（21＝安治川）", Rules[15]), Rules, 16);
  }

  /** The day pattern matches one or two digits naming a day of the month
      directly before 日, wherever the number starts: 「45日」 and 「30日」
      are rewritten, 「100日」 and 「40日」 are not. */
  lemma DayPassExamples()
    ensures Rewrite("45日", Rules[3]) == "45にち"
    ensures Rewrite("30日", Rules[3]) == "30にち"
    ensures Rewrite("100日", Rules[3]) == "100日"
    ensures Rewrite("40日", Rules[3]) == "40日"
  {
    assert Rules[3] == DayRule;
    DayHit("45日");
    DayHit("30日");
    DayBlocked("100日");
    DayBlocked("40日");
  }

  const DayRule: Rule := Rule("日", "にち", DayNumber)

  lemma DayHit(s: string)
    requires |s| == 3 && IsDigit(s[0]) && IsDigit(s[1]) && s[2] == '日'
    requires Allowed(DayNumber, s, 2)
    ensures Rewrite(s, DayRule) == s[..2] + "にち"
  {
    SingleHit(s, 2, DayRule, 0);
  }

  lemma {:induction false} DayBlockedFrom(s: string, i: nat)
    requires 0 < |s| && s[|s| - 1] == '日' && i < |s|
    requires forall k :: 0 <= k < |s| - 1 ==> IsDigit(s[k])
    requires !Allowed(DayNumber, s, |s| - 1)
    ensures RewriteFrom(s, DayRule, i) == s[i..]
    decreases |s| - i
  {
    if i + 1 < |s| {
      DayBlockedFrom(s, i + 1);
      CopyStep(s, DayRule, i);
    } else {
      BlockedStep(s, DayRule, i);
    }
    assert s[i..] == [s[i]] + s[i + 1..];
  }

  lemma DayBlocked(s: string)
    requires 0 < |s| && s[|s| - 1] == '日'
    requires forall k :: 0 <= k < |s| - 1 ==> IsDigit(s[k])
    requires !Allowed(DayNumber, s, |s| - 1)
    ensures Rewrite(s, DayRule) == s
  {
    DayBlockedFrom(s, 0);
  }
}
