/** The scene analysis behind the hand-drawn image prompts
    (`ImagePromptBuilder`): pure classifiers from a scene's text to its key
    phrase, concept, characters, location and visual elements, and the
    branches of the character layout and description.  The prompt template
    around them is not part of this model. */
module ImagePrompt {
  import opened Text
  import Dict

  /** One of the five fixed concepts a scene is drawn with. */
  datatype Concept = Concept(action: string, emotion: string, elements: string, keyword: string)

  const Concepts: seq<Concept> := [
    Concept("視聴者に語りかけている", "楽しげな、笑顔の", "周囲に電球マークや星のアイコンを配置", "はじまり"),
    Concept("重要ポイントを指差し確認している", "真剣な、集中した", "チェックマークや矢印のアイコンを配置", "ポイント"),
    Concept("驚いた表情で両手を挙げている", "驚いた、興味深い", "感嘆符や注目マークを配置", "注目"),
    Concept("考え込んでいる様子で首をかしげている", "思慮深い、考え中の", "疑問符や思考の雲を配置", "考察"),
    Concept("喜びの表情で拳を上げている", "嬉しい、満足した", "星やキラキラマークを配置", "まとめ")
  ]

  /** What `analyzeScene` learns about a scene. */
  datatype SceneAnalysis = SceneAnalysis(
    characters: seq<string>,
    location: string,
    action: string,
    emotion: string,
    elements: seq<string>,
    keyword: string)

  // ---------------------------------------------------------------------
  // Key phrase

  predicate IsSentenceEnd(c: char) {
    c == '。' || c == '！' || c == '？'
  }

  /** `text.split(/[。！？]/)[0]`: the text up to its first sentence end. */
  function FirstSentence(s: string): (r: string)
    ensures |r| <= |s| && r == s[..|r|]
    ensures forall i :: 0 <= i < |r| ==> !IsSentenceEnd(r[i])
    ensures |r| < |s| ==> IsSentenceEnd(s[|r|])
  {
    if s == [] || IsSentenceEnd(s[0]) then [] else [s[0]] + FirstSentence(s[1..])
  }

  const KeyPhraseMax: nat := 20

  /** `extractKeyPhrase`: the whitespace-free text when it is short enough,
      otherwise the trimmed first sentence when that is short enough,
      otherwise the first 15 whitespace-free characters and `…`. */
  function ExtractKeyPhrase(sceneText: string): (r: string)
    ensures |r| <= KeyPhraseMax
  {
    var clean := RemoveWhitespace(sceneText);
    if |clean| <= KeyPhraseMax then clean
    else
      var first := FirstSentence(sceneText);
      if |first| <= KeyPhraseMax then
        TrimLength(first);
        Trim(first)
      else
        Take(clean, 15) + "…"
  }

  /** A scene of at most 20 characters once its whitespace is removed is its
      own key phrase, without that whitespace. */
  lemma ShortSceneIsItsOwnKeyPhrase(sceneText: string)
    requires |RemoveWhitespace(sceneText)| <= KeyPhraseMax
    ensures ExtractKeyPhrase(sceneText) == RemoveWhitespace(sceneText)
  {
  }

  /** When neither the text nor its first sentence is short, the phrase is
      cut to 15 characters and marked with an ellipsis. */
  lemma LongSceneIsCut(sceneText: string)
    requires |RemoveWhitespace(sceneText)| > KeyPhraseMax
    requires |FirstSentence(sceneText)| > KeyPhraseMax
    ensures |ExtractKeyPhrase(sceneText)| == 16
    ensures ExtractKeyPhrase(sceneText)[15] == '…'
    ensures ExtractKeyPhrase(sceneText)[..15] == RemoveWhitespace(sceneText)[..15]
  {
  }

  // ---------------------------------------------------------------------
  // Concept

  /** JavaScript's `%`: the remainder takes the sign of the dividend. */
  function JsRem(a: int, b: nat): (r: int)
    requires b > 0
    ensures -(b as int) < r < b
    ensures a >= 0 ==> r == a % b
  {
    if a >= 0 then a % b else -((-a) % b)
  }

  /** `concepts[index % concepts.length] || concepts[0]`; a negative
      remainder selects nothing, so the first concept is used. */
  function ExtractConcept(index: int): (c: Concept)
    ensures c in Concepts
  {
    var r := JsRem(index, |Concepts|);
    if r >= 0 then Concepts[r] else Concepts[0]
  }

  /** Scenes cycle through the concepts: two non-negative indices get the
      same concept exactly when they agree modulo 5. */
  lemma ConceptCycle(i: int, j: int)
    requires i >= 0 && j >= 0
    ensures ExtractConcept(i) == ExtractConcept(j) <==> i % 5 == j % 5
  {
    assert forall a, b :: 0 <= a < 5 && 0 <= b < 5 && a != b ==> Concepts[a].keyword != Concepts[b].keyword;
  }

  /** A negative index always falls back to the first concept. */
  lemma NegativeIndexConcept(index: int)
    requires index < 0
    ensures ExtractConcept(index) == Concepts[0]
  {
    var r := JsRem(index, 5);
    if r >= 0 {
      assert (-index) % 5 == 0;
    }
  }

  // ---------------------------------------------------------------------
  // Location

  /** `(keyword, location)` pairs, tried in this order. */
  const LocationKeywords: seq<(string, string)> := [
    ("国技館", "両国国技館"),
    ("土俵", "大相撲の土俵"),
    ("稽古", "稽古場"),
    ("場所", "本場所の会場"),
    ("巡業", "巡業先"),
    ("部屋", "相撲部屋")
  ]

  const DefaultLocation: string := "相撲の会場"

  /** The index of the first pair at or after `from` whose keyword the text
      contains, or `|table|` when there is none. */
  function FirstMatchFrom(text: string, table: seq<(string, string)>, from: nat): (r: nat)
    requires from <= |table|
    ensures from <= r <= |table|
    ensures forall j :: from <= j < r ==> !Contains(text, table[j].0)
    ensures r < |table| ==> Contains(text, table[r].0)
    decreases |table| - from
  {
    if from == |table| then from
    else if Contains(text, table[from].0) then from
    else FirstMatchFrom(text, table, from + 1)
  }

  /** `extractLocation`: the location of the first keyword the text
      contains, and the default venue when it contains none. */
  function ExtractLocation(text: string): (r: string)
    ensures r != []
    ensures r == DefaultLocation <==> forall j :: 0 <= j < |LocationKeywords| ==> !Contains(text, LocationKeywords[j].0)
    ensures r != DefaultLocation ==>
      exists i :: 0 <= i < |LocationKeywords| && r == LocationKeywords[i].1 && Contains(text, LocationKeywords[i].0)
        && forall j :: 0 <= j < i ==> !Contains(text, LocationKeywords[j].0)
  {
    var i := FirstMatchFrom(text, LocationKeywords, 0);
    if i < |LocationKeywords| then LocationKeywords[i].1 else DefaultLocation
  }

  // ---------------------------------------------------------------------
  // Visual elements

  /** `(keyword, element)` pairs; every matching pair contributes. */
  const ElementKeywords: seq<(string, string)> := [
    ("稽古", "稽古道具や汗のエフェクト"),
    ("取組", "土俵の俵や行司の軍配"),
    ("優勝", "優勝杯やトロフィー、紙吹雪"),
    ("表彰", "賞状や花束"),
    ("勝", "上昇する矢印や星マーク"),
    ("番", "数字カウンターや対戦表")
  ]

  const DefaultElement: string := "相撲に関連する手描きのアイコン"

  /** The positions of the pairs whose keyword the text contains, in
      increasing order. */
  function MatchPositions(text: string, table: seq<(string, string)>): (idx: seq<nat>)
    ensures forall k :: 0 <= k < |idx| ==> idx[k] < |table| && Contains(text, table[idx[k]].0)
    ensures forall k, l :: 0 <= k < l < |idx| ==> idx[k] < idx[l]
    ensures forall i :: 0 <= i < |table| && Contains(text, table[i].0) ==> i in idx
  {
    if table == [] then []
    else
      var init := table[..|table| - 1];
      assert forall i :: 0 <= i < |init| ==> init[i] == table[i];
      MatchPositions(text, init) + (if Contains(text, table[|table| - 1].0) then [|table| - 1] else [])
  }

  /** The values of the pairs whose keyword the text contains: one per
      matching pair, in table order. */
  function Matching(text: string, table: seq<(string, string)>): (r: seq<string>)
    ensures var idx := MatchPositions(text, table);
      |r| == |idx| && forall k :: 0 <= k < |idx| ==> r[k] == table[idx[k]].1
    ensures forall i :: 0 <= i < |table| && Contains(text, table[i].0) ==> table[i].1 in r
    ensures forall e :: e in r ==> exists i :: 0 <= i < |table| && e == table[i].1 && Contains(text, table[i].0)
  {
    if table == [] then []
    else
      var init := table[..|table| - 1];
      var last := table[|table| - 1];
      var m := Matching(text, init);
      assert forall i :: 0 <= i < |init| ==> init[i] == table[i];
      m + (if Contains(text, last.0) then [last.1] else [])
  }

  /** No keyword's element is the default element. */
  lemma ElementsNotDefault()
    ensures forall i :: 0 <= i < |ElementKeywords| ==> ElementKeywords[i].1 != DefaultElement
  {
  }

  /** `extractElements`: one element per matching keyword, or the default
      element when no keyword matches; never empty. */
  function ExtractElements(text: string): (r: seq<string>)
    ensures r != []
    ensures r == [DefaultElement] <==> forall i :: 0 <= i < |ElementKeywords| ==> !Contains(text, ElementKeywords[i].0)
    ensures forall i :: 0 <= i < |ElementKeywords| && Contains(text, ElementKeywords[i].0) ==> ElementKeywords[i].1 in r
    ensures r != [DefaultElement] ==> r == Matching(text, ElementKeywords)
  {
    var m := Matching(text, ElementKeywords);
    var idx := MatchPositions(text, ElementKeywords);
    ElementsNotDefault();
    assert m != [] ==> m[0] == ElementKeywords[idx[0]].1 && Contains(text, ElementKeywords[idx[0]].0);
    if m == [] then [DefaultElement] else m
  }

  // ---------------------------------------------------------------------
  // Characters

  /** The ranks whose mentions name a character, searched in this order. */
  const Ranks: seq<string> := ["横綱", "大関", "関脇", "小結", "前頭", "力士"]

  /** The characters that end a rank mention: whitespace, `、`, `。`, `！`
      and `？`. */
  predicate IsMentionStop(c: char) {
    IsWhitespace(c) || c == '、' || c == '。' || c == '！' || c == '？'
  }

  /** The end of the longest stop-free run starting at `q`. */
  function RunEnd(text: string, q: nat): (e: nat)
    requires q <= |text|
    ensures q <= e <= |text|
    ensures forall k :: q <= k < e ==> !IsMentionStop(text[k])
    ensures e < |text| ==> IsMentionStop(text[e])
    decreases |text| - q
  {
    if q == |text| || IsMentionStop(text[q]) then q else RunEnd(text, q + 1)
  }

  /** The global match of the rank followed by `[^\s、。！？]*`, from
      position `p`: each mention
      is the rank and the stop-free run after it, and the search goes on
      after the mention. */
  function RankMentions(text: string, rank: string, p: nat): (ms: seq<string>)
    requires rank != [] && p <= |text|
    ensures forall m :: m in ms ==> StartsWith(m, rank) && forall k :: |rank| <= k < |m| ==> !IsMentionStop(m[k])
    decreases |text| - p
  {
    if p == |text| then []
    else if OccursAt(text, rank, p) then
      var e := RunEnd(text, p + |rank|);
      var m := text[p..e];
      assert forall k :: |rank| <= k < |m| ==> m[k] == text[p + k];
      [m] + RankMentions(text, rank, e)
    else RankMentions(text, rank, p + 1)
  }

  /** The mentions of every rank, rank by rank (an empty rank mentions
      nothing). */
  function AllRankMentions(text: string, ranks: seq<string>): (ms: seq<string>)
    ensures forall m :: m in ms ==> exists i :: 0 <= i < |ranks| && StartsWith(m, ranks[i])
  {
    if ranks == [] then []
    else
      var init := ranks[..|ranks| - 1];
      var rank := ranks[|ranks| - 1];
      assert forall i :: 0 <= i < |init| ==> init[i] == ranks[i];
      AllRankMentions(text, init) + (if rank == [] then [] else RankMentions(text, rank, 0))
  }

  /** `[一-龯]`. */
  predicate IsKanji(c: char) {
    '\U{4E00}' <= c <= '\U{9FAF}'
  }

  /** The characters the name pattern's look-ahead accepts after a name. */
  predicate IsNameFollower(c: char) {
    c == 'が' || c == 'は' || c == 'も' || c == 'と' || c == 'の' || c == '、'
  }

  /** The number of consecutive kanji from `p`, at most `cap`. */
  function KanjiRun(text: string, p: nat, cap: nat): (k: nat)
    requires p <= |text|
    ensures k <= cap && p + k <= |text|
    ensures forall j :: p <= j < p + k ==> IsKanji(text[j])
    ensures k < cap && p + k < |text| ==> !IsKanji(text[p + k])
    decreases cap
  {
    if cap == 0 || p == |text| || !IsKanji(text[p]) then 0
    else 1 + KanjiRun(text, p + 1, cap - 1)
  }

  /** `text.match(/[一-龯]{3,4}(?=が|は|も|と|の|、)/g)` from position `p`.
      The greedy `{3,4}` tries four kanji before three; when four kanji
      stand at `p` the fourth one is what the look-ahead would see after
      three, so only the longest run can be followed by a particle. */
  function NameMentions(text: string, p: nat): (ms: seq<string>)
    requires p <= |text|
    ensures forall m :: m in ms ==> 3 <= |m| <= 4 && forall j :: 0 <= j < |m| ==> IsKanji(m[j])
    decreases |text| - p
  {
    if p == |text| then []
    else
      var k := KanjiRun(text, p, 4);
      if k >= 3 && p + k < |text| && IsNameFollower(text[p + k]) then
        var m := text[p..p + k];
        assert forall j :: 0 <= j < |m| ==> m[j] == text[p + j];
        [m] + NameMentions(text, p + k)
      else NameMentions(text, p + 1)
  }

  /** `Array.from(new Set(xs))`: the first occurrence of each value, in
      order. */
  function Dedup(xs: seq<string>): (r: seq<string>)
    ensures |r| <= |xs|
    ensures forall i, j :: 0 <= i < j < |r| ==> r[i] != r[j]
    ensures forall x :: x in r <==> x in xs
  {
    if xs == [] then []
    else
      var init := xs[..|xs| - 1];
      var last := xs[|xs| - 1];
      var d := Dedup(init);
      assert xs == init + [last];
      if last in d then d else d + [last]
  }

  /** `seq.slice(0, n)`. */
  function Prefix(xs: seq<string>, n: nat): (r: seq<string>)
    ensures |r| <= n && |r| <= |xs| && r == xs[..|r|]
    ensures forall x :: x in r ==> x in xs
  {
    if n < |xs| then xs[..n] else xs
  }

  /** `extractCharacters`: the rank mentions and at most two kanji names,
      without repeats, at most three in all. */
  function ExtractCharacters(text: string): (r: seq<string>)
    ensures |r| <= 3
    ensures forall i, j :: 0 <= i < j < |r| ==> r[i] != r[j]
    ensures forall x :: x in r ==> x in AllRankMentions(text, Ranks) || x in Prefix(NameMentions(text, 0), 2)
  {
    var candidates := AllRankMentions(text, Ranks) + Prefix(NameMentions(text, 0), 2);
    var unique := Dedup(candidates);
    var r := Prefix(unique, 3);
    assert forall i :: 0 <= i < |r| ==> r[i] == unique[i];
    r
  }

  /** Every character drawn is named by a rank mention or is a kanji name of
      three or four characters. */
  lemma CharacterSources(text: string, x: string)
    requires x in ExtractCharacters(text)
    ensures (exists i :: 0 <= i < |Ranks| && StartsWith(x, Ranks[i]))
      || (3 <= |x| <= 4 && forall j :: 0 <= j < |x| ==> IsKanji(x[j]))
  {
    if x in AllRankMentions(text, Ranks) {
      RankMentionShape(text, x);
    } else {
      NameShape(text, x);
    }
  }

  lemma RankMentionShape(text: string, x: string)
    requires x in AllRankMentions(text, Ranks)
    ensures exists i :: 0 <= i < |Ranks| && StartsWith(x, Ranks[i])
  {
  }

  lemma NameShape(text: string, x: string)
    requires x in Prefix(NameMentions(text, 0), 2)
    ensures 3 <= |x| <= 4 && forall j :: 0 <= j < |x| ==> IsKanji(x[j])
  {
    assert x in NameMentions(text, 0);
  }

  // ---------------------------------------------------------------------
  // Scene analysis

  const DefaultCharacter: string := "力士"

  /** `analyzeScene`. */
  function AnalyzeScene(sceneText: string, sceneIndex: int): (a: SceneAnalysis)
    ensures a.characters != [] && |a.characters| <= 3
    ensures a.location != [] && a.elements != []
    ensures a.characters == [DefaultCharacter] || a.characters == ExtractCharacters(sceneText)
  {
    var concept := ExtractConcept(sceneIndex);
    var characters := ExtractCharacters(sceneText);
    var location := ExtractLocation(sceneText);
    SceneAnalysis(
      if |characters| > 0 then characters else [DefaultCharacter],
      if location != [] then location else DefaultLocation,
      concept.action,
      concept.emotion,
      ExtractElements(sceneText),
      concept.keyword)
  }

  /** The analysis picks up the scene's concept by its index and its
      location by its text. */
  lemma AnalysisParts(sceneText: string, sceneIndex: int)
    ensures AnalyzeScene(sceneText, sceneIndex).keyword == ExtractConcept(sceneIndex).keyword
    ensures AnalyzeScene(sceneText, sceneIndex).location == ExtractLocation(sceneText)
    ensures ExtractCharacters(sceneText) != [] ==> AnalyzeScene(sceneText, sceneIndex).characters == ExtractCharacters(sceneText)
  {
  }

  // ---------------------------------------------------------------------
  // Layout, background features and character description

  const CountHeader: string := "- Character Count: "

  const OneLayout: string :=
    "\n- Position: 画面中央、大きく配置\n- Variation: Use image_0.png reference, maintain consistency"
  const PairLayout: string :=
    "s (both based on image_0.png reference)\n- Position: 左右に並べて配置、または対峙する構図\n- Variation: 同じキャラクターデザインで、表情やポーズを変えて区別\n- Labels: 各キャラクターに"
  const GroupLayout: string :=
    "s (all based on image_0.png reference)\n- Position: 画面に複数配置、前後や左右に配置して奥行きを表現\n- Variation: 同じキャラクターデザインで、サイズ・表情・ポーズを変えて区別\n- Labels: 各キャラクターに"
  const LabelTail: string := "のラベルを手書きで追加"

  /** The text after the count line's head, by the number of characters. */
  function LayoutBody(characters: seq<string>): string {
    if |characters| == 1 then OneLayout
    else if |characters| == 2 then PairLayout + ("「" + characters[0] + "」「" + characters[1] + "」") + LabelTail
    else GroupLayout + ("「" + Join(characters, "」「") + "」") + LabelTail
  }

  /** `generateCharacterLayout`: one layout for exactly one character, one
      labelling both for exactly two, and one labelling all for any other
      number. */
  function CharacterLayout(characters: seq<string>): (r: string)
    ensures StartsWith(r, CountHeader + NatToString(|characters|) + " sumo wrestler")
  {
    var head := CountHeader + NatToString(|characters|) + " sumo wrestler";
    assert (head + LayoutBody(characters))[..|head|] == head;
    head + LayoutBody(characters)
  }

  /** Two characters are labelled by name, each in its own brackets, and
      any other count of two or more labels every character. */
  lemma LayoutLabels(characters: seq<string>)
    requires |characters| >= 2
    ensures |characters| == 2 ==> Contains(CharacterLayout(characters), "「" + characters[0] + "」「" + characters[1] + "」")
    ensures forall k :: 0 <= k < |characters| ==> Contains(CharacterLayout(characters), characters[k])
  {
    var head := CountHeader + NatToString(|characters|) + " sumo wrestler";
    var body := LayoutBody(characters);
    assert CharacterLayout(characters) == head + body + [];
    if |characters| == 2 {
      var labels := "「" + characters[0] + "」「" + characters[1] + "」";
      assert body == PairLayout + labels + LabelTail;
      assert StartsWith(labels, labels);
      ContainsWithin(PairLayout, labels, LabelTail, labels);
      ContainsWithin(head, body, [], labels);
      BracketedPair(characters[0], characters[1]);
      forall k | 0 <= k < 2
        ensures Contains(CharacterLayout(characters), characters[k])
      {
        ContainsWithin(PairLayout, labels, LabelTail, characters[k]);
        ContainsWithin(head, body, [], characters[k]);
      }
    } else {
      var labels := "「" + Join(characters, "」「") + "」";
      assert body == GroupLayout + labels + LabelTail;
      forall k | 0 <= k < |characters|
        ensures Contains(CharacterLayout(characters), characters[k])
      {
        JoinContains(characters, "」「", k);
        ContainsWithin("「", Join(characters, "」「"), "」", characters[k]);
        ContainsWithin(GroupLayout, labels, LabelTail, characters[k]);
        ContainsWithin(head, body, [], characters[k]);
      }
    }
  }

  /** Both names show inside the bracketed pair label. */
  lemma BracketedPair(x: string, y: string)
    ensures Contains("「" + x + "」「" + y + "」", x) && Contains("「" + x + "」「" + y + "」", y)
  {
    var open, mid, close := "「", "」「", "」";
    assert StartsWith(x, x) && StartsWith(y, y);
    ContainsWithin(open, x, mid + y + close, x);
    assert open + x + (mid + y + close) == "「" + x + "」「" + y + "」";
    ContainsWithin(open + x + mid, y, close, y);
  }

  /** Background features per location; unknown locations get the default. */
  const LocationFeatures: Dict.Dict := [
    ("両国国技館", "吊り屋根、満員の観客席（簡略化）、土俵"),
    ("大相撲の土俵", "円形の土俵、俵、四隅の房（青・赤・白・黒）"),
    ("稽古場", "シンプルな土俵、タオル、水桶"),
    ("本場所の会場", "土俵、観客席の雰囲気、幕"),
    ("巡業先", "地方の会場、観客との距離が近い雰囲気"),
    ("相撲部屋", "稽古場、神棚、土俵")
  ]

  const DefaultFeatures: string := "相撲らしい雰囲気の背景"

  /** `features[location] || default`. */
  function GetLocationFeatures(location: string): (r: string)
    ensures r != []
    ensures !Dict.HasKey(LocationFeatures, location) ==> r == DefaultFeatures
  {
    match Dict.Get(LocationFeatures, location)
    case Some(v) => if v != [] then v else DefaultFeatures
    case None => DefaultFeatures
  }

  /** Every location `extractLocation` can name has its own features, and
      only the default venue falls back to the default features. */
  lemma FeaturesOfExtractedLocation(text: string)
    ensures GetLocationFeatures(ExtractLocation(text)) == DefaultFeatures <==> ExtractLocation(text) == DefaultLocation
  {
    var loc := ExtractLocation(text);
    if loc == DefaultLocation {
      DefaultLocationUnkeyed();
    } else {
      var i :| 0 <= i < |LocationKeywords| && loc == LocationKeywords[i].1;
      FeatureTable(i);
      FeatureAt(LocationFeatures, i);
    }
  }

  /** The features table is keyed by the locations, in the same order,
      with distinct keys and no default values. */
  lemma FeatureTable(i: nat)
    requires i < |LocationKeywords|
    ensures i < |LocationFeatures| && LocationFeatures[i].0 == LocationKeywords[i].1
    ensures LocationFeatures[i].1 != DefaultFeatures
    ensures forall j :: 0 <= j < i ==> LocationFeatures[j].0 != LocationFeatures[i].0
  {
  }

  lemma DefaultLocationUnkeyed()
    ensures !Dict.HasKey(LocationFeatures, DefaultLocation)
  {
    assert Dict.KeysOf(LocationFeatures) == ["両国国技館", "大相撲の土俵", "稽古場", "本場所の会場", "巡業先", "相撲部屋"];
  }

  /** Looking up the key of the `i`-th pair, when no earlier pair has it,
      gives the `i`-th value. */
  lemma {:induction false} FeatureAt(d: Dict.Dict, i: nat)
    requires i < |d|
    requires forall j :: 0 <= j < i ==> d[j].0 != d[i].0
    ensures Dict.Get(d, d[i].0) == Some(d[i].1)
  {
    if i > 0 {
      FeatureAt(d[1..], i - 1);
    }
  }

  const Positions: seq<string> := ["左側", "中央", "右側"]
  const Actions: seq<string> := ["力強くポーズ", "語りかけている", "注目している", "驚いている"]

  /** The line describing the character at `idx` when several are drawn:
      positions cycle every three characters, actions every four. */
  function DescriptionLine(name: string, idx: nat): string {
    "- " + name + ": " + Positions[idx % 3] + "に配置、" + Actions[idx % 4]
  }

  function DescriptionLines(characters: seq<string>): (r: seq<string>)
    ensures |r| == |characters|
    ensures forall i :: 0 <= i < |r| ==> r[i] == DescriptionLine(characters[i], i)
  {
    seq(|characters|, i requires 0 <= i < |characters| => DescriptionLine(characters[i], i))
  }

  const GroupFooter: string :=
    "\n\n主要キャラクターは必ず 'image_0.png' を使用し、その他キャラクターは全員が同じ 'image_0.png' の力士デザインをベースにしているが、\n表情、ポーズ、サイズを変えて個性を表現。\n各キャラクターには手書きのラベルで名前を明記。"

  /** `generateCharacterDescription`: a single character is described with
      the scene's action and emotion; several get one line each. */
  function CharacterDescription(characters: seq<string>, action: string, emotion: string): (r: string)
  {
    if |characters| == 1 then
      characters[0] + SoloLead + action + SoloMiddle + emotion + SoloTail
    else
      NatToString(|characters|) + GroupLead + Join(DescriptionLines(characters), "\n") + GroupFooter
  }

  const SoloLead: string := "のキャラクターが画面中央で"
  const SoloMiddle: string := "。\n表情は"
  const SoloTail: string := "で、視聴者に親しみやすい印象を与える。\nキャラクターの周囲に名前や役割を示す手書きラベルを配置。"
  const GroupLead: string := "人のキャラクターが登場:\n"

  /** A lone character heads its description, which carries the action and
      the emotion; a group description has a line for every character. */
  lemma DescriptionMentions(characters: seq<string>, action: string, emotion: string)
    ensures |characters| == 1 ==> StartsWith(CharacterDescription(characters, action, emotion), characters[0])
    ensures |characters| == 1 ==>
      Contains(CharacterDescription(characters, action, emotion), action) && Contains(CharacterDescription(characters, action, emotion), emotion)
    ensures |characters| != 1 ==>
      forall i :: 0 <= i < |characters| ==> Contains(CharacterDescription(characters, action, emotion), DescriptionLine(characters[i], i))
  {
    if |characters| == 1 {
      SoloMentions(characters[0], action, emotion);
    } else {
      GroupMentions(characters, action, emotion);
    }
  }

  lemma SoloMentions(name: string, action: string, emotion: string)
    ensures var r := name + SoloLead + action + SoloMiddle + emotion + SoloTail;
      StartsWith(r, name) && Contains(r, action) && Contains(r, emotion)
  {
    var r := name + SoloLead + action + SoloMiddle + emotion + SoloTail;
    assert r == name + (SoloLead + action + SoloMiddle + emotion + SoloTail);
    assert r[..|name|] == name;
    assert StartsWith(action, action) && StartsWith(emotion, emotion);
    assert r == (name + SoloLead) + action + (SoloMiddle + emotion + SoloTail);
    ContainsWithin(name + SoloLead, action, SoloMiddle + emotion + SoloTail, action);
    assert r == (name + SoloLead + action + SoloMiddle) + emotion + SoloTail;
    ContainsWithin(name + SoloLead + action + SoloMiddle, emotion, SoloTail, emotion);
  }

  lemma GroupMentions(characters: seq<string>, action: string, emotion: string)
    requires |characters| != 1
    ensures forall i :: 0 <= i < |characters| ==> Contains(CharacterDescription(characters, action, emotion), DescriptionLine(characters[i], i))
  {
    var r := CharacterDescription(characters, action, emotion);
    var lines := DescriptionLines(characters);
    var a := NatToString(|characters|) + GroupLead;
    forall i | 0 <= i < |characters|
      ensures Contains(r, DescriptionLine(characters[i], i))
    {
      JoinContains(lines, "\n", i);
      ContainsWithin(a, Join(lines, "\n"), GroupFooter, lines[i]);
    }
  }
}
