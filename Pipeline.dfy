/** The orchestration of one video (`VideoAgent`): the output directory,
    the per-scene image and audio loops, the pairing of images with audio
    for assembly, the optional background music and the sequence of
    progress events `run` emits.

    The external services (the article fetch, the scenario model, the
    image model, speech synthesis and transcription, ffmpeg, the file
    system and the clock) are parameters: each is given as the outcome it
    produces. */
module Pipeline {
  import opened Text
  import AV = AudioVerification

  // ---------------------------------------------------------------------
  // Events and scenarios

  datatype Step = ScenarioStep | ImagesStep | AudioStep | AssemblyStep | BgmStep | CompleteStep
  datatype Status = InProgress | Completed | Error

  /** One call of the progress callback; `videoPath` is the `data` of the
      final event. */
  datatype ProgressEvent = ProgressEvent(step: Step, status: Status, progress: int, message: string, videoPath: Option<string>)

  /** The position of a step in the pipeline. */
  function StepRank(s: Step): nat {
    match s
    case ScenarioStep => 0
    case ImagesStep => 1
    case AudioStep => 2
    case AssemblyStep => 3
    case BgmStep => 4
    case CompleteStep => 5
  }

  datatype Scene = Scene(text: string, imagePrompt: string)

  /** A scenario as parsed from the model's JSON; a scene slot may be empty
      (`null`), and the loops skip such slots. */
  datatype Scenario = Scenario(title: string, scenes: seq<Option<Scene>>)

  /** What the outside world does during one run. */
  datatype Services = Services(
    hostname: Outcome<string>,                 // `new URL(input).hostname`, or the error it throws
    timestamp: string,                         // the formatted start time
    cwd: string,                               // `process.cwd()`
    page: Outcome<string>,                     // the article text fetched for a URL input
    scenarioReply: Outcome<Scenario>,          // the scenario model's parsed answer
    referenceError: Option<string>,            // reading the reference image failed
    imageErrors: nat -> Option<string>,        // the image request for scene i failed
    trials: nat -> nat -> AV.Trial,            // speech attempts for scene i
    renderError: Option<string>,               // ffmpeg failed while assembling
    bgmFound: bool,                            // the background-music file exists
    mixError: Option<string>)                  // ffmpeg failed while mixing the music

  // ---------------------------------------------------------------------
  // Topic, directory and content

  /** The characters a topic keeps in a directory name: ASCII letters and
      digits, hiragana, katakana and the CJK ideographs up to U+9FAF. */
  predicate IsTopicChar(c: char) {
    ('a' <= c <= 'z') || ('A' <= c <= 'Z') || ('0' <= c <= '9')
    || ('\U{3040}' <= c <= '\U{309F}') || ('\U{30A0}' <= c <= '\U{30FF}') || ('\U{4E00}' <= c <= '\U{9FAF}')
  }

  function SanitizeChar(c: char): char {
    if IsTopicChar(c) then c else '_'
  }

  /** Every other character replaced by `_`. */
  function ReplaceUnsafe(s: string): (r: string)
    ensures |r| == |s|
    ensures forall i :: 0 <= i < |s| ==> r[i] == SanitizeChar(s[i])
  {
    if s == [] then [] else [SanitizeChar(s[0])] + ReplaceUnsafe(s[1..])
  }

  /** The topic as it appears in the directory name: unsafe characters
      replaced and cut to 30 characters. */
  function SanitizeTopic(topic: string): (r: string)
    ensures |r| <= 30 && |r| == (if |topic| < 30 then |topic| else 30)
    ensures forall i :: 0 <= i < |r| ==> IsTopicChar(r[i]) || r[i] == '_'
  {
    Take(ReplaceUnsafe(topic), 30)
  }

  /** Sanitizing is idempotent, and a short topic of safe characters is
      kept as it is. */
  lemma SanitizeStable(topic: string)
    ensures SanitizeTopic(SanitizeTopic(topic)) == SanitizeTopic(topic)
    ensures |topic| <= 30 && (forall i :: 0 <= i < |topic| ==> IsTopicChar(topic[i])) ==> SanitizeTopic(topic) == topic
  {
    var r := SanitizeTopic(topic);
    assert ReplaceUnsafe(r) == r;
  }

  /** The output directory after `init`: a directory given beforehand is
      kept, otherwise one named by the start time and the topic is made
      under `output`. */
  function InitDir(outputDir: string, topic: string, timestamp: string, cwd: string): (r: string)
    ensures outputDir != "" ==> r == outputDir
    ensures outputDir == "" ==> EndsWith(r, "_" + SanitizeTopic(topic))
  {
    if outputDir != "" then outputDir
    else
      var r := cwd + "/output/" + timestamp + "_" + SanitizeTopic(topic);
      assert r == (cwd + "/output/" + timestamp) + ("_" + SanitizeTopic(topic));
      r
  }

  /** The topic of a run: the host of a URL input without its first
      `www.`, or the first 50 characters of a text input. */
  function TopicName(input: string, hostname: Outcome<string>): (r: Outcome<string>)
    ensures !StartsWith(input, "http") ==> r == Ok(Take(input, 50))
    ensures StartsWith(input, "http") && hostname.Fail? ==> r == hostname
  {
    if StartsWith(input, "http") then
      match hostname
      case Ok(h) => Ok(ReplaceFirst(h, "www.", ""))
      case Fail(m) => Fail(m)
    else Ok(Take(input, 50))
  }

  /** A host starting with `www.` loses exactly that prefix. */
  lemma TopicOfWwwHost(input: string, h: string)
    requires StartsWith(input, "http") && StartsWith(h, "www.")
    ensures TopicName(input, Ok(h)) == Ok(h[4..])
  {
    ReplaceFirstPrefix(h, "www.");
  }

  const FetchFailure: string := "URLからのコンテンツ取得に失敗しました"

  /** `fetchContent`: a URL input is replaced by the fetched page, and a
      failed fetch becomes one fixed error; any other input passes
      through unchanged. */
  function FetchContent(input: string, page: Outcome<string>): (r: Outcome<string>)
    ensures !StartsWith(input, "http") ==> r == Ok(input)
    ensures StartsWith(input, "http") && page.Fail? ==> r == Fail(FetchFailure)
  {
    if StartsWith(input, "http") then
      if page.Ok? then Ok(page.value) else Fail(FetchFailure)
    else Ok(input)
  }

  /** `generateScenario`: the content must be fetched first; then the
      model's answer decides. */
  function GenerateScenario(input: string, page: Outcome<string>, reply: Outcome<Scenario>): (r: Outcome<Scenario>)
    ensures FetchContent(input, page).Fail? ==> r == Fail(FetchContent(input, page).message)
    ensures FetchContent(input, page).Ok? ==> r == reply
  {
    match FetchContent(input, page)
    case Fail(m) => Fail(m)
    case Ok(_) => reply
  }

  // ---------------------------------------------------------------------
  // Per-scene loops

  /** The indices from `i` on whose scene slot is filled, in order. */
  function PresentFrom(scenes: seq<Option<Scene>>, i: nat): (idx: seq<nat>)
    requires i <= |scenes|
    ensures forall k :: 0 <= k < |idx| ==> i <= idx[k] < |scenes| && scenes[idx[k]].Some?
    decreases |scenes| - i
  {
    if i == |scenes| then []
    else (if scenes[i].Some? then [i] else []) + PresentFrom(scenes, i + 1)
  }

  predicate Increasing(xs: seq<nat>) {
    forall k, l :: 0 <= k < l < |xs| ==> xs[k] < xs[l]
  }

  /** The filled slots are listed in increasing order. */
  lemma {:induction false} PresentFromOrdered(scenes: seq<Option<Scene>>, i: nat)
    requires i <= |scenes|
    ensures Increasing(PresentFrom(scenes, i))
    decreases |scenes| - i
  {
    if i < |scenes| {
      PresentFromOrdered(scenes, i + 1);
      var rest := PresentFrom(scenes, i + 1);
      if scenes[i].Some? {
        OrderedCons(i, rest);
        assert PresentFrom(scenes, i) == [i] + rest;
      } else {
        assert PresentFrom(scenes, i) == rest;
      }
    }
  }

  lemma OrderedCons(i: nat, rest: seq<nat>)
    requires forall k :: 0 <= k < |rest| ==> i < rest[k]
    requires Increasing(rest)
    ensures Increasing([i] + rest)
  {
    var idx := [i] + rest;
    forall k, l | 0 <= k < l < |idx| ensures idx[k] < idx[l] {
      assert idx[l] == rest[l - 1];
      if k > 0 {
        assert idx[k] == rest[k - 1];
      }
    }
  }

  /** No filled slot is missed. */
  lemma {:induction false} PresentFromComplete(scenes: seq<Option<Scene>>, i: nat)
    requires i <= |scenes|
    ensures forall j :: i <= j < |scenes| && scenes[j].Some? ==> j in PresentFrom(scenes, i)
    decreases |scenes| - i
  {
    if i < |scenes| {
      PresentFromComplete(scenes, i + 1);
      var rest := PresentFrom(scenes, i + 1);
      assert PresentFrom(scenes, i) == (if scenes[i].Some? then [i] else []) + rest;
    }
  }

  /** A loop over the scenes that skips empty slots and either collects
      one path per scene or stops at the first error. */
  function PerScene(scenes: seq<Option<Scene>>, step: (nat, Scene) -> Outcome<string>, i: nat): Outcome<seq<string>>
    requires i <= |scenes|
    decreases |scenes| - i
  {
    if i == |scenes| then Ok([])
    else if scenes[i].None? then PerScene(scenes, step, i + 1)
    else
      match step(i, scenes[i].value)
      case Fail(m) => Fail(m)
      case Ok(p) => Prepend([p], PerScene(scenes, step, i + 1))
  }

  /** The loop yields, in order, the path of every filled slot, or the
      error of the first slot that fails after all earlier ones succeeded. */
  lemma PerSceneSpec(scenes: seq<Option<Scene>>, step: (nat, Scene) -> Outcome<string>, i: nat)
    requires i <= |scenes|
    ensures var r, idx := PerScene(scenes, step, i), PresentFrom(scenes, i);
      r.Ok? ==> |r.value| == |idx| && forall k :: 0 <= k < |idx| ==> step(idx[k], scenes[idx[k]].value) == Ok(r.value[k])
    ensures var r, idx := PerScene(scenes, step, i), PresentFrom(scenes, i);
      r.Fail? ==>
        exists k :: 0 <= k < |idx| && step(idx[k], scenes[idx[k]].value) == Fail(r.message)
          && forall l :: 0 <= l < k ==> step(idx[l], scenes[idx[l]].value).Ok?
  {
    PerSceneOk(scenes, step, i);
    PerSceneFail(scenes, step, i);
    var r := PerScene(scenes, step, i);
    if r.Fail? {
      var k :| FailsAt(scenes, step, PresentFrom(scenes, i), k, r.message);
    }
  }

  /** On success, one path per filled slot, each produced by that slot's step. */
  lemma {:induction false} PerSceneOk(scenes: seq<Option<Scene>>, step: (nat, Scene) -> Outcome<string>, i: nat)
    requires i <= |scenes|
    ensures var r, idx := PerScene(scenes, step, i), PresentFrom(scenes, i);
      r.Ok? ==> |r.value| == |idx| && forall k :: 0 <= k < |idx| ==> step(idx[k], scenes[idx[k]].value) == Ok(r.value[k])
    decreases |scenes| - i
  {
    if i < |scenes| {
      var r := PerScene(scenes, step, i);
      PerSceneOk(scenes, step, i + 1);
      if r.Ok? {
        if scenes[i].None? {
          assert PresentFrom(scenes, i) == PresentFrom(scenes, i + 1);
        } else {
          var r', idx' := PerScene(scenes, step, i + 1), PresentFrom(scenes, i + 1);
          ShiftOk(scenes, step, i, r'.value, idx');
        }
      }
    }
  }

  lemma ShiftOk(scenes: seq<Option<Scene>>, step: (nat, Scene) -> Outcome<string>, i: nat, ps: seq<string>, idx': seq<nat>)
    requires i < |scenes| && scenes[i].Some? && step(i, scenes[i].value).Ok?
    requires forall j :: 0 <= j < |idx'| ==> idx'[j] < |scenes| && scenes[idx'[j]].Some?
    requires |ps| == |idx'| && forall k :: 0 <= k < |idx'| ==> step(idx'[k], scenes[idx'[k]].value) == Ok(ps[k])
    ensures var idx, r := [i] + idx', [step(i, scenes[i].value).value] + ps;
      |r| == |idx| && forall k :: 0 <= k < |idx| ==> step(idx[k], scenes[idx[k]].value) == Ok(r[k])
  {
    var idx, r := [i] + idx', [step(i, scenes[i].value).value] + ps;
    forall k | 0 <= k < |idx|
      ensures step(idx[k], scenes[idx[k]].value) == Ok(r[k])
    {
      if k > 0 {
        assert idx[k] == idx'[k - 1] && r[k] == ps[k - 1];
      }
    }
  }

  /** Slot `idx[k]` fails with `msg` and every slot listed before it succeeds. */
  predicate FailsAt(scenes: seq<Option<Scene>>, step: (nat, Scene) -> Outcome<string>, idx: seq<nat>, k: nat, msg: string)
  {
    && k < |idx|
    && (forall j :: 0 <= j < |idx| ==> idx[j] < |scenes| && scenes[idx[j]].Some?)
    && step(idx[k], scenes[idx[k]].value) == Fail(msg)
    && forall l :: 0 <= l < k ==> step(idx[l], scenes[idx[l]].value).Ok?
  }

  /** On failure, the error is that of a filled slot all of whose
      predecessors succeeded. */
  lemma {:induction false} PerSceneFail(scenes: seq<Option<Scene>>, step: (nat, Scene) -> Outcome<string>, i: nat)
    requires i <= |scenes|
    ensures var r := PerScene(scenes, step, i);
      r.Fail? ==> exists k :: FailsAt(scenes, step, PresentFrom(scenes, i), k, r.message)
    decreases |scenes| - i
  {
    if i < |scenes| {
      var r := PerScene(scenes, step, i);
      PerSceneFail(scenes, step, i + 1);
      if r.Fail? {
        if scenes[i].None? {
          assert PresentFrom(scenes, i) == PresentFrom(scenes, i + 1);
        } else if step(i, scenes[i].value).Fail? {
          assert FailsAt(scenes, step, PresentFrom(scenes, i), 0, r.message);
        } else {
          var r' := PerScene(scenes, step, i + 1);
          var k' :| FailsAt(scenes, step, PresentFrom(scenes, i + 1), k', r'.message);
          ShiftFailsAt(scenes, step, i, PresentFrom(scenes, i + 1), k', r.message);
        }
      }
    }
  }

  lemma ShiftFailsAt(scenes: seq<Option<Scene>>, step: (nat, Scene) -> Outcome<string>, i: nat, idx': seq<nat>, k': nat, msg: string)
    requires i < |scenes| && scenes[i].Some? && step(i, scenes[i].value).Ok?
    requires FailsAt(scenes, step, idx', k', msg)
    ensures FailsAt(scenes, step, [i] + idx', k' + 1, msg)
  {
    var idx := [i] + idx';
    forall l | 0 <= l < k' + 1
      ensures step(idx[l], scenes[idx[l]].value).Ok?
    {
      if l > 0 {
        assert idx[l] == idx'[l - 1];
      }
    }
  }

  function Prepend(ps: seq<string>, r: Outcome<seq<string>>): Outcome<seq<string>> {
    if r.Ok? then Ok(ps + r.value) else r
  }

  lemma PrependTwice(ps: seq<string>, qs: seq<string>, r: Outcome<seq<string>>)
    ensures Prepend(ps, Prepend(qs, r)) == Prepend(ps + qs, r)
  {
    if r.Ok? {
      assert ps + (qs + r.value) == ps + qs + r.value;
    }
  }

  function ImagePath(outputDir: string, i: nat): string {
    outputDir + "/scene_" + NatToString(i) + ".png"
  }

  /** One scene of `generateImages`: the image request fails, or the image
      is saved as `scene_<i>.png`. */
  function SceneImage(outputDir: string, imageErrors: nat -> Option<string>): (nat, Scene) -> Outcome<string> {
    (i: nat, s: Scene) => if imageErrors(i).Some? then Fail(imageErrors(i).value) else Ok(ImagePath(outputDir, i))
  }

  /** `generateImages`. */
  function ImagesOutcome(outputDir: string, scenes: seq<Option<Scene>>, referenceError: Option<string>,
                         imageErrors: nat -> Option<string>): Outcome<seq<string>> {
    if referenceError.Some? then Fail(referenceError.value)
    else PerScene(scenes, SceneImage(outputDir, imageErrors), 0)
  }

  /** One scene of `generateAudio`: the verified speech of that scene, with
      three attempts at most. */
  function SceneAudio(outputDir: string, trials: nat -> nat -> AV.Trial): (nat, Scene) -> Outcome<string> {
    (i: nat, s: Scene) =>
      match AV.Escalate(s.text, i, outputDir, 3, trials(i), 0).0
      case Audio(p) => Ok(p)
      case Thrown(m) => Fail(m)
  }

  /** `generateAudio`. */
  function AudioOutcome(outputDir: string, scenes: seq<Option<Scene>>, trials: nat -> nat -> AV.Trial): Outcome<seq<string>> {
    PerScene(scenes, SceneAudio(outputDir, trials), 0)
  }

  /** Image `k` and audio `k` belong to the same scene: on success both
      lists follow the filled slots in order, as `scene_<i>.png` and
      `scene_<i>.mp3`.  So the two lists always have the same length. */
  lemma AssetsMatch(outputDir: string, scenes: seq<Option<Scene>>, referenceError: Option<string>,
                    imageErrors: nat -> Option<string>, trials: nat -> nat -> AV.Trial)
    requires ImagesOutcome(outputDir, scenes, referenceError, imageErrors).Ok?
    requires AudioOutcome(outputDir, scenes, trials).Ok?
    ensures var images := ImagesOutcome(outputDir, scenes, referenceError, imageErrors).value;
      var audio := AudioOutcome(outputDir, scenes, trials).value;
      var idx := PresentFrom(scenes, 0);
      && |images| == |audio| == |idx|
      && forall k :: 0 <= k < |idx| ==> images[k] == ImagePath(outputDir, idx[k]) && audio[k] == AV.AudioPath(outputDir, idx[k])
  {
    var images := ImagesOutcome(outputDir, scenes, referenceError, imageErrors).value;
    var audio := AudioOutcome(outputDir, scenes, trials).value;
    var idx := PresentFrom(scenes, 0);
    PerSceneSpec(scenes, SceneImage(outputDir, imageErrors), 0);
    PerSceneSpec(scenes, SceneAudio(outputDir, trials), 0);
    forall k | 0 <= k < |idx|
      ensures images[k] == ImagePath(outputDir, idx[k]) && audio[k] == AV.AudioPath(outputDir, idx[k])
    {
      var s := scenes[idx[k]].value;
      assert SceneImage(outputDir, imageErrors)(idx[k], s) == Ok(images[k]);
      assert SceneAudio(outputDir, trials)(idx[k], s) == Ok(audio[k]);
      AV.EscalateOutcome(s.text, idx[k], outputDir, 3, trials(idx[k]), 0);
    }
  }

  // ---------------------------------------------------------------------
  // Assembly and music

  function ChunkPath(outputDir: string, i: nat): string {
    outputDir + "/chunk_" + NatToString(i) + ".mp4"
  }

  function FinalPath(outputDir: string): string {
    outputDir + "/sumo_news.mp4"
  }

  /** The clips `assembleVideoSimple` renders from the first `n` images:
      image `i` with audio `i` into `chunk_<i>.mp4`, skipping an index
      whose image or audio is missing or empty. */
  function Chunks(outputDir: string, images: seq<string>, audio: seq<string>, n: nat): (cs: seq<(string, string, string)>)
    requires n <= |images|
    ensures |cs| <= n
    ensures forall c :: c in cs ==> exists i :: 0 <= i < n && i < |audio| && c == (images[i], audio[i], ChunkPath(outputDir, i))
  {
    if n == 0 then []
    else
      var i := n - 1;
      Chunks(outputDir, images, audio, i)
      + (if images[i] != "" && i < |audio| && audio[i] != "" then [(images[i], audio[i], ChunkPath(outputDir, i))] else [])
  }

  /** With as many non-empty audio files as images, every image gets its
      own clip, in order. */
  lemma {:induction false} ChunksPairAll(outputDir: string, images: seq<string>, audio: seq<string>, n: nat)
    requires n <= |images| == |audio|
    requires forall i :: 0 <= i < |images| ==> images[i] != "" && audio[i] != ""
    ensures var cs := Chunks(outputDir, images, audio, n);
      |cs| == n && forall i :: 0 <= i < n ==> cs[i] == (images[i], audio[i], ChunkPath(outputDir, i))
  {
    if n > 0 {
      ChunksPairAll(outputDir, images, audio, n - 1);
    }
  }

  /** `assembleVideoSimple`: the clips are merged into `sumo_news.mp4`
      unless ffmpeg fails. */
  function AssemblyOutcome(outputDir: string, renderError: Option<string>): Outcome<string> {
    if renderError.Some? then Fail(renderError.value) else Ok(FinalPath(outputDir))
  }

  /** `addBackgroundMusic`: without a music file the video is returned as
      it is; otherwise the mixed video `sumo_news_with_bgm.mp4`, unless
      ffmpeg fails. */
  function BackgroundMusic(outputDir: string, videoPath: string, bgmFound: bool, mixError: Option<string>): (r: Outcome<string>)
    ensures !bgmFound ==> r == Ok(videoPath)
    ensures bgmFound && mixError.None? ==> r == Ok(outputDir + "/sumo_news_with_bgm.mp4")
    ensures bgmFound && mixError.Some? ==> r == Fail(mixError.value)
  {
    if !bgmFound then Ok(videoPath)
    else if mixError.Some? then Fail(mixError.value)
    else Ok(outputDir + "/sumo_news_with_bgm.mp4")
  }

  // ---------------------------------------------------------------------
  // The run

  function Ev(step: Step, status: Status, progress: int, message: string): ProgressEvent {
    ProgressEvent(step, status, progress, message, None)
  }

  const CountMismatch: string := "生成されたアセットの数が一致しません"

  /** The event reported when a run fails; an empty error message is
      replaced by a generic one. */
  function ErrorEvent(message: string): ProgressEvent {
    ProgressEvent(CompleteStep, Error, 0, if message == "" then "Video generation failed" else message, None)
  }

  /** The events of the scenario stage and the scenario it yields. */
  function ScenarioStage(input: string, pre: Option<Scenario>, env: Services): (seq<ProgressEvent>, Outcome<Scenario>) {
    if pre.Some? then ([Ev(ScenarioStep, Completed, 25, "Using pre-generated scenario")], Ok(pre.value))
    else
      var s := GenerateScenario(input, env.page, env.scenarioReply);
      if s.Fail? then ([Ev(ScenarioStep, InProgress, 5, "Generating scenario...")], s)
      else ([Ev(ScenarioStep, InProgress, 5, "Generating scenario..."), Ev(ScenarioStep, Completed, 25, "Scenario generated")], s)
  }

  /** The events from the image stage on and the run's result, once the
      scenario is known; an error ends the events where it happens. */
  function Production(outputDir: string, scenario: Scenario, env: Services): (seq<ProgressEvent>, Outcome<string>) {
    var a := AssetStage(outputDir, scenario, env);
    if a.1.Fail? then (a.0, Fail(a.1.message))
    else if |a.1.value.0| != |a.1.value.1| then (a.0, Fail(CountMismatch))
    else
      var f := Finishing(outputDir, env);
      (a.0 + f.0, f.1)
  }

  /** The events of the image and audio stages and the image and audio
      paths they yield. */
  function AssetStage(outputDir: string, scenario: Scenario, env: Services): (seq<ProgressEvent>, Outcome<(seq<string>, seq<string>)>) {
    var n := NatToString(|scenario.scenes|);
    var e1 := [Ev(ImagesStep, InProgress, 30, "Generating images (0/" + n + ")...")];
    var images := ImagesOutcome(outputDir, scenario.scenes, env.referenceError, env.imageErrors);
    if images.Fail? then (e1, Fail(images.message))
    else
      var e2 := e1 + [Ev(ImagesStep, Completed, 50, "All images generated (" + NatToString(|images.value|) + ")"),
                      Ev(AudioStep, InProgress, 55, "Generating audio (0/" + n + ")...")];
      var audio := AudioOutcome(outputDir, scenario.scenes, env.trials);
      if audio.Fail? then (e2, Fail(audio.message))
      else
        (e2 + [Ev(AudioStep, Completed, 75, "All audio generated (" + NatToString(|audio.value|) + ")")],
         Ok((images.value, audio.value)))
  }

  /** The events of assembly and background music and the run's result,
      once every asset exists. */
  function Finishing(outputDir: string, env: Services): (seq<ProgressEvent>, Outcome<string>) {
    var e4 := [Ev(AssemblyStep, InProgress, 80, "Assembling video...")];
    var video := AssemblyOutcome(outputDir, env.renderError);
    if video.Fail? then (e4, Fail(video.message))
    else
      var e5 := e4 + [Ev(AssemblyStep, Completed, 90, "Video assembled"), Ev(BgmStep, InProgress, 92, "Adding background music...")];
      var final := BackgroundMusic(outputDir, video.value, env.bgmFound, env.mixError);
      if final.Fail? then (e5, Fail(final.message))
      else
        (e5 + [Ev(BgmStep, Completed, 95, "Background music added"),
               ProgressEvent(CompleteStep, Completed, 100, "Video generation complete", Some(final.value))],
         Ok(final.value))
  }

  /** What a run does: its events, the output directory it settles on and
      its result. */
  datatype Trace = Trace(events: seq<ProgressEvent>, outputDir: string, result: Outcome<string>)

  /** `run`: every error ends the run with one error event and is passed
      on to the caller. */
  function RunSpec(outputDir: string, input: string, pre: Option<Scenario>, env: Services): Trace {
    var topic := TopicName(input, env.hostname);
    if topic.Fail? then Trace([ErrorEvent(topic.message)], outputDir, Fail(topic.message))
    else AfterInit(InitDir(outputDir, topic.value, env.timestamp, env.cwd), input, pre, env)
  }

  /** The run once the output directory is settled. */
  function AfterInit(outputDir: string, input: string, pre: Option<Scenario>, env: Services): Trace {
    var stage := ScenarioStage(input, pre, env);
    if stage.1.Fail? then Trace(stage.0 + [ErrorEvent(stage.1.message)], outputDir, Fail(stage.1.message))
    else Finish(outputDir, stage.0, Production(outputDir, stage.1.value, env))
  }

  lemma AfterScenario(outputDir: string, input: string, pre: Option<Scenario>, env: Services)
    requires ScenarioStage(input, pre, env).1.Ok?
    ensures var stage := ScenarioStage(input, pre, env);
      AfterInit(outputDir, input, pre, env) == Finish(outputDir, stage.0, Production(outputDir, stage.1.value, env))
  {
  }

  /** The run once the scenario stage emitted `se` and production ended. */
  function Finish(outputDir: string, se: seq<ProgressEvent>, production: (seq<ProgressEvent>, Outcome<string>)): Trace {
    if production.1.Fail? then Trace(se + production.0 + [ErrorEvent(production.1.message)], outputDir, production.1)
    else Trace(se + production.0, outputDir, production.1)
  }

  // ---------------------------------------------------------------------
  // Properties of a run

  function Shape(e: ProgressEvent): (Step, Status, int) {
    (e.step, e.status, e.progress)
  }

  function Shapes(es: seq<ProgressEvent>): (r: seq<(Step, Status, int)>)
    ensures |r| == |es| && forall i :: 0 <= i < |es| ==> r[i] == Shape(es[i])
  {
    seq(|es|, i requires 0 <= i < |es| => Shape(es[i]))
  }

  /** The steps, statuses and percentages of a successful run. */
  function Plan(pregenerated: bool): seq<(Step, Status, int)> {
    (if pregenerated then [(ScenarioStep, Completed, 25)]
     else [(ScenarioStep, InProgress, 5), (ScenarioStep, Completed, 25)])
    + PlanAfterScenario()
  }

  /** Along the plan the step never goes back and the percentage never
      drops; only its last entry belongs to the `complete` step. */
  lemma PlanOrdered(pregenerated: bool)
    ensures var p := Plan(pregenerated);
      && (forall i, j :: 0 <= i < j < |p| ==> StepRank(p[i].0) <= StepRank(p[j].0) && p[i].2 <= p[j].2)
      && (forall i :: 0 <= i < |p| - 1 ==> p[i].0 != CompleteStep)
      && p[|p| - 1] == (CompleteStep, Completed, 100)
  {
    var p := Plan(pregenerated);
    var q := PlanAfterScenario();
    assert forall k :: 0 <= k < |q| - 1 ==> StepRank(q[k].0) <= StepRank(q[k + 1].0) && q[k].2 <= q[k + 1].2;
    forall k | 0 <= k < |p| - 1
      ensures StepRank(p[k].0) <= StepRank(p[k + 1].0) && p[k].2 <= p[k + 1].2
    {
      var s := if pregenerated then 1 else 2;
      if k + 1 > s {
        assert p[k] == q[k - s] && p[k + 1] == q[k + 1 - s];
      }
    }
    forall i, j | 0 <= i < j < |p|
      ensures StepRank(p[i].0) <= StepRank(p[j].0) && p[i].2 <= p[j].2
    {
      StepwiseOrdered(p, i, j);
    }
  }

  lemma {:induction false} StepwiseOrdered(p: seq<(Step, Status, int)>, i: nat, j: nat)
    requires forall k :: 0 <= k < |p| - 1 ==> StepRank(p[k].0) <= StepRank(p[k + 1].0) && p[k].2 <= p[k + 1].2
    requires i <= j < |p|
    ensures StepRank(p[i].0) <= StepRank(p[j].0) && p[i].2 <= p[j].2
    decreases j - i
  {
    if i < j {
      StepwiseOrdered(p, i + 1, j);
    }
  }

  /** The events of `t` follow the plan `p`: a successful run emits all
      of it, the last event carrying the video path; a failed run a proper
      prefix of it followed by exactly one error event carrying the error. */
  predicate FollowsPlan(t: Trace, p: seq<(Step, Status, int)>) {
    && (t.result.Ok? ==> Shapes(t.events) == p && |t.events| > 0 && t.events[|t.events| - 1].videoPath == Some(t.result.value))
    && (t.result.Fail? ==>
          && 1 <= |t.events| <= |p|
          && t.events[|t.events| - 1] == ErrorEvent(t.result.message)
          && Shapes(t.events[..|t.events| - 1]) == p[..|t.events| - 1])
  }

  /** Every run emits the plan's events in order: a successful run all of
      them, ending with `complete/completed/100` and the video path; a
      failed run a proper prefix of them followed by exactly one
      `complete/error/0` event carrying the error. */
  lemma RunFollowsPlan(outputDir: string, input: string, pre: Option<Scenario>, env: Services)
    ensures FollowsPlan(RunSpec(outputDir, input, pre, env), Plan(pre.Some?))
  {
    var topic := TopicName(input, env.hostname);
    if topic.Ok? {
      AfterInitFollowsPlan(InitDir(outputDir, topic.value, env.timestamp, env.cwd), input, pre, env);
    } else {
      assert RunSpec(outputDir, input, pre, env).events[..0] == [];
    }
  }

  lemma AfterInitFollowsPlan(outputDir: string, input: string, pre: Option<Scenario>, env: Services)
    ensures FollowsPlan(AfterInit(outputDir, input, pre, env), Plan(pre.Some?))
  {
    var stage := ScenarioStage(input, pre, env);
    var p := Plan(pre.Some?);
    var s := if pre.Some? then 1 else 2;
    if stage.1.Ok? {
      assert Shapes(stage.0) == p[..s];
      assert p == p[..s] + PlanAfterScenario();
      ProductionFollowsPlan(outputDir, stage.1.value, env);
      FinishFollowsPlan(outputDir, stage.0, Production(outputDir, stage.1.value, env), p, s);
    } else {
      var t := AfterInit(outputDir, input, pre, env);
      assert t.events[..|t.events| - 1] == stage.0;
    }
  }

  lemma FinishFollowsPlan(outputDir: string, se: seq<ProgressEvent>, production: (seq<ProgressEvent>, Outcome<string>),
                          p: seq<(Step, Status, int)>, s: nat)
    requires s <= |p| && Shapes(se) == p[..s] && p == p[..s] + PlanAfterScenario()
    requires |production.0| <= |PlanAfterScenario()|
    requires Shapes(production.0) == PlanAfterScenario()[..|production.0|]
    requires production.1.Ok? <==> |production.0| == |PlanAfterScenario()|
    requires production.1.Ok? ==> production.0[|production.0| - 1].videoPath == Some(production.1.value)
    ensures FollowsPlan(Finish(outputDir, se, production), p)
  {
    var t := Finish(outputDir, se, production);
    var pe := production.0;
    assert Shapes(se + pe) == Shapes(se) + Shapes(pe);
    if production.1.Fail? {
      assert t.events[..|t.events| - 1] == se + pe;
      assert p[..s + |pe|] == p[..s] + PlanAfterScenario()[..|pe|];
    }
  }

  function PlanAfterScenario(): seq<(Step, Status, int)> {
    [(ImagesStep, InProgress, 30), (ImagesStep, Completed, 50),
     (AudioStep, InProgress, 55), (AudioStep, Completed, 75),
     (AssemblyStep, InProgress, 80), (AssemblyStep, Completed, 90),
     (BgmStep, InProgress, 92), (BgmStep, Completed, 95),
     (CompleteStep, Completed, 100)]
  }

  /** The production stage emits a prefix of its part of the plan, the
      whole part exactly when it succeeds. */
  lemma ProductionFollowsPlan(outputDir: string, scenario: Scenario, env: Services)
    ensures var pe, result := Production(outputDir, scenario, env).0, Production(outputDir, scenario, env).1;
      && |pe| <= |PlanAfterScenario()|
      && Shapes(pe) == PlanAfterScenario()[..|pe|]
      && (result.Ok? <==> |pe| == |PlanAfterScenario()|)
      && (result.Ok? ==> pe[|pe| - 1].videoPath == Some(result.value))
  {
    var q := PlanAfterScenario();
    var a := AssetStage(outputDir, scenario, env);
    AssetStageFollowsPlan(outputDir, scenario, env);
    FinishingFollowsPlan(outputDir, env);
    if a.1.Ok? && |a.1.value.0| == |a.1.value.1| {
      var f := Finishing(outputDir, env);
      assert Shapes(a.0 + f.0) == Shapes(a.0) + Shapes(f.0);
      assert q[..4 + |f.0|] == q[..4] + q[4..][..|f.0|];
    }
  }

  /** The image and audio stages emit a prefix of the first four entries
      of the plan's production part, all of them exactly when they
      succeed. */
  lemma AssetStageFollowsPlan(outputDir: string, scenario: Scenario, env: Services)
    ensures var ae, result := AssetStage(outputDir, scenario, env).0, AssetStage(outputDir, scenario, env).1;
      && 1 <= |ae| <= 4
      && Shapes(ae) == PlanAfterScenario()[..|ae|]
      && (result.Ok? <==> |ae| == 4)
  {
  }

  /** Assembly and background music emit a prefix of the last five
      entries of the plan, all of them exactly when they succeed. */
  lemma FinishingFollowsPlan(outputDir: string, env: Services)
    ensures var fe, result := Finishing(outputDir, env).0, Finishing(outputDir, env).1;
      && 1 <= |fe| <= 5
      && Shapes(fe) == PlanAfterScenario()[4..][..|fe|]
      && (result.Ok? <==> |fe| == 5)
      && (result.Ok? ==> fe[4].videoPath == Some(result.value))
  {
  }

  /** The percentages never drop and the steps never go back, up to the
      last event of a successful run and up to the error event of a
      failed one. */
  lemma RunMonotone(outputDir: string, input: string, pre: Option<Scenario>, env: Services)
    ensures var es := RunSpec(outputDir, input, pre, env).events;
      forall i, j :: 0 <= i < j < |es| && (RunSpec(outputDir, input, pre, env).result.Ok? || j < |es| - 1) ==>
        es[i].progress <= es[j].progress && StepRank(es[i].step) <= StepRank(es[j].step)
  {
    var t := RunSpec(outputDir, input, pre, env);
    var es := t.events;
    var p := Plan(pre.Some?);
    RunFollowsPlan(outputDir, input, pre, env);
    PlanOrdered(pre.Some?);
    forall i, j | 0 <= i < j < |es| && (t.result.Ok? || j < |es| - 1)
      ensures es[i].progress <= es[j].progress && StepRank(es[i].step) <= StepRank(es[j].step)
    {
      if t.result.Ok? {
        assert Shape(es[i]) == p[i] && Shape(es[j]) == p[j];
      } else {
        assert Shapes(es[..|es| - 1])[i] == p[i] && Shapes(es[..|es| - 1])[j] == p[j];
        assert es[..|es| - 1][i] == es[i] && es[..|es| - 1][j] == es[j];
      }
    }
  }

  /** Exactly one event of a run belongs to the `complete` step: its
      last. */
  lemma SingleTerminalEvent(outputDir: string, input: string, pre: Option<Scenario>, env: Services)
    ensures var es := RunSpec(outputDir, input, pre, env).events;
      && es != [] && es[|es| - 1].step == CompleteStep
      && forall i :: 0 <= i < |es| - 1 ==> es[i].step != CompleteStep
  {
    var t := RunSpec(outputDir, input, pre, env);
    var es := t.events;
    var p := Plan(pre.Some?);
    RunFollowsPlan(outputDir, input, pre, env);
    PlanOrdered(pre.Some?);
    forall i | 0 <= i < |es| - 1
      ensures es[i].step != CompleteStep
    {
      if t.result.Ok? {
        assert Shape(es[i]) == p[i];
      } else {
        assert Shapes(es[..|es| - 1])[i] == p[i];
        assert es[..|es| - 1][i] == es[i];
      }
    }
    if t.result.Ok? {
      assert Shape(es[|es| - 1]) == p[|p| - 1];
    }
  }

  /** The asset-count check never fires: a run whose images and audio are
      both produced goes on to assembly. */
  lemma ProductionReachesAssembly(outputDir: string, scenario: Scenario, env: Services)
    requires ImagesOutcome(outputDir, scenario.scenes, env.referenceError, env.imageErrors).Ok?
    requires AudioOutcome(outputDir, scenario.scenes, env.trials).Ok?
    ensures |Production(outputDir, scenario, env).0| >= 5
    ensures Production(outputDir, scenario, env).0[4] == Ev(AssemblyStep, InProgress, 80, "Assembling video...")
  {
    AssetsMatch(outputDir, scenario.scenes, env.referenceError, env.imageErrors, env.trials);
    assert |AssetStage(outputDir, scenario, env).0| == 4;
  }

  /** Empty scene slots do not count against anything: a pre-generated
      scenario whose slots are all filled produces one image per scene. */
  lemma FilledScenesAllDrawn(outputDir: string, scenes: seq<Option<Scene>>, imageErrors: nat -> Option<string>)
    requires forall i :: 0 <= i < |scenes| ==> scenes[i].Some?
    requires ImagesOutcome(outputDir, scenes, None, imageErrors).Ok?
    ensures var images := ImagesOutcome(outputDir, scenes, None, imageErrors).value;
      |images| == |scenes| && forall i :: 0 <= i < |scenes| ==> images[i] == ImagePath(outputDir, i)
  {
    var images := ImagesOutcome(outputDir, scenes, None, imageErrors).value;
    var idx := PresentFrom(scenes, 0);
    AllPresent(scenes, 0);
    PerSceneSpec(scenes, SceneImage(outputDir, imageErrors), 0);
    forall i | 0 <= i < |scenes|
      ensures images[i] == ImagePath(outputDir, i)
    {
      assert SceneImage(outputDir, imageErrors)(idx[i], scenes[idx[i]].value) == Ok(images[i]);
    }
  }

  lemma {:induction false} AllPresent(scenes: seq<Option<Scene>>, i: nat)
    requires i <= |scenes|
    requires forall j :: 0 <= j < |scenes| ==> scenes[j].Some?
    ensures |PresentFrom(scenes, i)| == |scenes| - i
    ensures forall k :: 0 <= k < |scenes| - i ==> PresentFrom(scenes, i)[k] == i + k
    decreases |scenes| - i
  {
    if i < |scenes| {
      AllPresent(scenes, i + 1);
      assert PresentFrom(scenes, i) == [i] + PresentFrom(scenes, i + 1);
    }
  }

  // ---------------------------------------------------------------------
  // The agent

  class VideoAgent {
    /** Whether a progress callback was supplied; without one nothing is
        reported. */
    const listening: bool
    var outputDir: string
    /** The events the progress callback has received. */
    var emitted: seq<ProgressEvent>

    /** The events a callback hears. */
    function Heard(events: seq<ProgressEvent>): seq<ProgressEvent> {
      if listening then events else []
    }

    constructor(listening: bool, outputDir: Option<string>)
      ensures this.listening == listening
      ensures this.outputDir == (if outputDir.Some? then outputDir.value else "")
      ensures emitted == []
    {
      this.listening := listening;
      this.outputDir := if outputDir.Some? then outputDir.value else "";
      emitted := [];
    }

    /** `emit`. */
    method Emit(e: ProgressEvent)
      modifies this
      ensures emitted == old(emitted) + Heard([e])
      ensures outputDir == old(outputDir)
    {
      if listening {
        emitted := emitted + [e];
      }
    }

    /** `init`: settles the output directory. */
    method Init(topic: string, timestamp: string, cwd: string)
      modifies this
      ensures outputDir == InitDir(old(outputDir), topic, timestamp, cwd)
      ensures emitted == old(emitted)
    {
      var sanitizedTopic := SanitizeTopic(topic);
      if outputDir == "" {
        outputDir := cwd + "/output/" + timestamp + "_" + sanitizedTopic;
      }
    }

    /** `generateImages`: one request per filled scene slot, in order;
        the first failure is passed on. */
    method GenerateImages(scenes: seq<Option<Scene>>, referenceError: Option<string>, imageErrors: nat -> Option<string>)
      returns (r: Outcome<seq<string>>)
      ensures r == ImagesOutcome(outputDir, scenes, referenceError, imageErrors)
    {
      if referenceError.Some? {
        return Fail(referenceError.value);
      }
      ghost var step := SceneImage(outputDir, imageErrors);
      var imagePaths: seq<string> := [];
      assert PerScene(scenes, step, 0) == Prepend(imagePaths, PerScene(scenes, step, 0)) by {
        var r := PerScene(scenes, step, 0);
        if r.Ok? {
          assert imagePaths + r.value == r.value;
        }
      }
      for i := 0 to |scenes|
        invariant PerScene(scenes, step, 0) == Prepend(imagePaths, PerScene(scenes, step, i))
      {
        if scenes[i].None? {
          continue;
        }
        if imageErrors(i).Some? {
          return Fail(imageErrors(i).value);
        }
        var imagePath := ImagePath(outputDir, i);
        PrependTwice(imagePaths, [imagePath], PerScene(scenes, step, i + 1));
        imagePaths := imagePaths + [imagePath];
      }
      assert imagePaths + [] == imagePaths;
      return Ok(imagePaths);
    }

    /** `generateAudio`: the verified speech of each filled scene slot, in
        order; the first failure is passed on. */
    method GenerateAudio(scenes: seq<Option<Scene>>, trials: nat -> nat -> AV.Trial)
      returns (r: Outcome<seq<string>>)
      ensures r == AudioOutcome(outputDir, scenes, trials)
    {
      ghost var step := SceneAudio(outputDir, trials);
      var audioPaths: seq<string> := [];
      assert PerScene(scenes, step, 0) == Prepend(audioPaths, PerScene(scenes, step, 0)) by {
        var r := PerScene(scenes, step, 0);
        if r.Ok? {
          assert audioPaths + r.value == r.value;
        }
      }
      for i := 0 to |scenes|
        invariant PerScene(scenes, step, 0) == Prepend(audioPaths, PerScene(scenes, step, i))
      {
        if scenes[i].None? {
          continue;
        }
        var scene := scenes[i].value;
        var result, attempts, sent := AV.GenerateAudioWithVerification(scene.text, i, outputDir, 3, trials(i));
        assert step(i, scene) == if result.Audio? then Ok(result.path) else Fail(result.message);
        if result.Thrown? {
          return Fail(result.message);
        }
        PrependTwice(audioPaths, [result.path], PerScene(scenes, step, i + 1));
        audioPaths := audioPaths + [result.path];
      }
      assert audioPaths + [] == audioPaths;
      return Ok(audioPaths);
    }

    /** `assembleVideoSimple`: pairs image `i` with audio `i` into a clip,
        then merges the clips. */
    method AssembleVideoSimple(imagePaths: seq<string>, audioPaths: seq<string>, renderError: Option<string>)
      returns (r: Outcome<string>, chunks: seq<(string, string, string)>)
      ensures chunks == Chunks(outputDir, imagePaths, audioPaths, |imagePaths|)
      ensures r == AssemblyOutcome(outputDir, renderError)
    {
      chunks := [];
      for i := 0 to |imagePaths|
        invariant chunks == Chunks(outputDir, imagePaths, audioPaths, i)
      {
        var img := imagePaths[i];
        if img == "" || i >= |audioPaths| || audioPaths[i] == "" {
          continue;
        }
        chunks := chunks + [(img, audioPaths[i], ChunkPath(outputDir, i))];
      }
      if renderError.Some? {
        return Fail(renderError.value), chunks;
      }
      return Ok(FinalPath(outputDir)), chunks;
    }

    /** Reports the error of a failed run and passes it on. */
    method Abort(message: string) returns (r: Outcome<string>)
      modifies this
      ensures emitted == old(emitted) + Heard([ErrorEvent(message)])
      ensures outputDir == old(outputDir)
      ensures r == Fail(message)
    {
      Emit(ErrorEvent(message));
      return Fail(message);
    }

    /** What the callback hears of two batches of events is what it hears
        of each, in order. */
    lemma HeardAppend(a: seq<ProgressEvent>, b: seq<ProgressEvent>)
      ensures Heard(a + b) == Heard(a) + Heard(b)
    {
    }

    /** Hearing `a` and then `b` after `s` is hearing `a + b` after `s`. */
    lemma HeardAfter(s: seq<ProgressEvent>, a: seq<ProgressEvent>, b: seq<ProgressEvent>)
      ensures s + Heard(a) + Heard(b) == s + Heard(a + b)
    {
      HeardAppend(a, b);
    }

    /** Emits `e` and records it in the ghost list `ev` of events emitted so
        far by the caller. */
    method Say(e: ProgressEvent, ghost start: seq<ProgressEvent>, ghost ev: seq<ProgressEvent>) returns (ghost ev': seq<ProgressEvent>)
      requires emitted == start + Heard(ev)
      modifies this
      ensures emitted == start + Heard(ev') && ev' == ev + [e]
      ensures outputDir == old(outputDir)
    {
      Emit(e);
      ev' := ev + [e];
      HeardAppend(ev, [e]);
    }

    /** The scenario stage of `run`: reports progress and yields the
        scenario, pre-generated or freshly generated. */
    method ObtainScenario(input: string, pre: Option<Scenario>, env: Services) returns (scenario: Outcome<Scenario>)
      modifies this
      ensures emitted == old(emitted) + Heard(ScenarioStage(input, pre, env).0)
      ensures scenario == ScenarioStage(input, pre, env).1
      ensures outputDir == old(outputDir)
    {
      ghost var start := emitted;
      ghost var ev: seq<ProgressEvent> := [];
      if pre.Some? {
        ev := Say(Ev(ScenarioStep, Completed, 25, "Using pre-generated scenario"), start, ev);
        return Ok(pre.value);
      }
      ev := Say(Ev(ScenarioStep, InProgress, 5, "Generating scenario..."), start, ev);
      scenario := GenerateScenario(input, env.page, env.scenarioReply);
      if scenario.Ok? {
        ev := Say(Ev(ScenarioStep, Completed, 25, "Scenario generated"), start, ev);
      }
    }

    /** Assembly and background music, once every asset exists. */
    method Finalize(imagePaths: seq<string>, audioPaths: seq<string>, env: Services) returns (result: Outcome<string>)
      requires |imagePaths| == |audioPaths|
      modifies this
      ensures emitted == old(emitted) + Heard(Finishing(outputDir, env).0)
      ensures result == Finishing(outputDir, env).1
      ensures outputDir == old(outputDir)
    {
      ghost var start := emitted;
      ghost var spec := Finishing(outputDir, env);
      ghost var ev: seq<ProgressEvent> := [];
      ev := Say(Ev(AssemblyStep, InProgress, 80, "Assembling video..."), start, ev);
      var videoPath, chunks := AssembleVideoSimple(imagePaths, audioPaths, env.renderError);
      if videoPath.Fail? {
        assert spec.0 == ev;
        return videoPath;
      }
      ev := Say(Ev(AssemblyStep, Completed, 90, "Video assembled"), start, ev);
      ev := Say(Ev(BgmStep, InProgress, 92, "Adding background music..."), start, ev);
      result := BackgroundMusic(outputDir, videoPath.value, env.bgmFound, env.mixError);
      if result.Fail? {
        assert spec.0 == ev;
        return;
      }
      ev := Say(Ev(BgmStep, Completed, 95, "Background music added"), start, ev);
      ev := Say(ProgressEvent(CompleteStep, Completed, 100, "Video generation complete", Some(result.value)), start, ev);
      assert spec.0 == ev;
    }

    /** The image and audio stages of `run`. */
    method GatherAssets(scenario: Scenario, env: Services) returns (assets: Outcome<(seq<string>, seq<string>)>)
      modifies this
      ensures emitted == old(emitted) + Heard(AssetStage(outputDir, scenario, env).0)
      ensures assets == AssetStage(outputDir, scenario, env).1
      ensures outputDir == old(outputDir)
    {
      ghost var start := emitted;
      ghost var spec := AssetStage(outputDir, scenario, env);
      ghost var ev: seq<ProgressEvent> := [];
      var n := NatToString(|scenario.scenes|);
      ev := Say(Ev(ImagesStep, InProgress, 30, "Generating images (0/" + n + ")..."), start, ev);
      var imagePaths := GenerateImages(scenario.scenes, env.referenceError, env.imageErrors);
      if imagePaths.Fail? {
        assert spec.0 == ev;
        return Fail(imagePaths.message);
      }
      ev := Say(Ev(ImagesStep, Completed, 50, "All images generated (" + NatToString(|imagePaths.value|) + ")"), start, ev);
      ev := Say(Ev(AudioStep, InProgress, 55, "Generating audio (0/" + n + ")..."), start, ev);
      var audioPaths := GenerateAudio(scenario.scenes, env.trials);
      if audioPaths.Fail? {
        assert spec.0 == ev;
        return Fail(audioPaths.message);
      }
      ev := Say(Ev(AudioStep, Completed, 75, "All audio generated (" + NatToString(|audioPaths.value|) + ")"), start, ev);
      assert spec.0 == ev;
      return Ok((imagePaths.value, audioPaths.value));
    }

    /** The run from the image stage on. */
    method Produce(scenario: Scenario, env: Services) returns (result: Outcome<string>)
      modifies this
      ensures emitted == old(emitted) + Heard(Production(outputDir, scenario, env).0)
      ensures result == Production(outputDir, scenario, env).1
      ensures outputDir == old(outputDir)
    {
      ghost var start := emitted;
      ghost var a := AssetStage(outputDir, scenario, env);
      var assets := GatherAssets(scenario, env);
      if assets.Fail? {
        return Fail(assets.message);
      }
      var (imagePaths, audioPaths) := assets.value;
      if |imagePaths| != |audioPaths| {
        return Fail(CountMismatch);
      }
      ghost var f := Finishing(outputDir, env);
      result := Finalize(imagePaths, audioPaths, env);
      HeardAfter(start, a.0, f.0);
    }

    /** `run`. */
    method Run(input: string, pre: Option<Scenario>, env: Services) returns (result: Outcome<string>)
      modifies this
      ensures var t := RunSpec(old(outputDir), input, pre, env);
        result == t.result && outputDir == t.outputDir && emitted == old(emitted) + Heard(t.events)
    {
      var topicName := TopicName(input, env.hostname);
      if topicName.Fail? {
        result := Abort(topicName.message);
        return;
      }
      Init(topicName.value, env.timestamp, env.cwd);
      ghost var start := emitted;
      ghost var t := RunSpec(old(outputDir), input, pre, env);
      ghost var stage := ScenarioStage(input, pre, env);
      assert t == AfterInit(outputDir, input, pre, env);
      var scenario := ObtainScenario(input, pre, env);
      if scenario.Fail? {
        result := Abort(scenario.message);
        HeardAppend(stage.0, [ErrorEvent(scenario.message)]);
        return;
      }
      ghost var production := Production(outputDir, scenario.value, env);
      AfterScenario(outputDir, input, pre, env);
      ghost var events := stage.0 + production.0;
      result := Produce(scenario.value, env);
      HeardAfter(start, stage.0, production.0);
      if result.Fail? {
        assert t.events == events + [ErrorEvent(result.message)];
        var _ := Abort(result.message);
        HeardAfter(start, events, [ErrorEvent(result.message)]);
      } else {
        assert t.events == events;
      }
    }
  }
}
