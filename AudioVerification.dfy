/** Narration synthesis with pronunciation checking
    (`VideoAgent.convertDifficultWords`, `convertToHiragana`,
    `transcribeAudio` and `generateAudioWithVerification`).

    Each attempt sends a differently prepared text to the speech service,
    transcribes the audio and compares the transcript with the ORIGINAL
    text.  The external services are given as one `Trial` per attempt
    number: what the reading normalizer, the hiragana conversion, the
    synthesis and the transcription returned on that attempt. */
module AudioVerification {
  import opened Text
  import opened Similarity

  /** The kanji-to-hiragana table of `convertDifficultWords`, in the order
      `Object.entries` enumerates it (insertion order). */
  const DifficultWords: seq<(string, string)> := [
    ("快挙", "かいきょ"),
    ("毎試合", "まいしあい"),
    ("稽古", "けいこ"),
    ("技術", "ぎじゅつ"),
    ("光り", "ひかり"),
    ("展開", "てんかい"),
    ("成し遂げ", "なしとげ"),
    ("評価", "ひょうか"),
    ("才能", "さいのう"),
    ("努力", "どりょく"),
    ("組み合わ", "くみあわ"),
    ("結果", "けっか"),
    ("活躍", "かつやく"),
    ("期待", "きたい"),
    ("挑戦", "ちょうせん"),
    ("宣言", "せんげん"),
    ("記録", "きろく"),
    ("達成", "たっせい"),
    ("圧倒的", "あっとうてき"),
    ("発揮", "はっき"),
    ("話題", "わだい"),
    ("近年", "きんねん"),
    ("稀有", "けう"),
    ("精神力", "せいしんりょく"),
    ("物語", "ものがた"),
    ("関係者", "かんけいしゃ")
  ]

  /** Every entry of `table` replaced everywhere, one entry after another
      in table order. */
  function ApplyTable(text: string, table: seq<(string, string)>): string
    decreases |table|
  {
    if table == [] then text
    else
      var (key, reading) := table[|table| - 1];
      ReplaceAll(ApplyTable(text, table[..|table| - 1]), key, reading)
  }

  predicate KeysNonEmpty(table: seq<(string, string)>) {
    forall i :: 0 <= i < |table| ==> table[i].0 != []
  }

  /** The table's keys are literal patterns: no regular-expression
      metacharacter occurs in them, so `new RegExp(kanji, 'g')` matches
      the key itself. */
  lemma DifficultWordsAreLiteral()
    ensures KeysNonEmpty(DifficultWords)
    ensures forall i, j :: 0 <= i < |DifficultWords| && 0 <= j < |DifficultWords[i].0| ==> !IsRegexMeta(DifficultWords[i].0[j])
  {
  }

  /** A text containing none of the keys comes back unchanged. */
  lemma {:induction false} ApplyTableAbsent(text: string, table: seq<(string, string)>)
    requires KeysNonEmpty(table)
    requires forall i :: 0 <= i < |table| ==> !Contains(text, table[i].0)
    ensures ApplyTable(text, table) == text
    decreases |table|
  {
    if table != [] {
      var init := table[..|table| - 1];
      ApplyTableAbsent(text, init);
      ReplaceAllAbsent(text, table[|table| - 1].0, table[|table| - 1].1);
    }
  }

  /** `convertDifficultWords`: rebinds the text once per table entry. */
  method ConvertDifficultWords(text: string) returns (converted: string)
    ensures converted == ApplyTable(text, DifficultWords)
  {
    converted := text;
    for k := 0 to |DifficultWords|
      invariant converted == ApplyTable(text, DifficultWords[..k])
    {
      var (kanji, hiragana) := DifficultWords[k];
      assert DifficultWords[..k + 1][..k] == DifficultWords[..k];
      converted := ReplaceAll(converted, kanji, hiragana);
    }
    assert DifficultWords[..|DifficultWords|] == DifficultWords;
  }

  /** What the external services returned on one attempt.  The reading
      normalizer consults the language model and updates its cache on every
      call, so what it makes of a text is given per attempt. */
  datatype Trial = Trial(
    normalize: string -> string,      // what `normalizeWithLog` returns for a text on this attempt
    hiragana: Outcome<string>,        // the chat completion of `convertToHiragana`
    synthesisError: Option<string>,   // the speech request's error, if it threw
    transcription: Outcome<string>)   // the transcription request

  datatype AudioResult = Audio(path: string) | Thrown(message: string)

  /** `convertToHiragana`: the model's text, or the input text when the call
      fails or returns nothing. */
  function ConvertToHiragana(text: string, reply: Outcome<string>): (r: string)
    ensures reply.Fail? ==> r == text
    ensures reply.Ok? && reply.value != "" ==> r == reply.value
  {
    if reply.Ok? && reply.value != "" then reply.value else text
  }

  /** `transcribeAudio`: the transcript, or `''` when the request fails. */
  function TranscribeAudio(reply: Outcome<string>): (r: string)
    ensures reply.Fail? ==> r == ""
    ensures reply.Ok? ==> r == reply.value
  {
    if reply.Ok? then reply.value else ""
  }

  /** `path.join(outputDir, \`scene_${sceneIndex}.mp3\`)`. */
  function AudioPath(outputDir: string, sceneIndex: nat): string {
    outputDir + "/scene_" + NatToString(sceneIndex) + ".mp3"
  }

  function GiveUpMessage(sceneIndex: nat): string {
    "音声生成に失敗しました（シーン " + NatToString(sceneIndex) + "）"
  }

  /** The text sent to the speech service on attempt `n` (counting from 1):
      normalized; difficult words replaced, then normalized; or the whole
      text in hiragana. */
  function AttemptText(text: string, n: nat, trial: Trial): string {
    if n == 1 then trial.normalize(text)
    else if n == 2 then trial.normalize(ApplyTable(text, DifficultWords))
    else ConvertToHiragana(text, trial.hiragana)
  }

  /** Whether the audio of a synthesized attempt passes the check: its
      transcript scored against the original text. */
  predicate Passes(text: string, trial: Trial) {
    IsAccurate(SimilarityTenths(text, TranscribeAudio(trial.transcription)))
  }

  /** The outcome of the retry loop once `done` attempts have been made and
      none has returned: the result and the number of attempts in all. */
  function Escalate(text: string, sceneIndex: nat, outputDir: string, maxRetries: int,
                    trials: nat -> Trial, done: nat): (AudioResult, nat)
    decreases if done < maxRetries then maxRetries - done else 0
  {
    if done >= maxRetries then (Thrown(GiveUpMessage(sceneIndex)), done)
    else
      var n := done + 1;
      var trial := trials(n);
      if trial.synthesisError.Some? then
        if n >= maxRetries then (Thrown(trial.synthesisError.value), n)
        else Escalate(text, sceneIndex, outputDir, maxRetries, trials, n)
      else if Passes(text, trial) || n >= maxRetries then (Audio(AudioPath(outputDir, sceneIndex)), n)
      else Escalate(text, sceneIndex, outputDir, maxRetries, trials, n)
  }

  /** The outcomes of the loop, starting after `done` attempts:
      - it never makes more than `maxRetries` attempts;
      - audio is returned only for a synthesized attempt, and before the
        last attempt only when that audio passed the check;
      - a synthesis error is thrown only on the last attempt;
      - the give-up error is thrown only when no attempt was left. */
  lemma {:induction false} EscalateOutcome(text: string, sceneIndex: nat, outputDir: string, maxRetries: int,
                                           trials: nat -> Trial, done: nat)
    ensures var (result, attempts) := Escalate(text, sceneIndex, outputDir, maxRetries, trials, done);
      && (done < maxRetries ==> done < attempts <= maxRetries)
      && (done >= maxRetries ==> attempts == done)
      && (result.Audio? ==>
            && result.path == AudioPath(outputDir, sceneIndex)
            && trials(attempts).synthesisError.None?
            && (attempts < maxRetries ==> Passes(text, trials(attempts))))
      && (result.Thrown? ==>
            || (done >= maxRetries && result.message == GiveUpMessage(sceneIndex))
            || (attempts == maxRetries && trials(attempts).synthesisError == Some(result.message)))
    decreases if done < maxRetries then maxRetries - done else 0
  {
    if done < maxRetries {
      var n := done + 1;
      if n < maxRetries {
        EscalateOutcome(text, sceneIndex, outputDir, maxRetries, trials, n);
      }
    }
  }

  /** No attempt is skipped: between `done` and the attempt the loop stops
      at, every attempt failed to synthesize or failed the check. */
  lemma {:induction false} EscalateNoEarlyStop(text: string, sceneIndex: nat, outputDir: string, maxRetries: int,
                                               trials: nat -> Trial, done: nat, n: nat)
    requires done < n < Escalate(text, sceneIndex, outputDir, maxRetries, trials, done).1
    ensures trials(n).synthesisError.Some? || !Passes(text, trials(n))
    decreases if done < maxRetries then maxRetries - done else 0
  {
    if done < maxRetries && done + 1 < n {
      EscalateNoEarlyStop(text, sceneIndex, outputDir, maxRetries, trials, done + 1, n);
    }
  }

  /** The first attempt that synthesizes and passes ends the loop with its audio. */
  lemma {:induction false} EscalateStopsAtFirstPass(text: string, sceneIndex: nat, outputDir: string, maxRetries: int,
                                                    trials: nat -> Trial, done: nat, n: nat)
    requires done < n <= maxRetries
    requires trials(n).synthesisError.None? && Passes(text, trials(n))
    requires forall k :: done < k < n ==> trials(k).synthesisError.Some? || !Passes(text, trials(k))
    ensures Escalate(text, sceneIndex, outputDir, maxRetries, trials, done) == (Audio(AudioPath(outputDir, sceneIndex)), n)
    decreases n - done
  {
    if done + 1 < n {
      EscalateStopsAtFirstPass(text, sceneIndex, outputDir, maxRetries, trials, done + 1, n);
    }
  }

  /** On the last attempt, synthesized audio is returned even when it fails the check. */
  lemma LastAttemptKeepsAudio(text: string, sceneIndex: nat, outputDir: string, maxRetries: int,
                              trials: nat -> Trial)
    requires maxRetries >= 1
    requires trials(maxRetries).synthesisError.None? && !Passes(text, trials(maxRetries))
    requires forall k :: 0 < k < maxRetries ==> trials(k).synthesisError.Some? || !Passes(text, trials(k))
    ensures Escalate(text, sceneIndex, outputDir, maxRetries, trials, 0) == (Audio(AudioPath(outputDir, sceneIndex)), maxRetries)
  {
    LastAttemptFrom(text, sceneIndex, outputDir, maxRetries, trials, 0);
  }

  lemma {:induction false} LastAttemptFrom(text: string, sceneIndex: nat, outputDir: string, maxRetries: int,
                                           trials: nat -> Trial, done: nat)
    requires done < maxRetries
    requires trials(maxRetries).synthesisError.None?
    requires forall k :: done < k < maxRetries ==> trials(k).synthesisError.Some? || !Passes(text, trials(k))
    ensures Escalate(text, sceneIndex, outputDir, maxRetries, trials, done) == (Audio(AudioPath(outputDir, sceneIndex)), maxRetries)
    decreases maxRetries - done
  {
    if done + 1 < maxRetries {
      LastAttemptFrom(text, sceneIndex, outputDir, maxRetries, trials, done + 1);
    }
  }

  /** A failed transcription scores 0 against any text with something left
      after stripping punctuation, so that attempt never passes. */
  lemma FailedTranscriptionNeverPasses(text: string, trial: Trial)
    requires trial.transcription.Fail?
    requires StripPunctuation(text) != []
    ensures !Passes(text, trial)
  {
    var a := StripPunctuation(text);
    var m := |a|;
    assert Lev(a, "", m, 0) == m;
    DivExact(m, 2 * m, 0, m);
  }

  lemma SentOneMore(sent: seq<string>, next: string, text: string, trials: nat -> Trial)
    requires forall k :: 0 <= k < |sent| ==> sent[k] == AttemptText(text, k + 1, trials(k + 1))
    requires next == AttemptText(text, |sent| + 1, trials(|sent| + 1))
    ensures forall k :: 0 <= k < |sent| + 1 ==> (sent + [next])[k] == AttemptText(text, k + 1, trials(k + 1))
  {
  }

  /** The reading adjustment made before attempt `n`, strengthened as the
      attempts go on. */
  method PrepareText(text: string, n: nat, trial: Trial) returns (normalizedText: string)
    ensures normalizedText == AttemptText(text, n, trial)
  {
    if n == 1 {
      normalizedText := trial.normalize(text);
    } else if n == 2 {
      var withDifficultWords := ConvertDifficultWords(text);
      normalizedText := trial.normalize(withDifficultWords);
    } else {
      normalizedText := ConvertToHiragana(text, trial.hiragana);
    }
  }

  /** `generateAudioWithVerification`.  Returns the result, the number of
      attempts made and the texts sent to the speech service in order. */
  method GenerateAudioWithVerification(text: string, sceneIndex: nat, outputDir: string, maxRetries: int,
                                       trials: nat -> Trial)
    returns (result: AudioResult, attempts: nat, sent: seq<string>)
    ensures (result, attempts) == Escalate(text, sceneIndex, outputDir, maxRetries, trials, 0)
    ensures |sent| == attempts
    ensures forall k :: 0 <= k < attempts ==> sent[k] == AttemptText(text, k + 1, trials(k + 1))
  {
    var attempt: nat := 0;
    sent := [];
    while attempt < maxRetries
      invariant Escalate(text, sceneIndex, outputDir, maxRetries, trials, 0)
             == Escalate(text, sceneIndex, outputDir, maxRetries, trials, attempt)
      invariant |sent| == attempt
      invariant forall k :: 0 <= k < attempt ==> sent[k] == AttemptText(text, k + 1, trials(k + 1))
      decreases maxRetries - attempt
    {
      ghost var done := attempt;
      attempt := attempt + 1;
      var trial := trials(attempt);
      assert Escalate(text, sceneIndex, outputDir, maxRetries, trials, done)
          == if trial.synthesisError.Some? then
               if attempt >= maxRetries then (Thrown(trial.synthesisError.value), attempt)
               else Escalate(text, sceneIndex, outputDir, maxRetries, trials, attempt)
             else if Passes(text, trial) || attempt >= maxRetries then (Audio(AudioPath(outputDir, sceneIndex)), attempt)
             else Escalate(text, sceneIndex, outputDir, maxRetries, trials, attempt);

      var normalizedText := PrepareText(text, attempt, trial);
      SentOneMore(sent, normalizedText, text, trials);
      sent := sent + [normalizedText];

      if trial.synthesisError.None? {
        var audioPath := AudioPath(outputDir, sceneIndex);
        var transcribed := TranscribeAudio(trial.transcription);
        var isAccurate, similarity := VerifyAudioAccuracy(text, transcribed);
        if isAccurate {
          return Audio(audioPath), attempt, sent;
        } else if attempt >= maxRetries {
          return Audio(audioPath), attempt, sent;
        }
      } else if attempt >= maxRetries {
        return Thrown(trial.synthesisError.value), attempt, sent;
      }
    }
    return Thrown(GiveUpMessage(sceneIndex)), attempt, sent;
  }
}
