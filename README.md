# Sumo news video pipeline — a verified model of its core

The system turns a sumo news article (a URL or pasted text) into a short
narrated vertical video:

1. A language model writes a scenario of scenes.
2. An image model draws each scene, with a prompt built from the scene's text.
3. A speech service reads each scene's narration. Sumo names, terms and
   numbers are first rewritten into their readings. The audio is then
   transcribed and compared with the text, and synthesis is retried with
   stronger reading aids until the transcript is close enough.
4. ffmpeg assembles the clips and mixes in background music.

A web front end drives the pipeline:

- a form validates the request and the stored API keys;
- an editor lets the user adjust the scenario;
- a tracker follows the job's progress over server-sent events, falling
  back to polling;
- a job manager keeps one record per job, in Redis or in JSON files, and
  deletes it an hour after completion.

This project models the core of that system in Dafny and proves what it
promises. Every external service is a parameter carrying the outcome it
produces. These services are the article fetch, the scenario, image and
hiragana models, speech synthesis, transcription, the official wrestler
lookup, ffmpeg, Redis, the file system and the clock.

| file | module | what it models |
|---|---|---|
| `Text.dfy` | `Text` | JavaScript string operations used by the source: `startsWith`, `includes`, literal global `replace`, `replace` of the first occurrence, `trim`, `\s` |
| `Dict.dfy` | `Dict` | plain objects used as dictionaries: insertion-ordered keys, `obj[k] = v`, spread merge |
| `Similarity.dfy` | `Similarity` | `calculateSimilarity`: punctuation stripping, the Levenshtein matrix (an `array2` filled by nested loops), the score in integer tenths, the 85 % threshold |
| `AudioVerification.dfy` | `AudioVerification` | `convertDifficultWords`, `convertToHiragana`, `transcribeAudio` and the retry loop `generateAudioWithVerification` |
| `Normalizer.dfy` | `SumoNormalizer` | `SumoTextNormalizer`: dictionary merge precedence, the length-descending stable sort, `escapeRegExp`, the wrestler cache, `addEntry`, `addWrestler`, `getDictionaryStats`, `loadCache` |
| `NumberReadings.dfy` | `NumberReadings` | `normalizeNumbers`: the chain of digit-and-unit rewrites |
| `ImagePrompt.dfy` | `ImagePrompt` | `ImagePromptBuilder`'s scene analysis: key phrase, concept, location, elements, characters, layout, location features, character description |
| `Pipeline.dfy` | `Pipeline` | `VideoAgent`: the output directory, the per-scene image and audio loops, pairing for assembly, background music, and the event sequence of `run` |
| `JobManager.dfy` | `JobStore` | `VideoJobManager` over one key-value map, with cleanup timers, plus the lifecycle the generate route drives |
| `Storage.dfy` | `ApiKeys` | `validateApiKey` |
| `ScenarioEditor.dfy` | `ScenarioEditor` | the scenario editor's updaters |
| `VideoForm.dfy` | `FormState` | the request form's `validate`, `handleSubmit`, `handleKeysUpdated` and `handleFileChange` |
| `ProgressTracker.dfy` | `ProgressView` | the progress tracker's step indicators and its event-source and polling state machine |

Modelling conventions:

- **Stateful code is imperative Dafny.** Code that changes state in the
  source is a class with the source's fields and `modifies` clauses:
  `VideoAgent`, `SumoTextNormalizer`, `VideoJobManager`, the form, and the
  tracker's effect-local variables. Loops stay loops: the similarity
  matrix, the retry loop, the per-scene loops, the normalizer's loops, the
  table loop of `convertDifficultWords` and `getAllJobs`.
- **Each method is proved against a specification function.** The
  properties the source promises are proved about that function.
- **Scores are integer tenths.** The similarity score
  `Math.round(((m-d)/m)*100*10)/10` is modelled as
  `floor((2000(m-d)+m)/(2m))`, which is 1000 when `m = 0`. The accept test
  is `tenths >= 850`.
- **Strings are sequences of characters.** Regular expressions in the
  source are written out as character predicates and scans.

## Model

| member | source | states |
|---|---|---|
| Text.ReplaceFirstPrefix | src/lib/video-job-manager.ts:222-223 | `replace(prefix, '')` on a string that starts with the prefix removes exactly that prefix |
| Text.BlankIffAllWhitespace | app/lib/storage.ts:68-70 | a string is blank (`!s.trim()`) exactly when every character is whitespace |
| Text.ReplaceAllAbsent | src/agents/video-agent.ts:402-406 | a global literal replace of a key that does not occur leaves the text unchanged |
| Text.ReplaceAllSelf | src/agents/sumo-text-normalizer.ts:262-265 | replacing a key by itself changes nothing |
| Text.ReplaceAllLength | src/agents/sumo-text-normalizer.ts:262-265 | each replaced occurrence changes the length by the difference of the reading's and the key's lengths |
| Text.TrimLength | src/agents/image-prompt-builder.ts:162-182 | trimming never lengthens a string |
| Text.JoinContains | src/agents/image-prompt-builder.ts:357-376 | a joined string contains each of its parts |
| Text.ContainsIffOccurs | src/agents/image-prompt-builder.ts:259-261 | `includes` holds exactly when the substring occurs at some position |
| Text.RemoveWhitespace | src/agents/image-prompt-builder.ts:163-181 | `replace(/\s/g, '')` leaves no whitespace and never lengthens the text |
| Text.Take | src/agents/video-agent.ts:623-625 | `substring(0, n)` is the prefix of at most `n` characters |
| Text.StartsWith | app/lib/storage.ts:74-78 | `startsWith`: the string begins with the prefix. ApiKeys.OpenAIValid and the other per-field lemmas use it |
| Text.Contains | src/agents/image-prompt-builder.ts:281 | `includes`. Text.ContainsIffOccurs proves it holds exactly when the substring occurs at some position |
| Text.ReplaceAll | src/agents/sumo-text-normalizer.ts:265-266 | a global replace of a literal key, scanning left to right and resuming after each match. Text.ReplaceAllAbsent, ReplaceAllSelf and ReplaceAllLength state its properties |
| Text.ReplaceFirst | src/lib/video-job-manager.ts:213 | `replace` with a string pattern rewrites only the first occurrence. Text.ReplaceFirstPrefix states its effect on a leading prefix |
| Text.Trim | app/lib/storage.ts:68 | `trim` drops leading and trailing whitespace. Text.TrimLength proves it never lengthens a string |
| Text.IsBlank | app/lib/storage.ts:68 | a string that is empty or trims to nothing. Text.BlankIffAllWhitespace proves it means every character is whitespace |
| Text.NatToString | src/agents/video-agent.ts:661 | a count written into a template string is a non-empty run of decimal digits |
| Text.Join | src/agents/image-prompt-builder.ts:311 | `Array.join` with a separator. Text.JoinContains proves the result contains each part |
| Dict.KeysOf | src/agents/sumo-text-normalizer.ts:257 | `Object.keys` of an object none of whose keys is an array index: the keys in insertion order, one per entry |
| Dict.Get | src/agents/sumo-text-normalizer.ts:261 | a lookup finds a value exactly when the key is present |
| Dict.HasKeyIffListed | src/agents/sumo-text-normalizer.ts:257-261 | a key is present exactly when `Object.keys` lists it |
| Dict.PutGet | src/agents/sumo-text-normalizer.ts:354-357 | after `obj[k] = v`, `k` reads `v` and every other key reads what it read before |
| Dict.PutKeys | src/agents/sumo-text-normalizer.ts:347-357 | writing a key keeps the key order, and a new key is appended |
| Dict.PutDistinct | src/agents/sumo-text-normalizer.ts:347-357 | writing keeps keys distinct and grows the object by one exactly for a new key |
| Dict.MergeGet | src/agents/sumo-text-normalizer.ts:248-254 | in `{...a, ...b}` the later source wins on a shared key, and other keys keep their value |
| Dict.MergeKeys | src/agents/sumo-text-normalizer.ts:248-254 | the merged keys are the first object's keys, then the new keys of the second in their order |
| Dict.MergeDistinct | src/agents/sumo-text-normalizer.ts:248-254 | a merge keeps keys distinct |
| Dict.GetAppend | src/agents/sumo-text-normalizer.ts:218-223 | appending a fresh entry adds exactly that key, with that value |
| Dict.HasKey | src/agents/sumo-text-normalizer.ts:206 | a key is present when some entry holds it. Dict.Get and Dict.HasKeyIffListed tie it to lookup and to `Object.keys` |
| Dict.Put | src/agents/sumo-text-normalizer.ts:355 | `obj[k] = v`: an existing key keeps its place and a new one goes last. Dict.PutGet, PutKeys and PutDistinct state its effect |
| Dict.Merge | src/agents/sumo-text-normalizer.ts:248-254 | object spread: the second object's entries written over the first's, in order. Dict.MergeGet, MergeKeys and MergeDistinct state its effect |
| Similarity.StripPunctuation | src/agents/video-agent.ts:324 | the stripped text holds no `、`, `。` or whitespace and is no longer than the input |
| Similarity.StripIdempotent | src/agents/video-agent.ts:324 | stripping twice is stripping once |
| Similarity.StripUnchanged | src/agents/video-agent.ts:324 | a text without ignored characters is left unchanged |
| Similarity.LevSymmetric | src/agents/video-agent.ts:331-345 | the edit distance of every prefix pair is symmetric |
| Similarity.LevAtMostLonger | src/agents/video-agent.ts:331-345 | the edit distance never exceeds the longer length |
| Similarity.LevSelf | src/agents/video-agent.ts:331-345 | a text is at distance 0 from itself |
| Similarity.LevZero | src/agents/video-agent.ts:331-345 | distance 0 means equal lengths and equal prefixes |
| Similarity.EditDistanceZeroIff | src/agents/video-agent.ts:331-345 | the edit distance is 0 exactly when the texts are equal |
| Similarity.ScoreTenths | src/agents/video-agent.ts:347-351 | the rounded score is at most 100.0 %, and a distance of 0 scores exactly 100.0 %, the empty case included |
| Similarity.SimilarityTenths | src/agents/video-agent.ts:322-351 | the similarity always lies between 0 and 100.0 % |
| Similarity.SimilaritySymmetric | src/agents/video-agent.ts:322-351 | swapping the two texts does not change the score |
| Similarity.SimilarityOfEqualText | src/agents/video-agent.ts:324 | texts equal after stripping score 100.0 % and are accurate, two empty texts included |
| Similarity.SimilarityIgnoresPunctuation | src/agents/video-agent.ts:324 | stripping an argument beforehand does not change the score |
| Similarity.FillRow | src/agents/video-agent.ts:337-344 | one row of the matrix is filled with the edit distances of that row's prefixes, and no other row changes |
| Similarity.LevenshteinDistance | src/agents/video-agent.ts:327-345 | the nested loops leave the edit distance of the two texts in the last cell |
| Similarity.CalculateSimilarity | src/agents/video-agent.ts:322-351 | the method computes the specified score of the stripped texts |
| Similarity.VerifyAudioAccuracy | src/agents/video-agent.ts:356-367 | accurate exactly when the similarity of the expected text and the transcript is at least 85.0 % |
| Similarity.Lev | src/agents/video-agent.ts:331-345 | cell `[i][j]` of the matrix: `j` in row 0, `i` in column 0, and `LevCell` inside. LevSymmetric, LevAtMostLonger, LevSelf and LevZero state its properties |
| Similarity.LevCell | src/agents/video-agent.ts:338-343 | an inner cell is the cheapest of a deletion, an insertion and a substitution, the last free when the characters agree |
| Similarity.EditDistance | src/agents/video-agent.ts:347 | the last cell of the matrix. Similarity.EditDistanceZeroIff proves it is 0 exactly for equal texts |
| AudioVerification.DifficultWordsAreLiteral | src/agents/video-agent.ts:373-400 | no key of the difficult-word table is empty or holds a regular-expression metacharacter, so each `new RegExp(kanji, 'g')` matches the key literally |
| AudioVerification.ApplyTableAbsent | src/agents/video-agent.ts:402-406 | a text containing none of the table's keys is returned unchanged |
| AudioVerification.ConvertDifficultWords | src/agents/video-agent.ts:372-406 | the loop replaces every occurrence of each key, one entry after another in table order |
| AudioVerification.ConvertToHiragana | src/agents/video-agent.ts:412-438 | the model's non-empty answer, or the input text when the call fails |
| AudioVerification.TranscribeAudio | src/agents/video-agent.ts:294-320 | the transcript, or the empty string when the request fails |
| AudioVerification.EscalateOutcome | src/agents/video-agent.ts:440-519 | at most `maxRetries` attempts. Audio only from a synthesized attempt, and before the last attempt only an accurate one. A synthesis error only on the last attempt. The give-up error only when no attempt is made (`maxRetries <= 0`) |
| AudioVerification.EscalateNoEarlyStop | src/agents/video-agent.ts:488-519 | every attempt before the one the loop stops at failed to synthesize or was inaccurate |
| AudioVerification.EscalateStopsAtFirstPass | src/agents/video-agent.ts:488-499 | the loop returns the `scene_<index>.mp3` path at the first accurate attempt |
| AudioVerification.LastAttemptKeepsAudio | src/agents/video-agent.ts:500-505 | an inaccurate last attempt still returns its audio |
| AudioVerification.FailedTranscriptionNeverPasses | src/agents/video-agent.ts:294-320 | a failed transcription (an empty transcript) is never accurate for a text that is not blank after stripping |
| AudioVerification.PrepareText | src/agents/video-agent.ts:446-460 | attempt 1 sends that attempt's normalizer reading of the text, attempt 2 that of the text with the difficult words replaced, later attempts the hiragana conversion |
| AudioVerification.GenerateAudioWithVerification | src/agents/video-agent.ts:440-519 | the loop's result and attempt count are those of the specification `Escalate`, and attempt `k` sends the text `PrepareText` specifies for that attempt's services |
| AudioVerification.ApplyTable | src/agents/video-agent.ts:402-406 | every table entry replaced everywhere, one entry after another in table order. ApplyTableAbsent and ConvertDifficultWords state its effect |
| AudioVerification.AttemptText | src/agents/video-agent.ts:446-460 | the text sent on attempt `n`: that attempt's normalizer reading of the text, or of the text with the difficult words replaced, or the hiragana conversion. PrepareText computes it |
| AudioVerification.Passes | src/agents/video-agent.ts:494-497 | an attempt passes when its transcript scores at least 85.0 % against the original text. FailedTranscriptionNeverPasses covers a failed transcription |
| AudioVerification.Escalate | src/agents/video-agent.ts:440-519 | the loop's result and attempt count after `done` attempts. EscalateOutcome, EscalateNoEarlyStop, EscalateStopsAtFirstPass and LastAttemptKeepsAudio state its properties |
| AudioVerification.GiveUpMessage | src/agents/video-agent.ts:519 | the error thrown when no attempt is left names the scene index |
| SumoNormalizer.EscapeRegExp | src/agents/sumo-text-normalizer.ts:325-327 | escaping never shortens a key |
| SumoNormalizer.EscapeIsLiteral | src/agents/sumo-text-normalizer.ts:325-327 | an escaped key is a literal pattern that matches exactly the key itself |
| SumoNormalizer.SortPermutes | src/agents/sumo-text-normalizer.ts:257 | sorting only reorders the keys |
| SumoNormalizer.SortIsLongestFirst | src/agents/sumo-text-normalizer.ts:257 | the sorted keys run from longest to shortest |
| SumoNormalizer.SortIsStable | src/agents/sumo-text-normalizer.ts:257 | for each length, keys of that length keep their insertion order |
| SumoNormalizer.SubstitutePair | src/agents/sumo-text-normalizer.ts:260-267 | substituting a key list is substituting its keys one after another |
| SumoNormalizer.AllEntriesPrecedence | src/agents/sumo-text-normalizer.ts:248-254 | a key's reading comes from the latest source holding it: model readings, then wrestler cache, then organizations, then techniques, then terms |
| SumoNormalizer.LongestKeyWins | src/agents/sumo-text-normalizer.ts:257-267 | with `大の里` and `里` both keyed, the whole name is read, whichever was added first |
| SumoNormalizer.NameReplaced | src/agents/sumo-text-normalizer.ts:262-265 | replacing `大の里` in `大の里が勝った` reads the name |
| SumoNormalizer.NoShortKeyLeft | src/agents/sumo-text-normalizer.ts:262-265 | once the name is read, the shorter key `里` no longer occurs |
| SumoNormalizer.ShortKeyReplaced | src/agents/sumo-text-normalizer.ts:262-265 | replacing `里` first turns the name into `大のさと` |
| SumoNormalizer.LongKeyGone | src/agents/sumo-text-normalizer.ts:262-265 | after that, the full name's key no longer matches |
| SumoNormalizer.ShortestFirstGarbles | src/agents/sumo-text-normalizer.ts:257-267 | the same entries applied in insertion order would garble the name, which is why the sort is needed |
| SumoNormalizer.ResolveGet | src/agents/sumo-text-normalizer.ts:210-229 | each name the model returned gets the non-empty cached reading, else the official one, else the model's. The cache then holds that reading. Other names are absent from the readings and keep their cache entries |
| SumoNormalizer.ResolveKeys | src/agents/sumo-text-normalizer.ts:210-229 | the readings list the model's names in the model's order |
| SumoNormalizer.ResolveDistinct | src/agents/sumo-text-normalizer.ts:210-229 | the readings and the cache keep distinct keys |
| SumoNormalizer.StatsAfterAddWrestler | src/agents/sumo-text-normalizer.ts:354-372 | adding a wrestler grows the total and the cached count by one for a new name, and by nothing for a known one |
| SumoNormalizer.LoadCache | src/agents/sumo-text-normalizer.ts:57-70 | a missing or unreadable cache file gives an empty cache |
| SumoNormalizer.SumoTextNormalizer.constructor | src/agents/sumo-text-normalizer.ts:30-51 | the dictionary file's contents, or three empty dictionaries when it cannot be read; the cache comes from `loadCache` |
| SumoNormalizer.SumoTextNormalizer.ExtractWrestlerReadings | src/agents/sumo-text-normalizer.ts:151-235 | the loop returns the resolved readings and leaves the resolved cache. Any failure gives `{}` and leaves the cache alone. The static dictionaries do not change |
| SumoNormalizer.SumoTextNormalizer.Normalize | src/agents/sumo-text-normalizer.ts:241-267 | the merged entries are applied longest key first, entries with an empty reading are skipped, and then the number readings are applied |
| SumoNormalizer.SumoTextNormalizer.AddEntry | src/agents/sumo-text-normalizer.ts:347-349 | only the chosen category changes |
| SumoNormalizer.SumoTextNormalizer.AddWrestler | src/agents/sumo-text-normalizer.ts:354-357 | only the cache entry is set |
| SumoNormalizer.SumoTextNormalizer.GetDictionaryStats | src/agents/sumo-text-normalizer.ts:362-372 | the total is the sum of the four counts |
| SumoNormalizer.InsertByLength | src/agents/sumo-text-normalizer.ts:257 | one step of the stable length-descending sort: the key goes before the first key that is not longer |
| SumoNormalizer.SortByLength | src/agents/sumo-text-normalizer.ts:257 | `sort((a, b) => b.length - a.length)`, which is stable. SortPermutes, SortIsLongestFirst and SortIsStable prove it reorders the keys, longest first, keeping insertion order among equal lengths |
| SumoNormalizer.SubstituteOne | src/agents/sumo-text-normalizer.ts:261-266 | one pass of the loop: a key with a non-empty reading is replaced everywhere, and one with an empty reading is skipped |
| SumoNormalizer.Substitute | src/agents/sumo-text-normalizer.ts:260-267 | the loop over the keys in the given order. SumoNormalizer.SubstitutePair proves it is one pass per key, in order |
| SumoNormalizer.AllEntries | src/agents/sumo-text-normalizer.ts:248-254 | the merged object. SumoNormalizer.AllEntriesPrecedence proves which source wins a key |
| SumoNormalizer.NormalizeWith | src/agents/sumo-text-normalizer.ts:257-270 | the substitution, longest key first, then the number readings. LongestKeyWins and NormalizeNotIdempotent are about it |
| SumoNormalizer.ChosenReading | src/agents/sumo-text-normalizer.ts:206-225 | the reading settled for one name: the non-empty cached one, else the official one when found, else the model's |
| SumoNormalizer.Resolve | src/agents/sumo-text-normalizer.ts:204-226 | the loop over the model's entries, giving the readings and the cache. ResolveGet, ResolveKeys and ResolveDistinct state its effect |
| SumoNormalizer.Extracted | src/agents/sumo-text-normalizer.ts:197-235 | the readings and cache of `extractWrestlerReadings`: the resolved ones for a parsed reply, and `{}` with the cache unchanged on any failure |
| SumoNormalizer.StatsOf | src/agents/sumo-text-normalizer.ts:362-372 | the four dictionary sizes and their sum. SumoNormalizer.StatsAfterAddWrestler states how adding a wrestler changes them |
| SumoNormalizer.FirstPassOfExample | src/agents/sumo-text-normalizer.ts:257-267 | with `{"大関": "おおぜき", "王": "大"}`, one substitution turns `王関` into `大関` |
| SumoNormalizer.SecondPassOfExample | src/agents/sumo-text-normalizer.ts:257-267 | a second substitution turns that `大関` into `おおぜき` |
| SumoNormalizer.NormalizeNotIdempotent | src/agents/sumo-text-normalizer.ts:241-273 | normalizing twice is not normalizing once, even with fixed entries: `王関` becomes `大関` and then `おおぜき` |
| NumberReadings.DigitRunStart | src/agents/sumo-text-normalizer.ts:278-320 | the start of the ASCII digit run before a position lies at or before it |
| NumberReadings.DigitRunMaximal | src/agents/sumo-text-normalizer.ts:278-320 | `(\d+)` captures a run of digits that cannot be extended to the left |
| NumberReadings.AllowedNeedsDigit | src/agents/sumo-text-normalizer.ts:278-320 | every rule rewrites a unit only right after an ASCII digit |
| NumberReadings.RewriteNoDigit | src/agents/sumo-text-normalizer.ts:278-320 | without a digit, one rewrite pass copies the text |
| NumberReadings.ApplyRulesNoDigit | src/agents/sumo-text-normalizer.ts:278-320 | without a digit, every remaining pass copies the text |
| NumberReadings.NormalizeNumbersNoDigit | src/agents/sumo-text-normalizer.ts:278-320 | a text without ASCII digits comes back unchanged |
| NumberReadings.RewriteKeepsDigits | src/agents/sumo-text-normalizer.ts:278-320 | one pass keeps the text's digits, in order |
| NumberReadings.ApplyRulesKeepsDigits | src/agents/sumo-text-normalizer.ts:278-320 | the remaining passes keep the text's digits, in order |
| NumberReadings.NormalizeNumbersKeepsDigits | src/agents/sumo-text-normalizer.ts:278-320 | the captured numbers survive: the digits of the result are those of the input, in order |
| NumberReadings.RewriteSkipsUnguarded | src/agents/sumo-text-normalizer.ts:278-320 | a unit whose pattern does not match before it is left alone |
| NumberReadings.ApplyRulesQuiet | src/agents/sumo-text-normalizer.ts:278-320 | passes whose units cannot start right after a digit change nothing |
| NumberReadings.WinLossExample | src/agents/sumo-text-normalizer.ts:282-283 | `12勝5敗` is read `12しょう5はい` |
| NumberReadings.WinPass | src/agents/sumo-text-normalizer.ts:282 | the win rule rewrites only the `勝` after `12` |
| NumberReadings.LossPass | src/agents/sumo-text-normalizer.ts:283 | the loss rule then rewrites the `敗` after `5` |
| NumberReadings.AgeExample | src/agents/sumo-text-normalizer.ts:317 | `（21＝安治川）` is read `（21さい、安治川）` |
| NumberReadings.AgePass | src/agents/sumo-text-normalizer.ts:317 | the parenthesised-number rule turns `＝` after `（21` into `さい、` |
| NumberReadings.DayPassExamples | src/agents/sumo-text-normalizer.ts:289 | the day pattern rewrites `45日` and `30日` but not `100日` or `40日` |
| NumberReadings.DayHit | src/agents/sumo-text-normalizer.ts:289 | a day number 1–31 directly before `日` is rewritten |
| NumberReadings.DayBlocked | src/agents/sumo-text-normalizer.ts:289 | `日` after a digit run ending in `0` that is not a day of the month stays |
| NumberReadings.Allowed | src/agents/sumo-text-normalizer.ts:282-317 | whether the rule's pattern matches ending at the unit: a digit before it, a day 1–31 before `日`, a month 1–12 before `月`, or a digit run right after `（` before `＝`. AllowedNeedsDigit proves every guard needs a digit just before the unit |
| NumberReadings.RewriteFrom | src/agents/sumo-text-normalizer.ts:282-317 | one `replace(/…/g, '$1…')` pass: each unit whose pattern matches becomes its reading, and the digits stay. RewriteNoDigit, RewriteKeepsDigits and RewriteSkipsUnguarded state its properties |
| NumberReadings.ApplyRulesFrom | src/agents/sumo-text-normalizer.ts:279-319 | the passes from one rule on, in the source's order. ApplyRulesNoDigit, ApplyRulesKeepsDigits and ApplyRulesQuiet state its properties |
| NumberReadings.NormalizeNumbers | src/agents/sumo-text-normalizer.ts:278-320 | `normalizeNumbers`: all sixteen passes. NormalizeNumbersNoDigit and NormalizeNumbersKeepsDigits state its properties |
| ImagePrompt.FirstSentence | src/agents/image-prompt-builder.ts:170 | the text up to, not including, its first `。`, `！` or `？` |
| ImagePrompt.ExtractKeyPhrase | src/agents/image-prompt-builder.ts:162-182 | the key phrase is never longer than 20 characters |
| ImagePrompt.ShortSceneIsItsOwnKeyPhrase | src/agents/image-prompt-builder.ts:164-168 | a scene of at most 20 characters once its whitespace is removed is its own key phrase, without that whitespace |
| ImagePrompt.LongSceneIsCut | src/agents/image-prompt-builder.ts:176-181 | when neither the text nor its first sentence is short, the phrase is the first 15 whitespace-free characters and `…` |
| ImagePrompt.JsRem | src/agents/image-prompt-builder.ts:155 | JavaScript's `%` takes the dividend's sign and agrees with the mathematical remainder for a non-negative dividend |
| ImagePrompt.ExtractConcept | src/agents/image-prompt-builder.ts:115-156 | the concept is always one of the five |
| ImagePrompt.ConceptCycle | src/agents/image-prompt-builder.ts:155 | two non-negative indices get the same concept exactly when they agree modulo 5 |
| ImagePrompt.NegativeIndexConcept | src/agents/image-prompt-builder.ts:155 | a negative index falls back to the first concept |
| ImagePrompt.FirstMatchFrom | src/agents/image-prompt-builder.ts:259-261 | the first table entry whose keyword the text contains, with no earlier entry matching |
| ImagePrompt.ExtractLocation | src/agents/image-prompt-builder.ts:246-263 | the location of the first matching keyword, and `相撲の会場` exactly when no keyword matches |
| ImagePrompt.Matching | src/agents/image-prompt-builder.ts:271-284 | one value per keyword the text contains, in table order, and none for a keyword it does not contain |
| ImagePrompt.ExtractElements | src/agents/image-prompt-builder.ts:268-292 | the elements of the matching keywords in table order, the default element alone exactly when none match, and never empty |
| ImagePrompt.RunEnd | src/agents/image-prompt-builder.ts:220-224 | the end of the longest run of characters that are not `[\s、。！？]` |
| ImagePrompt.RankMentions | src/agents/image-prompt-builder.ts:220-224 | each mention is the rank followed by characters that are not stops |
| ImagePrompt.AllRankMentions | src/agents/image-prompt-builder.ts:216-226 | each mention starts with one of the ranks |
| ImagePrompt.KanjiRun | src/agents/image-prompt-builder.ts:229 | the length of the run of kanji at a position, up to the cap |
| ImagePrompt.NameMentions | src/agents/image-prompt-builder.ts:229-231 | each kanji name has three or four kanji |
| ImagePrompt.Dedup | src/agents/image-prompt-builder.ts:240 | `Array.from(new Set(...))` keeps each value once and loses none |
| ImagePrompt.Prefix | src/agents/image-prompt-builder.ts:233-240 | `slice(0, n)` is a prefix of at most `n` entries |
| ImagePrompt.ExtractCharacters | src/agents/image-prompt-builder.ts:212-241 | at most three distinct characters, each a rank mention or one of the first two kanji names |
| ImagePrompt.CharacterSources | src/agents/image-prompt-builder.ts:212-241 | every character drawn starts with a rank or is a name of three or four kanji |
| ImagePrompt.RankMentionShape | src/agents/image-prompt-builder.ts:216-226 | a rank mention starts with one of the ranks |
| ImagePrompt.NameShape | src/agents/image-prompt-builder.ts:229-231 | a kept name has three or four kanji |
| ImagePrompt.AnalyzeScene | src/agents/image-prompt-builder.ts:187-207 | the analysis always has one to three characters (default `力士`), a location and elements |
| ImagePrompt.AnalysisParts | src/agents/image-prompt-builder.ts:187-207 | the analysis takes the concept by the scene index and the location and characters by the text |
| ImagePrompt.CharacterLayout | src/agents/image-prompt-builder.ts:297-313 | every layout starts with the character count |
| ImagePrompt.LayoutLabels | src/agents/image-prompt-builder.ts:297-313 | two characters are labelled by name, each in its own brackets, and any larger count labels every character |
| ImagePrompt.BracketedPair | src/agents/image-prompt-builder.ts:303-306 | both names show inside the pair label |
| ImagePrompt.GetLocationFeatures | src/agents/image-prompt-builder.ts:329-339 | an unknown location falls back to the default features, and the result is never empty |
| ImagePrompt.FeaturesOfExtractedLocation | src/agents/image-prompt-builder.ts:246-339 | every location `extractLocation` can name has its own features, and only the default venue falls back to the default features |
| ImagePrompt.FeatureTable | src/agents/image-prompt-builder.ts:329-339 | the features table is keyed by the locations, in the same order, with distinct keys and no default values |
| ImagePrompt.DefaultLocationUnkeyed | src/agents/image-prompt-builder.ts:329-339 | the default venue has no entry of its own |
| ImagePrompt.FeatureAt | src/agents/image-prompt-builder.ts:329-339 | a key not held by an earlier pair looks up its own pair's value |
| ImagePrompt.DescriptionLines | src/agents/image-prompt-builder.ts:366-375 | one line per character, by position |
| ImagePrompt.DescriptionMentions | src/agents/image-prompt-builder.ts:357-376 | a lone character heads its description, which carries the action and the emotion, and a group description has a line for every character |
| ImagePrompt.SoloMentions | src/agents/image-prompt-builder.ts:358-364 | the single-character description contains the name, the action and the emotion |
| ImagePrompt.GroupMentions | src/agents/image-prompt-builder.ts:366-375 | the group description contains every character's line |
| ImagePrompt.MatchPositions | src/agents/image-prompt-builder.ts:280-284 | the table positions whose keyword the text contains: each holds a contained keyword, they increase, and none is missing |
| ImagePrompt.ElementsNotDefault | src/agents/image-prompt-builder.ts:271-288 | no keyword's element is the default element |
| ImagePrompt.LayoutBody | src/agents/image-prompt-builder.ts:298-312 | the layout after its count line's head, by the number of characters. ImagePrompt.LayoutLabels states what it labels |
| ImagePrompt.CharacterDescription | src/agents/image-prompt-builder.ts:357-376 | `generateCharacterDescription`. ImagePrompt.DescriptionMentions, SoloMentions and GroupMentions state what it contains |
| Pipeline.ReplaceUnsafe | src/agents/video-agent.ts:123-124 | every character outside the allowed classes becomes `_`, and the length is kept |
| Pipeline.SanitizeTopic | src/agents/video-agent.ts:123-125 | the sanitized topic has at most 30 characters, all allowed characters or `_` |
| Pipeline.SanitizeStable | src/agents/video-agent.ts:123-125 | sanitizing is idempotent, and a short topic of allowed characters is kept |
| Pipeline.InitDir | src/agents/video-agent.ts:115-138 | a preset directory is kept; otherwise the new directory ends with `_<sanitized topic>` |
| Pipeline.TopicName | src/agents/video-agent.ts:623-625 | a text input's topic is its first 50 characters, and a bad URL's error is passed on |
| Pipeline.TopicOfWwwHost | src/agents/video-agent.ts:623-625 | a host starting with `www.` loses exactly that prefix |
| Pipeline.FetchContent | src/agents/video-agent.ts:141-156 | text passes through unchanged, and a failed fetch becomes the fixed error |
| Pipeline.GenerateScenario | src/agents/video-agent.ts:158-185 | a fetch failure is passed on, otherwise the model's answer decides |
| Pipeline.PresentFrom | src/agents/video-agent.ts:196-198 | the loop visits only filled scene slots |
| Pipeline.PresentFromOrdered | src/agents/video-agent.ts:196-198 | the filled slots are visited in increasing index order |
| Pipeline.PresentFromComplete | src/agents/video-agent.ts:196-198 | no filled slot is skipped |
| Pipeline.PerSceneSpec | src/agents/video-agent.ts:522-536 | a per-scene loop yields one result per filled slot, in order, or the first failing slot's error |
| Pipeline.PerSceneOk | src/agents/video-agent.ts:196-262 | on success each path is what its filled slot's step produced, one per slot in order |
| Pipeline.PerSceneFail | src/agents/video-agent.ts:196-262 | on failure the error is a filled slot's, and every slot before it succeeded |
| Pipeline.AssetsMatch | src/agents/video-agent.ts:187-536 | on success image `k` and audio `k` come from the same scene |
| Pipeline.Chunks | src/agents/video-agent.ts:542-559 | each clip pairs image `i` with audio `i` into `chunk_i.mp4` |
| Pipeline.ChunksPairAll | src/agents/video-agent.ts:542-559 | with as many non-empty audio files as images, every image gets its clip, in order |
| Pipeline.BackgroundMusic | src/agents/video-agent.ts:576-618 | without a music file the video is returned unchanged; otherwise the mixed video, or ffmpeg's error |
| Pipeline.PlanOrdered | src/agents/video-agent.ts:631-687 | along the planned events the step never goes back and the percentage never drops |
| Pipeline.RunFollowsPlan | src/agents/video-agent.ts:620-694 | a successful run emits all planned events and ends with the video; a failed run emits a prefix of the plan and then one error event |
| Pipeline.ProductionFollowsPlan | src/agents/video-agent.ts:656-687 | from the image stage on, the events are a prefix of the plan, and complete exactly on success |
| Pipeline.AssetStageFollowsPlan | src/agents/video-agent.ts:658-666 | the image and audio stages emit a prefix of their four planned events, all four exactly on success |
| Pipeline.FinishingFollowsPlan | src/agents/video-agent.ts:672-687 | assembly and music emit a prefix of their five planned events, all five exactly on success, the last carrying the video |
| Pipeline.RunMonotone | src/agents/video-agent.ts:631-687 | up to the terminal event, the percentages never drop and the steps never go back |
| Pipeline.SingleTerminalEvent | src/agents/video-agent.ts:685-692 | exactly one event of a run belongs to `complete`, and it is the last |
| Pipeline.ProductionReachesAssembly | src/agents/video-agent.ts:666-672 | when images and audio succeed, the count check passes and assembly starts |
| Pipeline.FilledScenesAllDrawn | src/agents/video-agent.ts:196-262 | with no empty slots, image `i` is scene `i`'s image |
| Pipeline.AllPresent | src/agents/video-agent.ts:196-198 | with every slot filled, the loop visits every index in order |
| Pipeline.VideoAgent.HeardAppend | src/agents/video-agent.ts:99-109 | what the callback hears of two batches is what it hears of each, in order |
| Pipeline.VideoAgent.HeardAfter | src/agents/video-agent.ts:99-109 | hearing one batch after another is hearing their concatenation |
| Pipeline.VideoAgent.constructor | src/agents/video-agent.ts:74 | the agent starts with the given output directory or none, and no events |
| Pipeline.VideoAgent.Emit | src/agents/video-agent.ts:99-109 | an event reaches the callback only when one was supplied |
| Pipeline.VideoAgent.Init | src/agents/video-agent.ts:115-138 | the output directory becomes the one `InitDir` specifies |
| Pipeline.VideoAgent.GenerateImages | src/agents/video-agent.ts:187-262 | the loop's result is the specified images outcome |
| Pipeline.VideoAgent.GenerateAudio | src/agents/video-agent.ts:522-536 | the loop's result is the specified audio outcome |
| Pipeline.VideoAgent.AssembleVideoSimple | src/agents/video-agent.ts:538-571 | the clips rendered are the specified pairs, and the result is `sumo_news.mp4` or ffmpeg's error |
| Pipeline.VideoAgent.Abort | src/agents/video-agent.ts:690-692 | a failed run emits one error event and returns the error |
| Pipeline.VideoAgent.ObtainScenario | src/agents/video-agent.ts:631-638 | the scenario stage emits the specified events and yields the pre-generated or generated scenario |
| Pipeline.VideoAgent.GatherAssets | src/agents/video-agent.ts:658-666 | the image and audio stages emit the specified events and yield both path lists, or the first error |
| Pipeline.VideoAgent.Finalize | src/agents/video-agent.ts:675-687 | assembly and background music emit the specified events and yield the specified result |
| Pipeline.VideoAgent.Produce | src/agents/video-agent.ts:658-687 | from the image stage on, the events and the result are those specified, the count check included |
| Pipeline.VideoAgent.Run | src/agents/video-agent.ts:620-694 | the events emitted, the output directory and the result are those of the specification `RunSpec` |
| Pipeline.PerScene | src/agents/video-agent.ts:196-262 | a loop over the scene slots that skips empty ones and collects one path per filled slot, or stops at the first error. PerSceneSpec, PerSceneOk and PerSceneFail state this |
| Pipeline.ImagesOutcome | src/agents/video-agent.ts:187-262 | `generateImages`: the reference image's read error, or the per-scene image loop. AssetsMatch and FilledScenesAllDrawn are about it |
| Pipeline.AudioOutcome | src/agents/video-agent.ts:522-536 | `generateAudio`: the per-scene loop over each filled slot's verified speech. AssetsMatch is about it |
| Pipeline.ErrorEvent | src/agents/video-agent.ts:690-691 | the `complete` error event at 0 %, with the message or the default text |
| Pipeline.ScenarioStage | src/agents/video-agent.ts:631-638 | the scenario stage: the pre-generated scenario with one event, or the generated one with two, or the generation error after the first |
| Pipeline.AssetStage | src/agents/video-agent.ts:660-668 | the image and audio stages' events and both path lists, or the first error. AssetStageFollowsPlan states them |
| Pipeline.Production | src/agents/video-agent.ts:660-687 | everything from the image stage on, the count check included. ProductionFollowsPlan and ProductionReachesAssembly state it |
| Pipeline.Finishing | src/agents/video-agent.ts:674-687 | assembly and background music: their events and the run's result. FinishingFollowsPlan states them |
| Pipeline.RunSpec | src/agents/video-agent.ts:620-694 | `run` as a function of what the services return: its events, output directory and result. RunFollowsPlan, RunMonotone and SingleTerminalEvent are about it |
| JobStore.AssignFields | src/lib/video-job-manager.ts:126 | `Object.assign` overwrites exactly the supplied fields |
| JobStore.AssignNothing | src/lib/video-job-manager.ts:126 | an empty update changes nothing |
| JobStore.AssignIdempotent | src/lib/video-job-manager.ts:126 | applying the same update twice is applying it once |
| JobStore.AssignThen | src/lib/video-job-manager.ts:126 | two updates in a row are one combined update |
| JobStore.KeyInjective | src/lib/video-job-manager.ts:37-46 | different ids never share a record key |
| JobStore.RedisIdRoundTrip | src/lib/video-job-manager.ts:212-223 | a listed Redis key is the key of the id derived from it |
| JobStore.FileIdRoundTrip | src/lib/video-job-manager.ts:226-232 | a listed file whose only `.json` is its suffix is the file of the id derived from it |
| JobStore.FirstAtSuffix | src/lib/video-job-manager.ts:226-232 | removing the first occurrence of a suffix that occurs only at the end strips the suffix |
| JobStore.FileIdMismatch | src/lib/video-job-manager.ts:226-232 | a file name holding `.json` twice, such as `a.jsonb.json`, maps to an id whose file is another one |
| JobStore.LastSlash | src/lib/video-job-manager.ts:167 | the last `/` before a position, or none |
| JobStore.DirNameOfFile | src/lib/video-job-manager.ts:165-169 | the directory of a file is its path up to the last `/` |
| JobStore.TimerDelayBounds | src/lib/video-job-manager.ts:148-154 | the delay is one Node accepts, and is exactly the minutes in milliseconds up to 35791 minutes |
| JobStore.CollectedStored | src/lib/video-job-manager.ts:205-242 | every job `getAllJobs` returns is a stored record |
| JobStore.CollectedComplete | src/lib/video-job-manager.ts:205-242 | every readable job under a listed `job:` key is returned |
| JobStore.VideoJobManager.constructor | src/lib/video-job-manager.ts:27-35 | the manager starts over the backend's records, with no timers |
| JobStore.VideoJobManager.CreateJob | src/lib/video-job-manager.ts:51-78 | the pending record with the input and provider is stored under the id's key and the id returned. A failed write stores nothing and fails with its error. With Redis, a failed read-back fails after the write. Timers and directories do not change |
| JobStore.VideoJobManager.GetJob | src/lib/video-job-manager.ts:83-118 | a record exactly when the key is stored and the read succeeds, and then the stored one |
| JobStore.VideoJobManager.UpdateJob | src/lib/video-job-manager.ts:123-137 | a readable record gets the update's fields, unless the write fails, and then the record stays and the write's error is thrown. A missing or unreadable record changes nothing |
| JobStore.VideoJobManager.ScheduleCleanup | src/lib/video-job-manager.ts:142-155 | the id's one timer is replaced by a pending one at the new deadline |
| JobStore.VideoJobManager.CleanupJob | src/lib/video-job-manager.ts:160-193 | for a readable record the record and the timer entry go, and so does the output directory when the output path is non-empty. Otherwise nothing changes, the timer entry included |
| JobStore.VideoJobManager.Fire | src/lib/video-job-manager.ts:148-154 | a due timer marks itself fired and cleans the job up. When the job is readable, its record and timer are removed, and so is its output directory when the output path is non-empty |
| JobStore.VideoJobManager.ReadListed | src/lib/video-job-manager.ts:213-220 | one listed key yields its job when it is a job key and can be read |
| JobStore.VideoJobManager.GetAllJobs | src/lib/video-job-manager.ts:205-242 | the readable jobs under listed keys, in listing order, and none when listing fails |
| JobStore.ProgressedKeeps | app/api/video/generate/route.ts:157-161 | progress updates touch only the three progress fields, leaving the last event's values |
| JobStore.ProgressedSnoc | app/api/video/generate/route.ts:157-161 | one more event is one more progress update |
| JobStore.LifecycleOutcome | app/api/video/generate/route.ts:142-176 | a successful run ends `completed` with its video path, and a failed one ends `error` with the message or the default text and no output; id, input, provider and creation time are kept |
| JobStore.GenerateLifecycle | app/api/video/generate/route.ts:142-176 | the route's calls leave the record `Lifecycle` specifies, and schedule cleanup an hour later only on success |
| JobStore.CreateThenGet | src/lib/video-job-manager.ts:51-118 | a job just created reads back as the pending record with its id, input and provider |
| JobStore.Assign | src/lib/video-job-manager.ts:126 | `Object.assign(job, updates)`. AssignFields, AssignNothing, AssignIdempotent and AssignThen state its properties |
| JobStore.Key | src/lib/video-job-manager.ts:37-46 | `job:<id>` for Redis and `<id>.json` for files. JobStore.KeyInjective proves different ids never share a key |
| JobStore.IdOf | src/lib/video-job-manager.ts:213-229 | the id `getAllJobs` derives from a listed key. RedisIdRoundTrip, FileIdRoundTrip and FileIdMismatch relate it to Key |
| JobStore.DirName | src/lib/video-job-manager.ts:167 | `path.dirname`. JobStore.DirNameOfFile proves it gives a file's directory |
| JobStore.TimerDelay | src/lib/video-job-manager.ts:150-152 | the `setTimeout` delay for a number of minutes. JobStore.TimerDelayBounds states its range |
| JobStore.Collected | src/lib/video-job-manager.ts:205-242 | the jobs `getAllJobs` returns for a listing. CollectedStored and CollectedComplete state which |
| JobStore.Lifecycle | app/api/video/generate/route.ts:142-176 | the record after the generate route's updates. JobStore.LifecycleOutcome states the final record |
| ApiKeys.PrefixNotBlank | app/lib/storage.ts:68-70 | a key starting with a non-blank prefix is not blank |
| ApiKeys.BlankIffNoText | app/lib/storage.ts:68-70 | a key is blank exactly when it has no non-whitespace character |
| ApiKeys.OpenAIValid | app/lib/storage.ts:73-74 | an OpenAI key is valid exactly when it starts with `sk-` |
| ApiKeys.GoogleValid | app/lib/storage.ts:75-76 | a Google key is valid exactly when it starts with `AIza`, or is longer than 30 characters and not blank |
| ApiKeys.ElevenLabsValid | app/lib/storage.ts:77-78 | an ElevenLabs key is valid exactly when it starts with `sk_`, or is longer than 20 characters and not blank |
| ApiKeys.VoiceIdValid | app/lib/storage.ts:79-80 | a voice id is valid exactly when it is longer than 10 characters and not blank |
| ApiKeys.ValidHasText | app/lib/storage.ts:67-84 | a valid key is never empty or whitespace-only, whatever the field |
| ApiKeys.SpacesNotGoogleKey | app/lib/storage.ts:68-76 | thirty-one spaces pass the length rule but are not a Google key |
| ApiKeys.ValidateApiKey | app/lib/storage.ts:67-84 | `validateApiKey`. OpenAIValid, GoogleValid, ElevenLabsValid, VoiceIdValid and ValidHasText state, field by field, when a key is valid |
| FormState.FormErrorsEmpty | app/components/video-form.tsx:50-71 | the form is valid exactly when the input has text, both keys are set, and the ElevenLabs voice has its key |
| FormState.FormErrorsMessages | app/components/video-form.tsx:57-67 | with both keys missing the Google message shows, and VOICEVOX never needs an ElevenLabs key |
| FormState.InOrder | app/components/video-form.tsx:51-67 | the successive assignments build the declarative error record |
| FormState.ImageKeptWithinLimit | app/components/video-form.tsx:98-134 | a kept image came from an image file and is within 2 MiB, and a small image is kept as it is |
| FormState.NoKeysEmpty | app/components/video-form.tsx:70 | a record with no keys is empty |
| FormState.RecordErrors | app/components/video-form.tsx:51-67 | the assignments yield the specified error record |
| FormState.VideoForm.constructor | app/components/video-form.tsx:27-33 | the form's initial state |
| FormState.VideoForm.KeysUpdated | app/components/video-form.tsx:35-48 | the keys are taken, and a set voice id fills the voice field |
| FormState.VideoForm.Validate | app/components/video-form.tsx:50-71 | the errors shown are the specified ones, and the form is valid exactly when there are none |
| FormState.VideoForm.HandleSubmit | app/components/video-form.tsx:73-88 | the data is handed on exactly when validation passes, with an empty voice id as absent |
| FormState.VideoForm.HandleFileChange | app/components/video-form.tsx:90-151 | an accepted file clears only its own error. A rejected one keeps the previous file and sets only its own error, to the message of the first check it fails: wrong type, failed compression or still too large for an image; wrong type or too large for music |
| FormState.FormErrors | app/components/video-form.tsx:50-68 | the errors `validate` records, field by field. FormState.FormErrorsEmpty, FormErrorsMessages and InOrder state its properties |
| FormState.BgmAcceptable | app/components/video-form.tsx:136-145 | a music file is kept when its type starts with `audio/` and it is at most 2 MiB. FormState.VideoForm.HandleFileChange uses it |
| FormState.ImageKept | app/components/video-form.tsx:98-130 | the image kept for an upload: the file up to 2 MiB, else the compressor's result when it is small enough. FormState.ImageKeptWithinLimit states its bounds |
| FormState.ImageRejection | app/components/video-form.tsx:99-134 | the message of a rejected image: the type message iff the type is not `image/`, the failure message iff compressing a large image failed, otherwise the size message |
| FormState.BgmRejection | app/components/video-form.tsx:136-145 | the message of a rejected music file: the type message iff the type is not `audio/`, the size message iff the type passes and the file exceeds 2 MiB |
| ScenarioEditor.EditAt | app/components/scenario-editor.tsx:24-40 | only the scene at the index changes, and only the edited field |
| ScenarioEditor.RemoveAt | app/components/scenario-editor.tsx:46-51 | exactly the scene at the index is removed, the others keep their order, and an index out of range changes nothing |
| ScenarioEditor.SceneTextChangeOnly | app/components/scenario-editor.tsx:24-31 | editing the narration changes only that scene's text |
| ScenarioEditor.SceneImagePromptChangeOnly | app/components/scenario-editor.tsx:33-40 | editing an image prompt changes only that scene's prompt |
| ScenarioEditor.SceneTextChangeSame | app/components/scenario-editor.tsx:24-31 | re-entering the current narration changes nothing |
| ScenarioEditor.RemoveThenAdd | app/components/scenario-editor.tsx:46-64 | removal deletes exactly one scene, and adding appends the empty scene at the end |
| ScenarioEditor.AddThenRemove | app/components/scenario-editor.tsx:46-64 | removing the scene just added restores the scenario |
| ScenarioEditor.OfferedKeepsScene | app/components/scenario-editor.tsx:123 | one offered action never empties a non-empty scene list |
| ScenarioEditor.EditorNeverEmpties | app/components/scenario-editor.tsx:123 | any sequence of actions the rendered editor offers keeps at least one scene |
| ScenarioEditor.RemoveLastEmpties | app/components/scenario-editor.tsx:46-51 | without the rendering guard, one removal would empty a one-scene scenario |
| ScenarioEditor.SceneTextChange | app/components/scenario-editor.tsx:24-31 | `handleSceneTextChange`. ScenarioEditor.SceneTextChangeOnly and SceneTextChangeSame state its effect |
| ScenarioEditor.SceneImagePromptChange | app/components/scenario-editor.tsx:33-40 | `handleSceneImagePromptChange`. ScenarioEditor.SceneImagePromptChangeOnly states its effect |
| ScenarioEditor.TitleChange | app/components/scenario-editor.tsx:42-44 | `handleTitleChange`: the scenes stay as they are |
| ScenarioEditor.RemoveScene | app/components/scenario-editor.tsx:46-51 | `handleRemoveScene`. ScenarioEditor.RemoveThenAdd, AddThenRemove and RemoveLastEmpties state its effect |
| ScenarioEditor.AddScene | app/components/scenario-editor.tsx:53-64 | `handleAddScene`: an empty scene at the end. ScenarioEditor.RemoveThenAdd and AddThenRemove state its effect |
| ProgressView.FindIndex | app/components/progress-tracker.tsx:40 | a found index holds the step |
| ProgressView.FindIndexFirst | app/components/progress-tracker.tsx:40 | the first occurrence is found, and -1 exactly when there is none |
| ProgressView.StepIndexes | app/components/progress-tracker.tsx:12-18 | each of the five steps has its indicator at its place, and `complete` has none |
| ProgressView.StepIndexShape | app/components/progress-tracker.tsx:40-43 | a step has an indicator exactly when it is not `complete` |
| ProgressView.IndicatorsConsistent | app/components/progress-tracker.tsx:168-170 | no indicator is both done and current, done indicators form a prefix, and at most one is current |
| ProgressView.IndicatorsInProgress | app/components/progress-tracker.tsx:168-170 | while a step runs, exactly the earlier indicators are done; after an error none at or after the current step is done |
| ProgressView.Tracker.constructor | app/components/progress-tracker.tsx:21-140 | the initial progress, then an event source, or polling at once when it cannot be created |
| ProgressView.Tracker.Cleanup | app/components/progress-tracker.tsx:91-100 | the event source closes and polling stops, and nothing else changes |
| ProgressView.Tracker.StartPolling | app/components/progress-tracker.tsx:84-89 | polling mode is on |
| ProgressView.Tracker.UpdateProgress | app/components/progress-tracker.tsx:36-55 | a step with an indicator becomes current. A finished `complete` event with a video reports it, an `error` one reports the failure, and either ends tracking. Any other `complete` event reports nothing |
| ProgressView.Tracker.OnMessage | app/components/progress-tracker.tsx:107-115 | an unparsable message changes nothing. A parsed one resets the retry count and shows the event. A step with an indicator becomes the current one. A finished `complete` event reports the video and a `complete` error reports its message; both close the event source. Otherwise the event source stays open |
| ProgressView.Tracker.OnSseError | app/components/progress-tracker.tsx:117-133 | the event source closes, the count goes from 0 to 1 and the polling fallback is scheduled. The count is 0 whenever the event source is open, so the limit branch is never reached |
| ProgressView.Tracker.FallbackFires | app/components/progress-tracker.tsx:125-129 | the fallback timer starts polling and keeps the progress, the current step, the retry count and the reports |
| ProgressView.Tracker.PollResult | app/components/progress-tracker.tsx:57-82 | a parsed status is shown and sets the current step, and a `complete` status reports the video or the failure as `updateProgress` does and stops polling. Every failure counts, and the one that reaches the limit reports the failure and stops |
| ProgressView.ThreeFailuresStop | app/components/progress-tracker.tsx:71-81 | from a fresh count, polling stops on exactly the third failure, with a single report |
| ProgressView.StepIndex | app/components/progress-tracker.tsx:40 | the indicator of an event's step. ProgressView.StepIndexes and StepIndexShape give it for every step |
| ProgressView.IsCompleted | app/components/progress-tracker.tsx:168-169 | an indicator is done when it is before the current one, or is the current one and the status is `completed`. IndicatorsConsistent and IndicatorsInProgress state its properties |
| ProgressView.IsCurrent | app/components/progress-tracker.tsx:170 | an indicator is current when it is the current one and the status is `in_progress`. IndicatorsConsistent and IndicatorsInProgress state its properties |
| ProgressView.Tracker.Valid | app/components/progress-tracker.tsx:21-140 | the indicator names a step; polling runs or waits only up to the retry limit; while the event source is open the count is 0 and nothing else runs |

## Left out

- UTF-16: strings are sequences of Unicode scalar values. JavaScript lengths, `substring` and `\s` count UTF-16 units, and the two differ only for characters outside the Basic Multilingual Plane.
- Floating point: the similarity is integer tenths, equal to `Math.round` of the scaled ratio. The log lines' sizes are not modelled.
- The network services are oracle results: the article fetch, cheerio extraction, the scenario, image and hiragana models, ElevenLabs, Whisper, the sumo.or.jp lookup and the LLM call in `extractWrestlerReadings`. Prompt templates (`buildPrompt`) are not modelled.
- `verifyWrestlerReadings` and its 15-second `Promise.race` are left out of `run`. Its failure is swallowed, so it adds no event and cannot change the result.
- Writing `scenario.json` in `run` is not modelled, and neither is creating the directory in `init` or in the job manager's constructor.
- ffmpeg is modelled only by its outcome: the clip pairing, the output names and the music file's presence are kept.
- Pipeline.VideoAgent.GenerateImages: reading the reference image is a single outcome. Failed image requests are given per scene index.
- `path.join` is string concatenation with `/`. JobStore.DirName does not handle trailing slashes or `..`.
- Time and randomness are parameters: the directory timestamp, `Date.now()` in job ids and records, and `Math.random()` in `generateJobId`. The id is a parameter of `CreateJob`.
- The Redis TTL of 3600 seconds is not modelled. Redis and the `/tmp/jobs` files are one map, and which one is used is fixed per manager.
- JobStore.GenerateLifecycle: every store write succeeds in it. A throwing `createJob` or scenario update ends the POST handler with a 500 (app/api/video/generate/route.ts:44-48). A throwing `processing` update sends `generateVideo` to the route's `.catch` (:142, :94-99). A throwing final update skips `scheduleCleanup` (:169-176). JobStore.VideoJobManager.CreateJob and UpdateJob model each failing write.
- JobStore.GenerateLifecycle: it applies the progress updates in order before the final update. The route does not await them, so a late progress write could land after the final status.
- JobStore.VideoJobManager.CleanupJob: failures of the deletion itself (`rm`, `del`) are not modelled. A failed read is an oracle flag.
- JobStore.VideoJobManager.GetAllJobs: a listing failure is an absent listing, and a failed read is a flag per key.
- The Redis client module, the progress emitter, the HTTP routes other than the generate route's job-manager calls, the debug routes, the CLI script and the MCP server are not part of this model.
- `saveCache` and the local-storage functions (`loadApiKeys`, `saveApiKeys`, `clearApiKeys`) are left out as persistence. The API-key manager only delegates to `validateApiKey`.
- `$` substitution patterns in `replace` are not modelled. The number rules use `$1` only to put the captured digits back, and the model keeps them.
- The image compressor in `handleFileChange` is an oracle result. React rendering, layout and `page.tsx` step switching are left out.
- ProgressView.Tracker: a single run of the effect is modelled. The re-run that `setUsePolling` triggers, which would reset `retryCount`, is not.
- ProgressView.Tracker.PollResult: it requires polling to be on, so a poll still in flight after `cleanup` is not modelled. The periodic interval is a sequence of `PollResult` calls, and the poll that `startPolling` makes at once is one of them.
- ApiKeys.ValidateApiKey: the `default` branch, which returns `true` for a non-blank key, is unreachable for the four typed fields and is not modelled.
- SumoNormalizer.SumoTextNormalizer.Normalize: it requires the dictionaries and the model's reply to have distinct keys, which parsed JSON objects always have.
- Dict.KeysOf: `Object.keys` lists keys that are array indices (`"0"`, `"15"`) first, in numeric order, and only then the rest in insertion order. The model keeps insertion order for every key. The dictionary and cache keys are meant to be Japanese names and terms, which are not array indices. A model reply keyed by digits would be ordered differently, and that could change which of two equal-length keys `SortByLength` puts first.
- AudioVerification.AttemptText: what the normalizer returns is given per attempt, in the attempt's `Trial`, as a function of the text. `normalizeWithLog` calls the language model and writes the wrestler cache on every call. Those effects are modelled once, by SumoNormalizer.SumoTextNormalizer.Normalize, and not threaded through the audio retry loop.
- SumoNormalizer.NormalizeWith: it is not idempotent, and no idempotence is claimed (see SumoNormalizer.NormalizeNotIdempotent). A reading can form, with the text around it, a key that a later pass replaces. Each call of the source also consults the model again, which can add new entries.
