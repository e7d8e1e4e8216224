# Speaking-turn evaluation pipeline, in Dafny

This project models the speaking-practice service of TOEIC_AI_Service: one
spoken turn of a learner going through the chat endpoint. The turn:

1. decodes the audio and gets a speech-to-text transcript;
2. gates the turn on the similarity between that transcript and the
   client's own transcript, and short-circuits with fixed zero scores when
   they disagree or nothing was recognized;
3. otherwise runs the pronunciation assessment. This normalises the
   reference words, aligns them with the recognized words through diff
   opcodes, and computes accuracy, fluency, completeness and a per-word
   report;
4. scores intonation from pitch statistics, with a fallback model;
5. asks the language models, through the ordered model-fallback loop, for
   grammar feedback and for the bot's reply;
6. rounds and averages the scores, and synthesizes the reply in a voice and
   at a rate chosen from the session configuration.

The model also covers the in-memory session store, the request and response
records, and the similarity-band feedback of the definition evaluator.

Every outside service is a parameter:

- the base64 decoder, the recognizer, the continuous pronunciation
  recognizer (its result segments);
- the diff routine (opcodes, under `AzureSpeech.IsDiff`), the pitch tracker;
- the sequence matcher (under `ChatService.IsMatcher`), the model call, the
  two JSON parsers, the synthesizer, the float formatting.

Each returns a value; `None` or an error value stands for a call that
raised. The turn handler carries a ghost trace of the collaborators it
called, in order.

Modules, one file each:

| module | models |
|---|---|
| `Wrappers` (wrappers.dfy) | Option and Result |
| `Text` (text.dfy) | the Python string operations the code uses: `lower`, `strip`, `split`, `splitlines`, `join`, `find`, `rfind`, `str(int)` |
| `Numeric` (numeric.dfy) | sums, means, `round(x, 1)` and `round(x, 3)` |
| `ChatSchema` (chat_schema.dfy) | app/schemas/chat_schema.py |
| `AzureSpeech` (azure_speech.dfy) | app/utils/azure_speech.py |
| `Intonation` (intonation.dfy) | app/utils/intonation_utils.py |
| `ChatService` (chat_service.dfy) | app/services/chat_service.py |
| `GeminiClient` (gemini_client.dfy) | app/utils/gemini_client.py |
| `ChatModel` (chat_model.dfy) | app/models/chat_model.py |
| `ChatRouter` (chat_router.dfy) | app/routers/chat_router.py |
| `SentenceEval` (sentence_eval.dfy) | app/models/sentence_eval.py |

Imperative code is modelled as methods with loops, proved equal to a
specification function. This covers:

- the alignment loop, the per-word report loop and the per-word pitch loop;
- the prompt builder, the model-fallback loop and the mistakes loop;
- the system-message builders and the turn handler.

The store is a class whose session map is updated in place. Everything
else is functions and lemmas.

Behaviour of the code that the model keeps:

- **Zero denominators.** The accuracy, fluency and completeness divisions
  are unguarded, so a zero denominator raises and aborts the turn. The model
  returns an error value for it, which the turn handler propagates.
- **Omitted words count towards accuracy.** They are synthesized without an
  accuracy score, read as the word record's default of 0, and they are not
  insertions. So they count in the accuracy mean as 0 (`AzureSpeech.OmittedWord`).
- **Errors of earlier stages are fatal.** A failed decode, a failed
  recognition or a failed assessment aborts the turn. Only intonation,
  grammar, the reply and synthesis degrade to fallback values.
- **One wrong word fails the gate.** "I go to school yesterday" against
  "I went to school yesterday": a sequence matcher finds 22 matched
  characters, so the ratio is 44/50 = 0.88, below the 0.9 gate
  (`ChatRouter.OneWrongWordIsUnintelligible`).
- **The completeness cap never applies.** Under well-formed opcodes the
  count of error-free words never exceeds the number of reference words.
  So the cap at 100 never changes the value (`AzureSpeech.CountNoneBound`).
- **`ChatInitConfig` is not in the schema file.** It is written as a
  record of five optional strings, the fields `chat_model.py` reads.

## Model

| member | source | states |
|---|---|---|
| `Text.Lower` | app/utils/azure_speech.py:107 | lower-casing keeps the length, maps every character through the ASCII lower-case map and leaves no upper-case letter |
| `Text.StripEmptyIffBlank` | app/utils/gemini_client.py:143 | a text strips to the empty string exactly when every character is whitespace |
| `Text.StripUnchanged` | app/utils/gemini_client.py:98 | a text that begins and ends with a non-space character is its own strip |
| `Text.SplitWords` | app/utils/azure_speech.py:107 | whitespace splitting yields only non-empty words without whitespace |
| `Text.SplitWordsJoin` | app/utils/azure_speech.py:107 | splitting the single-space join of non-empty space-free words gives those words back |
| `Text.SplitOn` | app/utils/gemini_client.py:100 | splitting at a character yields at least one piece, and no piece holds the separator |
| `Text.JoinSplit` | app/utils/gemini_client.py:100-104 | joining the pieces of a split with the separator restores the text |
| `Text.SplitJoin` | app/utils/gemini_client.py:33 | splitting a join of separator-free pieces gives the pieces back |
| `Text.SplitLines` | app/utils/gemini_client.py:100 | no line holds a line break |
| `Text.Find` | app/utils/gemini_client.py:107 | the first index of the character, or -1 exactly when it does not occur |
| `Text.RFind` | app/utils/gemini_client.py:108 | the last index of the character, or -1 exactly when it does not occur |
| `Text.ParseNatToString` | app/utils/azure_speech.py:148 | the decimal rendering of a number reads back as that number |
| `Numeric.Round1` | app/routers/chat_router.py:109-117 | `round(x, 1)` lies within 0.05 of `x` |
| `Numeric.Round1Bounds` | app/routers/chat_router.py:109-112 | rounding to one decimal keeps a score in [0, 100] |
| `Numeric.Round1Monotone` | app/routers/chat_router.py:109-117 | rounding to one decimal is monotone |
| `Numeric.Round1Exact` | app/utils/intonation_utils.py:97 | a value with one decimal is left unchanged |
| `Numeric.Round3` | app/models/sentence_eval.py:24 | `round(x, 3)` lies within 0.0005 of `x` |
| `Numeric.MeanBounds` | app/utils/azure_speech.py:134 | the mean of values in [lo, hi] is in [lo, hi] |
| `ChatSchema.ParseRole` | app/schemas/chat_schema.py:6-8 | a role is accepted exactly when it is one of the three literals, and renders back to the same name |
| `ChatSchema.ParseMistakeType` | app/schemas/chat_schema.py:32-36 | a mistake type is accepted exactly when it is one of the three literals |
| `ChatSchema.TurnResponseDefaults` | app/schemas/chat_schema.py:49-57 | a turn response built from its four required fields is not unintelligible and has no translation and no audio |
| `AzureSpeech.SttFromResult` | app/utils/azure_speech.py:29-31 | the transcript is returned exactly when the reason is "recognized speech"; otherwise the failure carries the reason |
| `AzureSpeech.FluencyScores` | app/utils/azure_speech.py:89 | one fluency score per segment, in segment order |
| `AzureSpeech.Durations` | app/utils/azure_speech.py:95 | one duration per segment: the sum of its word durations |
| `AzureSpeech.ReferenceWords` | app/utils/azure_speech.py:106-108 | one reference word per whitespace token of the lower-cased text; the k-th word is the k-th token with its edge punctuation stripped, so each is lower-case, without whitespace and without punctuation at either end |
| `AzureSpeech.StripEach` | app/utils/azure_speech.py:107 | every token is stripped of edge punctuation, keeping order, count, case and spacing |
| `AzureSpeech.StripKeeps` | app/utils/azure_speech.py:107 | stripping punctuation keeps a word lower-case and space-free and leaves no punctuation at its ends |
| `AzureSpeech.ReferenceWordsOfNormalText` | app/utils/azure_speech.py:106-108 | a text made of lower-case single-spaced words without edge punctuation normalises back to exactly those words |
| `AzureSpeech.AlignWords` | app/utils/azure_speech.py:112-129 | the loop's final list is the merge of the opcodes and its recognized list is the relabelled list; the merge appends, per opcode, the recognized words of equal ranges unchanged, those of insert and replace ranges relabelled, then one omission per deleted or replaced reference word |
| `AzureSpeech.RelabelledLength` | app/utils/azure_speech.py:114-118 | relabelling in place keeps the recognized list's length |
| `AzureSpeech.MergeOrigins` | app/utils/azure_speech.py:112-129 | every final word is the word its provenance stands for: a matched recognized word, a relabelled recognized word, or an omission of a reference word; an insert-range entry of the final list is the same relabelled word as its entry in the recognized list |
| `AzureSpeech.OriginsCover` | app/utils/azure_speech.py:113-129 | the final list accounts for every recognized word exactly once and in order, and for every reference word exactly once and in order |
| `AzureSpeech.MatchedAgree` | app/utils/azure_speech.py:109-111 | every matched pair holds equal reference and lower-cased recognized words |
| `AzureSpeech.OpcodesInBounds` | app/utils/azure_speech.py:109-113 | the diff's opcodes stay within the two word lists |
| `AzureSpeech.AllEqualMerge` | app/utils/azure_speech.py:128-129 | opcodes that are all equal ranges copy the recognized words through unchanged, and both lists have the same length |
| `AzureSpeech.ScoredAccuraciesFacts` | app/utils/azure_speech.py:131-133 | no accuracy is scored exactly when every final word is an insertion; scored accuracies lie within the words' accuracy bounds |
| `AzureSpeech.Accuracy` | app/utils/azure_speech.py:131-134 | the mean accuracy of the non-insertion words; a division-by-zero error exactly when all words are insertions; within [0, 100] for word accuracies in [0, 100] |
| `AzureSpeech.WeightedSumBounds` | app/utils/azure_speech.py:135 | the duration-weighted sum of scores in [lo, hi] lies between lo and hi times the total duration |
| `AzureSpeech.Fluency` | app/utils/azure_speech.py:135-137 | the weighted sum divided by the total duration; a division-by-zero error exactly when the total duration is 0 |
| `AzureSpeech.FluencyBounds` | app/utils/azure_speech.py:135-137 | the fluency lies between the least and the greatest segment score |
| `AzureSpeech.CountNoneBound` | app/utils/azure_speech.py:114-118 | after relabelling, at most as many recognized words are error-free as there are reference words |
| `AzureSpeech.Completeness` | app/utils/azure_speech.py:138-143 | the error-free share times 100 when it is at most 1, exactly 100 when more words are error-free than there are references (the cap), within [0, 100]; a division-by-zero error exactly when there are no reference words |
| `AzureSpeech.PerWordEval` | app/utils/azure_speech.py:145-149 | one report line per final word, the k-th numbered k+1 and naming that word, its accuracy and its error type |
| `AzureSpeech.LineNumberOfEvalLine` | app/utils/azure_speech.py:148 | every report line reads back the number it was written with |
| `AzureSpeech.PerWordEvalNumbering` | app/utils/azure_speech.py:145-149 | the report is numbered consecutively from 1 |
| `AzureSpeech.PerfectReading` | app/utils/azure_speech.py:106-143 | a reading the diff matches word for word, every word error-free, passes through unchanged and is 100 complete, and 100 accurate when every word scored 100 |
| `AzureSpeech.PronunciationAssessment` | app/utils/azure_speech.py:106-151 | the assessment returns the merged final words, the accuracy, the fluency, the completeness and the numbered report; it fails with the first zero denominator in the order accuracy, fluency, completeness, and only then |
| `AzureSpeech.AssessedScores` | app/utils/azure_speech.py:131-143 | the assessment fails exactly when all final words are insertions, the total duration is 0 or there are no reference words |
| `Intonation.ScoreFromPercent` | app/utils/intonation_utils.py:66-89 | full marks exactly in the band, `max(0, 100 * percent / min)` below it, and `100 - min(50, (percent - max) / 2)` above it, which stays in [50, 100) |
| `Intonation.ScoreBelowMonotone` | app/utils/intonation_utils.py:82-84 | below the band a larger percentage never scores lower |
| `Intonation.ScoreAboveAntitone` | app/utils/intonation_utils.py:85-89 | above the band a larger percentage never scores higher |
| `Intonation.ScoreAboveFloor` | app/utils/intonation_utils.py:86-89 | the penalty stops at 50 points, 100 percentage points past the band |
| `Intonation.Weighted` | app/utils/intonation_utils.py:95 | the 0.7/0.3 blend of two scores in [0, 100] is in [0, 100], and 100 exactly when both are 100 |
| `Intonation.WeightedShares` | app/utils/intonation_utils.py:95 | the range score carries 70 points of the blend and the deviation score 30 |
| `Intonation.WeightedMonotone` | app/utils/intonation_utils.py:95 | raising either band score never lowers the blend |
| `Intonation.PrimaryScore` | app/utils/intonation_utils.py:52-97 | within 0.05 of 0.7 times the range score plus 0.3 times the deviation score, each scored from its percentage of the native reference; in [0, 100], and 100 when both percentages are in band |
| `Intonation.NonZero` | app/utils/intonation_utils.py:14 | the voiced samples: every kept sample is non-zero and drawn from the samples, and every non-zero sample is kept |
| `Intonation.NonZeroSingle` | app/utils/intonation_utils.py:14 | a single sample is kept exactly when it is non-zero |
| `Intonation.NonZeroAppend` | app/utils/intonation_utils.py:14 | filtering distributes over concatenation, so the voiced samples keep their order |
| `Intonation.NonZeroOfVoiced` | app/utils/intonation_utils.py:14 | samples without an unvoiced frame are all kept |
| `Intonation.OverallPitch` | app/utils/intonation_utils.py:22 | the mean voiced pitch is 0 when nothing is voiced |
| `Intonation.OverallPitchBounds` | app/utils/intonation_utils.py:22 | the mean voiced pitch lies within the bounds of the voiced samples |
| `Intonation.Clamp01` | app/utils/intonation_utils.py:114 | the clamp lies in [0, 1] and leaves values there unchanged |
| `Intonation.FallbackScore` | app/utils/intonation_utils.py:102-115 | the fallback score is in [0, 100], 0 at or below 80 Hz (and with nothing voiced), 100 at or above 300 Hz, and in between within 0.05 of the linear share (p - 80) / 220 * 100 of the mean voiced pitch p |
| `Intonation.FallbackMonotone` | app/utils/intonation_utils.py:102-115 | a higher mean voiced pitch never gives a lower fallback score |
| `Intonation.CalculateIntonation` | app/utils/intonation_utils.py:26-117 | the primary score when the statistics were measured, else the fallback score when the samples were, else 0; always in [0, 100] |
| `Intonation.PitchPerWord` | app/utils/intonation_utils.py:8-23 | one line per word, pairing the i-th word with the i-th voiced sample and later words with 0 Hz, plus the mean voiced pitch |
| `ChatService.Similarity` | app/services/chat_service.py:12-23 | twice the matches of the lower-cased texts over their total length, within [0, 1], and 1 for texts equal up to case |
| `ChatService.SimilarityIgnoresCase` | app/services/chat_service.py:23 | transcripts that differ only in letter case have the same similarity |
| `ChatService.BuildSystemMessageFromConfig` | app/services/chat_service.py:26-55 | a system message: the introduction and one clause per used field, in field order, joined by spaces |
| `ChatService.SystemMessageIntroOnly` | app/services/chat_service.py:36-55 | the message is the bare introduction exactly when no field is used |
| `ChatService.SystemMessageZeroDuration` | app/services/chat_service.py:50-51 | a duration of 0 minutes still yields its clause |
| `ChatService.EmptyFieldIgnored` | app/services/chat_service.py:40-49 | an empty string field is treated as an absent one |
| `ChatService.VoiceForTone` | app/services/chat_service.py:58-76 | the listed voice of a listed tone, and the default voice exactly for the other tones |
| `ChatService.SpeakingRate` | app/services/chat_service.py:79-104 | 1.0 without a speed, the speed's rate otherwise; for the fast native speaker tone exactly the larger of the speed's rate and 1.1, that is 1.2 for fast and 1.1 for slow and normal |
| `ChatService.TtsParameters` | app/services/chat_service.py:107-127 | the default voice at 1.0 without a config, the tone's voice when a tone is set, and the configured rate |
| `GeminiClient.PromptLines` | app/utils/gemini_client.py:24-32 | one "Prefix: content" line per message, in order |
| `GeminiClient.BuildPromptFromMessages` | app/utils/gemini_client.py:23-33 | the message lines joined by newlines, then the assistant cue |
| `GeminiClient.PromptLinesRecoverable` | app/utils/gemini_client.py:23-33 | when no content holds a newline, the prompt's lines are the message lines and then the cue |
| `GeminiClient.SplitSystem` | app/utils/gemini_client.py:44-49 | a leading system message becomes the context and is dropped from the conversation; otherwise the context is empty and all messages stay |
| `GeminiClient.ContextPart` | app/utils/gemini_client.py:58-65 | the context block is present exactly when there is a context, and carries it verbatim after its heading |
| `GeminiClient.ReplyInstructionShape` | app/utils/gemini_client.py:53-74 | the instruction opens with the introduction, and without a context is just the introduction and the output format |
| `GeminiClient.FirstSuccessWins` | app/utils/gemini_client.py:78-89 | the first model that answers wins, with an error on record exactly when an earlier model raised |
| `GeminiClient.AllModelsFail` | app/utils/gemini_client.py:78-91 | when every model raises the raw text stays "{}" with an error on record |
| `GeminiClient.Tried` | app/utils/gemini_client.py:80-85 | no more models are called than are listed |
| `GeminiClient.TriedPrefix` | app/utils/gemini_client.py:80-89 | the models called are the first ones in priority order, all but the last raised, and the loop stops early only at a model that answered |
| `GeminiClient.TryModels` | app/utils/gemini_client.py:78-89 | the loop over the six models leaves the raw text and the error flag of the fallback, and calls exactly the models tried |
| `GeminiClient.TryEach` | app/utils/gemini_client.py:80-89 | the same loop over any model list |
| `GeminiClient.LoopStep` | app/utils/gemini_client.py:80-89 | one model either answers and stops the loop, or raises and hands over to the rest with an error on record |
| `GeminiClient.StripFencesOfFenced` | app/utils/gemini_client.py:98-104 | a fenced body comes out of its fences, whatever the opening fence's language tag |
| `GeminiClient.ExtractJson` | app/utils/gemini_client.py:107-110 | a text with some "{" before some "}" gives a slice running from a "{" to a "}"; a text where no "{" comes before a "}" (in particular one missing either brace) is returned unchanged |
| `GeminiClient.ExtractJsonIdempotent` | app/utils/gemini_client.py:107-110 | extracting twice is extracting once |
| `GeminiClient.ExtractJsonSurrounded` | app/utils/gemini_client.py:107-110 | an object between text without "{" and text without "}" is exactly what is extracted |
| `GeminiClient.ReplyFromFields` | app/utils/gemini_client.py:114-129 | both texts stripped and never empty; an empty or missing field, or a parse error, falls back to its fixed text |
| `GeminiClient.ReplyOf` | app/utils/gemini_client.py:36-129 | the reply and its translation are never empty, and are the fixed pair when some model raised and no text came back |
| `GeminiClient.ReplyAllModelsFail` | app/utils/gemini_client.py:91-96 | when every model raises, the reply is the fixed pair |
| `GeminiClient.ReplyFirstModelAnswers` | app/utils/gemini_client.py:112-122 | a parsable reply of the first model is used, stripped |
| `GeminiClient.GenerateResponse` | app/utils/gemini_client.py:36-129 | the reply of the message list, calling exactly the models the fallback tries |
| `GeminiClient.ToMistake` | app/utils/gemini_client.py:231-243 | an entry becomes a mistake exactly when it is an object with one of the three type literals, keeping its texts |
| `GeminiClient.ValidMistakesKeepsAll` | app/utils/gemini_client.py:229-243 | when every entry is well formed all are kept, in order |
| `GeminiClient.ValidMistakesSkipsInvalid` | app/utils/gemini_client.py:241-243 | malformed entries at the end of the list leave no trace |
| `GeminiClient.ValidMistakesAppend` | app/utils/gemini_client.py:229-243 | the entries kept from two joined lists are those kept from each, in order |
| `GeminiClient.ValidMistakesSkipsBetween` | app/utils/gemini_client.py:241-243 | a malformed entry anywhere in the list, before, between or after well-formed ones, leaves no trace |
| `GeminiClient.CollectMistakes` | app/utils/gemini_client.py:229-243 | the loop keeps the well-formed entries in order and skips the rest |
| `GeminiClient.ClampScore` | app/utils/gemini_client.py:246 | the score clamped into [0, 100], unchanged inside it |
| `GeminiClient.GrammarOutcome` | app/utils/gemini_client.py:190-253 | the grammar score is in [0, 100] whatever the model and the parser return |
| `GeminiClient.GrammarOf` | app/utils/gemini_client.py:132-257 | the score is in [0, 100], and a blank transcript gets the fixed no-transcript tuple |
| `GeminiClient.GrammarTried` | app/utils/gemini_client.py:143-144 | no model is called exactly for a blank transcript |
| `GeminiClient.GrammarFeedbackFromGemini` | app/utils/gemini_client.py:132-257 | the grammar feedback of the transcript, calling exactly the models the fallback tries |
| `GeminiClient.UnparsableIsNeutral` | app/utils/gemini_client.py:216-223 | a reply the parser cannot read as JSON scores a neutral 50 with the parse-error tip |
| `GeminiClient.GrammarFirstModelAnswers` | app/utils/gemini_client.py:178-253 | when the first model answers with text the parser reads, the feedback is the clamped score, the tip, the well-formed mistakes and the translation |
| `GeminiClient.GrammarAllModelsFail` | app/utils/gemini_client.py:190-195 | when every model raises, a non-blank transcript gets the model-error tuple |
| `ChatModel.Clause` | app/models/chat_model.py:29-38 | one clause for a used field and none otherwise, never empty |
| `ChatModel.InitParts` | app/models/chat_model.py:28-38 | at most five non-empty clauses, and none exactly when no field is used |
| `ChatModel.SystemContentShape` | app/models/chat_model.py:40-46 | the content opens with the base instruction and a space, and is exactly that when no field is used |
| `ChatModel.ScenarioOnly` | app/models/chat_model.py:29-46 | a scenario-only configuration names its scenario after the base instruction |
| `ChatModel.ChatStore.constructor` | app/models/chat_model.py:19-20 | a new store holds no sessions |
| `ChatModel.ChatStore.GetSession` | app/models/chat_model.py:52-53 | the stored state of an id, and nothing exactly for an unknown id |
| `ChatModel.ChatStore.CreateSession` | app/models/chat_model.py:22-50 | the new state carries the arguments and exactly one system message of the configuration; it is stored under its id and every other session is left as it was |
| `ChatRouter.ProcessChatTurn` | app/routers/chat_router.py:31-149 | the turn handler yields the expected turn and calls the expected collaborators in order |
| `ChatRouter.RecognizeTurn` | app/routers/chat_router.py:35-149 | from the decoded audio on: a recognition failure aborts, otherwise the stripped transcript is scored |
| `ChatRouter.ScoreTurn` | app/routers/chat_router.py:37-69 | from the transcript on: the gate, the immediate answer, or the assessment and the full answer |
| `ChatRouter.AssessAndAnswer` | app/routers/chat_router.py:71-78 | an assessment error aborts the turn, otherwise the full answer follows the assessment |
| `ChatRouter.AnswerTurn` | app/routers/chat_router.py:80-147 | the full answer and its calls: pitch tracker, grammar models, reply models, synthesizer |
| `ChatRouter.ReplyMessages` | app/routers/chat_router.py:97-103 | the config's system message first when there is a config, then the context unchanged, then the learner's transcript as a user message |
| `ChatRouter.BuildReplyMessages` | app/routers/chat_router.py:97-103 | the message list the reply is asked for |
| `ChatRouter.AssembleFeedback` | app/routers/chat_router.py:109-127 | the feedback of the scores, rounded one by one and then averaged |
| `ChatRouter.TotalScoreBounds` | app/routers/chat_router.py:114-117 | four scores in [0, 100] give a total in [0, 100] |
| `ChatRouter.TotalScorePerfect` | app/routers/chat_router.py:114-117 | four full marks give full marks |
| `ChatRouter.TurnFeedbackFacts` | app/routers/chat_router.py:109-127 | the total averages the four rounded scores, bounded scores stay bounded, and the tip is never empty while the reply is not |
| `ChatRouter.EarlyFailures` | app/routers/chat_router.py:33-35 | a decode or recognition failure aborts the turn before anything else is called |
| `ChatRouter.RecognizedStage` | app/routers/chat_router.py:33-35 | once the audio is recognized, the turn is that of its stripped transcript, after the decoder and the recognizer |
| `ChatRouter.ShortCircuitTurn` | app/routers/chat_router.py:50-69 | a short-circuited turn scores 0 everywhere, is unintelligible, has no audio, translation or mistakes, reports the recognized transcript or else the client's, and calls nothing after recognition |
| `ChatRouter.NoClientTranscriptNoGate` | app/routers/chat_router.py:42 | without a client transcript the gate never fires |
| `ChatRouter.NothingRecognizedIsUnintelligible` | app/routers/chat_router.py:42-46 | a client transcript against an empty recognized one is unintelligible |
| `ChatRouter.AgreeingTranscriptsPass` | app/routers/chat_router.py:42-51 | transcripts equal up to letter case pass the gate |
| `ChatRouter.OneWrongWordIsUnintelligible` | app/routers/chat_router.py:42-46 | "I go to school yesterday" against "I went to school yesterday" with 22 matched characters has similarity 0.88 and is unintelligible |
| `ChatRouter.FullTurnFacts` | app/routers/chat_router.py:109-147 | a fully assessed turn is intelligible, reports the chosen transcript and a translation, keeps intonation and grammar in [0, 100], and never has an empty tip, reply or translation |
| `ChatRouter.TipFallsBackToReply` | app/routers/chat_router.py:125-126 | the tip is the grammar tip, or the reply when that is empty; the mistakes are the grammar evaluation's |
| `ChatRouter.TtsFailureNotFatal` | app/routers/chat_router.py:130-137 | a synthesis failure loses only the audio |
| `ChatRouter.FullTurnAnswers` | app/routers/chat_router.py:71-149 | recognized speech, a passed gate and a successful assessment give the full answer |
| `ChatRouter.FullTurnCalls` | app/routers/chat_router.py:71-134 | such a turn calls the assessment, the pitch tracker, the grammar models, the reply models and the synthesizer, in that order |
| `ChatRouter.FullTraceEnds` | app/routers/chat_router.py:81-134 | the calls after the assessment open with the pitch tracker and close with the synthesizer |
| `SentenceEval.Band` | app/models/sentence_eval.py:15-22 | each of the three bands exactly for its score range |
| `SentenceEval.FeedbackFor` | app/models/sentence_eval.py:15-22 | exactly one of the three sentences, each exactly for its score range |
| `SentenceEval.BandMonotone` | app/models/sentence_eval.py:15-22 | a higher similarity never earns a lower band |
| `SentenceEval.Evaluate` | app/models/sentence_eval.py:10-24 | the similarity rounded to three decimals and the feedback of the unrounded score |

## Left out

- Audio and SDK plumbing are not modelled: speech and translation configuration, base64 decoding and file writing, the continuous recognition callbacks and the sleep loop. Their results are inputs: the decoder's path, the recognizer's result and the recognition segments.
- The body of `tts_to_wav_base64` is an input, a synthesizer call returning audio or `None`. This covers its SSML branch for rates other than 1.0 and its file round trip.
- The diff algorithm itself is an input. `difflib.SequenceMatcher`'s opcodes arrive through a parameter constrained by `AzureSpeech.IsDiff` to contiguous, correctly shaped opcodes whose equal ranges match. Its choice among equally long matches is not modelled.
- ChatService.Similarity: the matcher's count of matched characters is an input, constrained only by `ChatService.IsMatcher` (no more matches than either string has, a string matches itself fully); the exact ratio of `SequenceMatcher` is not reproduced.
- The pitch tracker (parselmouth, numpy) is an input: its statistics and its samples arrive as values, and `None` stands for a measurement that raised.
- The sentence embedding model is an input: the cosine similarity of the two definitions arrives as a number.
- The model calls (`genai`) are an input: each call returns its text or raises (`None`). JSON parsing is an input too: the parsed fields, or the reason parsing failed.
- The `str()` rendering of non-string JSON values (`null` becomes "None", `7` becomes "7") is left to the parser, which returns the fields already rendered; rendering never fails, so processing goes on with them. Only a `float()` failure on the grammar score, a JSON value that is not an object, or a `mistakes` value that cannot be iterated is the parser's `Unusable` answer, which yields the model-error tuple, as the outer `except` does.
- Numeric.Round1: rounds halves upwards on exact reals; Python's `round` rounds halves to even on binary floats, and that difference is not modelled. Floating point in general is modelled as real arithmetic, and NaN and infinities are left out.
- Text.Lower: ASCII letters only; Unicode case mapping is left out.
- Text.SplitLines: only `'\n'` ends a line; the other line boundaries of `str.splitlines` are not modelled.
- Intonation.ScoreFromPercent: requires a positive lower band edge, which every call in the source has (80 and 70); the division by zero for a band starting at 0 is not modelled.
- The session id comes from `uuid.uuid4()`, which is random, so `ChatModel.ChatStore.CreateSession` takes the id as a parameter.
- The store keeps a copy of a session's state. In the source, the returned `ChatState` object and the stored one are the same object, and later mutations through either are shared. That aliasing is not modelled.
- The in-place relabelling of recognized words to "Insertion" is modelled by threading the recognized list through the alignment loop. Identity of word objects shared between the final list and the recognized list is therefore not modelled, beyond being the same value.
- Logging with `print` is left out.
- `pitch_per_word` is modelled, but the turn handler does not call it, exactly as in the source.
