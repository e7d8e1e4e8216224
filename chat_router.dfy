/** One speaking turn: decode and transcribe the learner's audio, gate the
    turn on agreement with the client's own transcript, and either answer at
    once with zero scores or assess pronunciation, intonation and grammar,
    ask for the bot's reply and synthesize it. Every outside service is a
    collaborator passed in; the ghost trace records which ones the turn
    called, in order. */
module ChatRouter {
  import opened Wrappers
  import opened Text
  import opened Numeric
  import opened ChatSchema
  import opened AzureSpeech
  import opened Intonation
  import opened ChatService
  import opened GeminiClient

  const SimilarityThreshold := 0.9

  const QuickTip := "I couldn't clearly understand this sentence. Please speak a bit slower and more clearly."
  const QuickBotText := "I had trouble understanding you. Could you repeat that more slowly?"
  const QuickBotTranslation := "Tôi hơi khó nghe rõ. Bạn có thể nói lại chậm hơn không?"

  const SourceLang := "en"
  const TargetLang := "vi"

  /** The services a turn calls. `decode` writes the audio and gives its
      path (`None` if it raised); `recognize` is the speech recognizer's
      result for a path; `assess` the segments of continuous recognition
      against a reference text; `pitchStats` and `pitchSamples` the pitch
      tracker's two measurements (`None` if raised); `tts` the synthesized
      audio of a text in a voice at a rate (`None` if raised). */
  datatype Collaborators = Collaborators(
    decode: string -> Option<string>,
    recognize: string -> SpeechResult,
    assess: (string, string) -> seq<Segment>,
    diff: Differ,
    formatScore: real -> string,
    pitchStats: string -> Option<PitchStats>,
    pitchSamples: string -> Option<seq<real>>,
    matcher: Matcher,
    llm: Llm,
    parseReply: ReplyParser,
    parseGrammar: GrammarParser,
    tts: (string, string, real) -> Option<string>)

  /** The failures that abort a turn. */
  datatype TurnError = DecodeFailed | SttFailed(reason: ResultReason) | AssessmentFailed(error: ScoreError)

  /** A collaborator call, as recorded in the trace. */
  datatype Call = DecodeAudio | RecognizeSpeech | AssessPronunciation | MeasurePitch | AskModel(model: string) | Synthesize

  function Asks(models: seq<string>): (r: seq<Call>)
    ensures |r| == |models|
    ensures forall k :: 0 <= k < |models| ==> r[k] == AskModel(models[k])
  {
    seq(|models|, k requires 0 <= k < |models| => AskModel(models[k]))
  }

  /** The client's transcript, stripped; a missing one counts as empty. */
  function ClientTranscript(req: ChatTurnRequest): string {
    Strip(req.userTranscript.GetOr(""))
  }

  /** The gate: only a client transcript can make a turn unintelligible, by
      agreeing with the recognized one less than the threshold. */
  predicate Unintelligible(matcher: Matcher, userTxt: string, azureTranscript: string) {
    userTxt != "" && Similarity(matcher, userTxt, azureTranscript) < SimilarityThreshold
  }

  /** A turn is answered at once when it is unintelligible or nothing was recognized. */
  predicate ShortCircuit(matcher: Matcher, userTxt: string, azureTranscript: string) {
    Unintelligible(matcher, userTxt, azureTranscript) || azureTranscript == ""
  }

  /** The immediate answer: zero scores and the fixed texts. */
  function QuickTurn(azureTranscript: string, userTxt: string): TurnResponse {
    TurnResponse(
      Feedback(0.0, 0.0, 0.0, 0.0, 0.0, QuickTip, []),
      QuickBotText, QuickBotTranslation,
      if azureTranscript != "" then azureTranscript else userTxt,
      None, true, None)
  }

  /** The messages sent for the reply: the config's system message first when
      there is a config, then the request's context, then the learner's turn. */
  function ReplyMessages(context: seq<ChatMessage>, transcript: string, config: Option<SpeakingConfig>): (r: seq<ChatMessage>)
    ensures |r| == |context| + 1 + (if config.Some? then 1 else 0)
    ensures r[|r| - 1] == ChatMessage(User, transcript)
    ensures config.Some? ==> r[0] == ChatMessage(System, JoinWith(SystemParts(config.value), " "))
    ensures var offset := if config.Some? then 1 else 0;
      forall k :: 0 <= k < |context| ==> r[k + offset] == context[k]
  {
    (if config.Some? then [ChatMessage(System, JoinWith(SystemParts(config.value), " "))] else [])
    + context + [ChatMessage(User, transcript)]
  }

  /** The turn's total: the mean of the four scores, each rounded to one
      decimal first, rounded to one decimal. */
  function TotalScore(pronunciation: real, fluency: real, grammar: real, intonation: real): real {
    Round1((Round1(pronunciation) + Round1(fluency) + Round1(grammar) + Round1(intonation)) / 4.0)
  }

  /** Four scores in [0, 100] give a total in [0, 100]. */
  lemma TotalScoreBounds(pronunciation: real, fluency: real, grammar: real, intonation: real)
    requires 0.0 <= pronunciation <= 100.0 && 0.0 <= fluency <= 100.0
    requires 0.0 <= grammar <= 100.0 && 0.0 <= intonation <= 100.0
    ensures 0.0 <= TotalScore(pronunciation, fluency, grammar, intonation) <= 100.0
  {
    Round1Bounds(pronunciation);
    Round1Bounds(fluency);
    Round1Bounds(grammar);
    Round1Bounds(intonation);
    Round1Bounds((Round1(pronunciation) + Round1(fluency) + Round1(grammar) + Round1(intonation)) / 4.0);
  }

  /** Four full marks give full marks. */
  lemma TotalScorePerfect()
    ensures TotalScore(100.0, 100.0, 100.0, 100.0) == 100.0
  {
    Round1Exact(1000);
    assert 100.0 == 1000 as real / 10.0;
  }

  /** The feedback of a fully assessed turn: the four scores rounded to one
      decimal, their total, the grammar tip or else the reply, and the
      grammar mistakes. */
  function TurnFeedback(accuracy: real, fluency: real, grammar: GrammarFeedback, intonation: real, botText: string): Feedback {
    Feedback(Round1(accuracy), Round1(fluency), Round1(intonation), Round1(grammar.score),
      TotalScore(accuracy, fluency, grammar.score, intonation),
      if grammar.tip != "" then grammar.tip else botText,
      grammar.mistakes)
  }

  /** The response of a fully assessed turn. */
  function FullTurn(req: ChatTurnRequest, c: Collaborators, audioPath: string, transcript: string, scores: (real, real)): TurnResponse {
    var intonation := CalculateIntonation(c.pitchStats(audioPath), c.pitchSamples(audioPath));
    var grammar := GrammarOf(transcript, SourceLang, TargetLang, c.llm, c.parseGrammar);
    var reply := ReplyOf(ReplyMessages(req.context, transcript, req.config), TargetLang, c.llm, c.parseReply);
    var tts := TtsParameters(req.config);
    TurnResponse(
      TurnFeedback(scores.0, scores.1, grammar, intonation, reply.0),
      reply.0, reply.1, transcript, Some(grammar.userTranslation), false,
      c.tts(reply.0, tts.0, tts.1))
  }

  /** The calls of a fully assessed turn after the assessment: the pitch
      tracker, the models asked for grammar, the models asked for the reply,
      and the synthesizer. */
  function FullTrace(grammarTried: seq<string>, replyTried: seq<string>): seq<Call> {
    [MeasurePitch] + Asks(grammarTried) + Asks(replyTried) + [Synthesize]
  }

  /** The models asked about the grammar of the transcript. */
  function GrammarModels(c: Collaborators, transcript: string): seq<string> {
    GrammarTried(transcript, SourceLang, TargetLang, c.llm)
  }

  /** The models asked for the reply to the transcript. */
  function ReplyModels(req: ChatTurnRequest, c: Collaborators, transcript: string): seq<string> {
    Tried(Models, c.llm, ReplyPrompt(ReplyMessages(req.context, transcript, req.config), TargetLang))
  }

  /** What a turn that passed the gate yields: an assessment error, or the full answer. */
  function AssessedTurn(req: ChatTurnRequest, c: Collaborators, audioPath: string, transcript: string): Result<ChatTurnResponse, TurnError>
    requires IsDiff(c.diff)
  {
    match AssessedScores(transcript, c.assess(audioPath, transcript), c.diff)
    case Err(e) => Err(AssessmentFailed(e))
    case Ok(scores) => Ok(ChatTurnResponse(FullTurn(req, c, audioPath, transcript, scores)))
  }

  /** The calls of a turn that passed the gate. */
  function AssessedTrace(req: ChatTurnRequest, c: Collaborators, audioPath: string, transcript: string): seq<Call>
    requires IsDiff(c.diff)
  {
    if AssessedScores(transcript, c.assess(audioPath, transcript), c.diff).Err? then [AssessPronunciation]
    else [AssessPronunciation] + FullTrace(GrammarModels(c, transcript), ReplyModels(req, c, transcript))
  }

  /** What a turn yields once its audio is recognized. */
  function RecognizedTurn(req: ChatTurnRequest, c: Collaborators, audioPath: string, azureTranscript: string): Result<ChatTurnResponse, TurnError>
    requires IsDiff(c.diff)
  {
    var userTxt := ClientTranscript(req);
    if ShortCircuit(c.matcher, userTxt, azureTranscript) then Ok(ChatTurnResponse(QuickTurn(azureTranscript, userTxt)))
    else AssessedTurn(req, c, audioPath, azureTranscript)
  }

  /** The calls a turn makes once its audio is recognized. */
  function RecognizedTrace(req: ChatTurnRequest, c: Collaborators, audioPath: string, azureTranscript: string): seq<Call>
    requires IsDiff(c.diff)
  {
    if ShortCircuit(c.matcher, ClientTranscript(req), azureTranscript) then []
    else AssessedTrace(req, c, audioPath, azureTranscript)
  }

  /** What a turn yields once its audio is decoded. */
  function DecodedTurn(req: ChatTurnRequest, c: Collaborators, audioPath: string): Result<ChatTurnResponse, TurnError>
    requires IsDiff(c.diff)
  {
    match SttFromResult(c.recognize(audioPath))
    case Err(reason) => Err(SttFailed(reason))
    case Ok(text) => RecognizedTurn(req, c, audioPath, Strip(text))
  }

  /** The calls a turn makes once its audio is decoded. */
  function DecodedTrace(req: ChatTurnRequest, c: Collaborators, audioPath: string): seq<Call>
    requires IsDiff(c.diff)
  {
    match SttFromResult(c.recognize(audioPath))
    case Err(_) => [RecognizeSpeech]
    case Ok(text) => [RecognizeSpeech] + RecognizedTrace(req, c, audioPath, Strip(text))
  }

  /** What a turn yields. */
  function ExpectedTurn(req: ChatTurnRequest, c: Collaborators): Result<ChatTurnResponse, TurnError>
    requires IsDiff(c.diff)
  {
    match c.decode(req.audioBase64)
    case None => Err(DecodeFailed)
    case Some(audioPath) => DecodedTurn(req, c, audioPath)
  }

  /** The collaborators a turn calls, in order. */
  function ExpectedTrace(req: ChatTurnRequest, c: Collaborators): seq<Call>
    requires IsDiff(c.diff)
  {
    match c.decode(req.audioBase64)
    case None => [DecodeAudio]
    case Some(audioPath) => [DecodeAudio] + DecodedTrace(req, c, audioPath)
  }

  /** The turn handler: decodes the audio, then recognizes and scores it. */
  method ProcessChatTurn(req: ChatTurnRequest, c: Collaborators)
    returns (r: Result<ChatTurnResponse, TurnError>, ghost trace: seq<Call>)
    requires IsDiff(c.diff)
    ensures r == ExpectedTurn(req, c)
    ensures trace == ExpectedTrace(req, c)
  {
    trace := [DecodeAudio];
    var decoded := c.decode(req.audioBase64);
    if decoded.None? {
      r := Err(DecodeFailed);
      return;
    }
    ghost var rest;
    r, rest := RecognizeTurn(req, c, decoded.value);
    trace := trace + rest;
  }

  /** The turn from the decoded audio on: speech recognition, then scoring. */
  method RecognizeTurn(req: ChatTurnRequest, c: Collaborators, audioPath: string)
    returns (r: Result<ChatTurnResponse, TurnError>, ghost trace: seq<Call>)
    requires IsDiff(c.diff)
    ensures r == DecodedTurn(req, c, audioPath)
    ensures trace == DecodedTrace(req, c, audioPath)
  {
    trace := [RecognizeSpeech];
    var stt := SttFromResult(c.recognize(audioPath));
    if stt.Err? {
      r := Err(SttFailed(stt.error));
      return;
    }
    var azureTranscript := Strip(stt.value);
    ghost var rest;
    r, rest := ScoreTurn(req, c, audioPath, azureTranscript);
    trace := trace + rest;
  }

  /** The turn from the recognized transcript on: the gate, the immediate
      answer, or the assessment and the full answer. */
  method ScoreTurn(req: ChatTurnRequest, c: Collaborators, audioPath: string, azureTranscript: string)
    returns (r: Result<ChatTurnResponse, TurnError>, ghost trace: seq<Call>)
    requires IsDiff(c.diff)
    ensures r == RecognizedTurn(req, c, audioPath, azureTranscript)
    ensures trace == RecognizedTrace(req, c, audioPath, azureTranscript)
  {
    trace := [];
    var userTxt := Strip(req.userTranscript.GetOr(""));
    var chosenTranscript := azureTranscript;
    var isUnintelligible := false;
    if userTxt != "" {
      var sim := Similarity(c.matcher, userTxt, azureTranscript);
      if sim < 0.9 {
        isUnintelligible := true;
      } else {
        chosenTranscript := azureTranscript;
      }
    }

    if isUnintelligible || chosenTranscript == "" {
      var feedback := Feedback(0.0, 0.0, 0.0, 0.0, 0.0, QuickTip, []);
      var turn := TurnResponse(feedback, QuickBotText, QuickBotTranslation,
        if azureTranscript != "" then azureTranscript else userTxt, None, true, None);
      r := Ok(ChatTurnResponse(turn));
      return;
    }

    r, trace := AssessAndAnswer(req, c, audioPath, chosenTranscript);
  }

  /** The assessment of a turn that passed the gate, and its full answer. */
  method AssessAndAnswer(req: ChatTurnRequest, c: Collaborators, audioPath: string, chosenTranscript: string)
    returns (r: Result<ChatTurnResponse, TurnError>, ghost trace: seq<Call>)
    requires IsDiff(c.diff)
    ensures r == AssessedTurn(req, c, audioPath, chosenTranscript)
    ensures trace == AssessedTrace(req, c, audioPath, chosenTranscript)
  {
    trace := [AssessPronunciation];
    var segments := c.assess(audioPath, chosenTranscript);
    var assessment := PronunciationAssessment(chosenTranscript, segments, c.diff, c.formatScore);
    if assessment.Err? {
      r := Err(AssessmentFailed(assessment.error));
      return;
    }
    assert AssessedScores(chosenTranscript, segments, c.diff) == Ok((assessment.value.accuracy, assessment.value.fluency));
    var turn, rest := AnswerTurn(req, c, audioPath, chosenTranscript, assessment.value.accuracy, assessment.value.fluency);
    trace := [AssessPronunciation] + rest;
    r := Ok(ChatTurnResponse(turn));
  }

  /** The full answer of an assessed turn: intonation, grammar, the reply,
      the rounded scores and the synthesized audio. */
  method AnswerTurn(req: ChatTurnRequest, c: Collaborators, audioPath: string, chosenTranscript: string, accuracy: real, fluency: real)
    returns (turn: TurnResponse, ghost trace: seq<Call>)
    ensures turn == FullTurn(req, c, audioPath, chosenTranscript, (accuracy, fluency))
    ensures trace == FullTrace(GrammarModels(c, chosenTranscript), ReplyModels(req, c, chosenTranscript))
  {
    trace := [MeasurePitch];
    var intonationScore := CalculateIntonation(c.pitchStats(audioPath), c.pitchSamples(audioPath));

    var grammar, grammarTried := GrammarFeedbackFromGemini(chosenTranscript, SourceLang, TargetLang, c.llm, c.parseGrammar);
    trace := trace + Asks(grammarTried);

    var messages := BuildReplyMessages(req.context, chosenTranscript, req.config);
    var botText, botTranslation, replyTried := GenerateResponse(messages, TargetLang, c.llm, c.parseReply);
    trace := trace + Asks(replyTried);

    var feedback := AssembleFeedback(accuracy, fluency, grammar, intonationScore, botText);

    var ttsParameters := TtsParameters(req.config);
    trace := trace + [Synthesize];
    var botAudioBase64 := c.tts(botText, ttsParameters.0, ttsParameters.1);

    turn := TurnResponse(feedback, botText, botTranslation, chosenTranscript,
      Some(grammar.userTranslation), false, botAudioBase64);
  }

  /** The message list for the reply: the context, the learner's message
      appended, and the config's system message inserted in front. */
  method BuildReplyMessages(context: seq<ChatMessage>, chosenTranscript: string, config: Option<SpeakingConfig>)
    returns (messages: seq<ChatMessage>)
    ensures messages == ReplyMessages(context, chosenTranscript, config)
  {
    messages := context;
    messages := messages + [ChatMessage(User, chosenTranscript)];
    if config.Some? {
      var systemMessage := BuildSystemMessageFromConfig(config.value);
      messages := [systemMessage] + messages;
    }
  }

  /** The scores rounded one by one, then averaged and rounded again. */
  method AssembleFeedback(accuracy: real, fluency: real, grammar: GrammarFeedback, intonationScore: real, botText: string)
    returns (feedback: Feedback)
    ensures feedback == TurnFeedback(accuracy, fluency, grammar, intonationScore, botText)
  {
    var pronunciationScore := Round1(accuracy);
    var fluencyScore := Round1(fluency);
    var grammarScore := Round1(grammar.score);
    var roundedIntonation := Round1(intonationScore);
    var totalScore := Round1((pronunciationScore + fluencyScore + grammarScore + roundedIntonation) / 4.0);
    feedback := Feedback(pronunciationScore, fluencyScore, roundedIntonation, grammarScore, totalScore,
      if grammar.tip != "" then grammar.tip else botText, grammar.mistakes);
  }

  // ---------------------------------------------------------------------
  // Properties of a turn

  /** Audio that decodes and is recognized, as the turn sees it. */
  predicate Recognized(req: ChatTurnRequest, c: Collaborators) {
    c.decode(req.audioBase64).Some? && c.recognize(c.decode(req.audioBase64).value).reason == RecognizedSpeech
  }

  function AzureTranscript(req: ChatTurnRequest, c: Collaborators): string
    requires Recognized(req, c)
  {
    Strip(c.recognize(c.decode(req.audioBase64).value).text)
  }

  /** Decode and recognition failures abort the turn before anything else is called. */
  lemma EarlyFailures(req: ChatTurnRequest, c: Collaborators)
    requires IsDiff(c.diff)
    ensures c.decode(req.audioBase64).None? ==> ExpectedTurn(req, c) == Err(DecodeFailed) && ExpectedTrace(req, c) == [DecodeAudio]
    ensures c.decode(req.audioBase64).Some? && !Recognized(req, c) ==>
      ExpectedTurn(req, c) == Err(SttFailed(c.recognize(c.decode(req.audioBase64).value).reason)) &&
      ExpectedTrace(req, c) == [DecodeAudio, RecognizeSpeech]
  {
  }

  /** A short-circuited turn scores zero everywhere, is marked unintelligible,
      reports the recognized transcript or else the client's, and calls
      nothing after recognition. */
  lemma ShortCircuitTurn(req: ChatTurnRequest, c: Collaborators)
    requires IsDiff(c.diff) && Recognized(req, c)
    requires ShortCircuit(c.matcher, ClientTranscript(req), AzureTranscript(req, c))
    ensures ExpectedTurn(req, c).Ok?
    ensures var t := ExpectedTurn(req, c).value.turn;
      t.isUnintelligible && t.botAudioBase64 == None && t.userTranslation == None &&
      t.feedback.pronunciationScore == 0.0 && t.feedback.fluencyScore == 0.0 &&
      t.feedback.intonationScore == 0.0 && t.feedback.grammarScore == 0.0 && t.feedback.totalScore == 0.0 &&
      t.feedback.mistakes == [] &&
      t.userTranscript == (if AzureTranscript(req, c) != "" then AzureTranscript(req, c) else ClientTranscript(req))
    ensures ExpectedTrace(req, c) == [DecodeAudio, RecognizeSpeech]
  {
  }

  /** Without a client transcript the gate never fires. */
  lemma NoClientTranscriptNoGate(matcher: Matcher, azureTranscript: string)
    ensures !Unintelligible(matcher, "", azureTranscript)
  {
  }

  /** A client transcript with nothing recognized is unintelligible. */
  lemma NothingRecognizedIsUnintelligible(matcher: Matcher, userTxt: string)
    requires IsMatcher(matcher) && userTxt != ""
    ensures Unintelligible(matcher, userTxt, "")
  {
    assert Lower("") == "";
    assert matcher(Lower(userTxt), Lower("")) == 0;
  }

  /** Transcripts equal up to letter case pass the gate. */
  lemma AgreeingTranscriptsPass(matcher: Matcher, userTxt: string, azureTranscript: string)
    requires IsMatcher(matcher) && Lower(userTxt) == Lower(azureTranscript) && azureTranscript != ""
    ensures !ShortCircuit(matcher, userTxt, azureTranscript)
  {
  }

  /** One wrong word out of five: with the 22 matched characters a sequence
      matcher finds, the ratio is 0.88 and the turn is unintelligible. */
  lemma OneWrongWordIsUnintelligible(matcher: Matcher, said: string, heard: string)
    requires said == "i go to school yesterday" && heard == "i went to school yesterday"
    requires matcher(Lower(said), Lower(heard)) == 22
    ensures Similarity(matcher, said, heard) == 0.88
    ensures Unintelligible(matcher, said, heard)
  {
    assert |said| == 24;
    assert |heard| == 26;
    assert 2.0 * 22 as real / 50 as real == 0.88;
  }

  /** The rounded feedback: every score rounded to one decimal, a total
      averaging the four rounded scores, scores in [0, 100] staying there, and
      a tip that is never empty while the reply is not. */
  lemma TurnFeedbackFacts(accuracy: real, fluency: real, grammar: GrammarFeedback, intonation: real, botText: string)
    ensures var f := TurnFeedback(accuracy, fluency, grammar, intonation, botText);
      f.totalScore == Round1((f.pronunciationScore + f.fluencyScore + f.grammarScore + f.intonationScore) / 4.0) &&
      (botText != "" ==> f.improvementTip != "") &&
      (0.0 <= intonation <= 100.0 ==> 0.0 <= f.intonationScore <= 100.0) &&
      (0.0 <= grammar.score <= 100.0 ==> 0.0 <= f.grammarScore <= 100.0)
  {
    if 0.0 <= intonation <= 100.0 {
      Round1Bounds(intonation);
    }
    if 0.0 <= grammar.score <= 100.0 {
      Round1Bounds(grammar.score);
    }
  }

  /** A fully assessed turn: not unintelligible, the given transcript as the
      learner's, intonation and grammar scores within [0, 100], and a tip, a
      reply and a translation never empty. */
  lemma FullTurnFacts(req: ChatTurnRequest, c: Collaborators, audioPath: string, transcript: string, scores: (real, real))
    ensures var t := FullTurn(req, c, audioPath, transcript, scores);
      !t.isUnintelligible && t.userTranscript == transcript && t.userTranslation.Some? &&
      0.0 <= t.feedback.intonationScore <= 100.0 && 0.0 <= t.feedback.grammarScore <= 100.0 &&
      t.feedback.improvementTip != "" && t.botText != "" && t.botTranslation != ""
  {
    var intonation := CalculateIntonation(c.pitchStats(audioPath), c.pitchSamples(audioPath));
    var grammar := GrammarOf(transcript, SourceLang, TargetLang, c.llm, c.parseGrammar);
    var reply := ReplyOf(ReplyMessages(req.context, transcript, req.config), TargetLang, c.llm, c.parseReply);
    TurnFeedbackFacts(scores.0, scores.1, grammar, intonation, reply.0);
  }

  /** The tip is the grammar tip, or the bot's reply when the grammar tip is
      empty; the mistakes are the grammar evaluation's. */
  lemma TipFallsBackToReply(req: ChatTurnRequest, c: Collaborators, audioPath: string, transcript: string, scores: (real, real))
    ensures var t := FullTurn(req, c, audioPath, transcript, scores);
      var grammar := GrammarOf(transcript, SourceLang, TargetLang, c.llm, c.parseGrammar);
      t.feedback.improvementTip == (if grammar.tip != "" then grammar.tip else t.botText) &&
      t.feedback.mistakes == grammar.mistakes
  {
  }

  /** A synthesis failure loses only the audio: the turn still completes as intelligible. */
  lemma TtsFailureNotFatal(req: ChatTurnRequest, c: Collaborators, audioPath: string, transcript: string, scores: (real, real))
    requires forall text: string, voice: string, rate: real :: c.tts(text, voice, rate).None?
    ensures FullTurn(req, c, audioPath, transcript, scores).botAudioBase64 == None
    ensures !FullTurn(req, c, audioPath, transcript, scores).isUnintelligible
  {
  }

  /** Recognized speech, a gate passed and an assessment without error give
      the full answer. */
  lemma FullTurnAnswers(req: ChatTurnRequest, c: Collaborators)
    requires IsDiff(c.diff) && Recognized(req, c)
    requires !ShortCircuit(c.matcher, ClientTranscript(req), AzureTranscript(req, c))
    requires AssessedScores(AzureTranscript(req, c), c.assess(c.decode(req.audioBase64).value, AzureTranscript(req, c)), c.diff).Ok?
    ensures ExpectedTurn(req, c) == Ok(ChatTurnResponse(FullTurn(req, c, c.decode(req.audioBase64).value, AzureTranscript(req, c),
      AssessedScores(AzureTranscript(req, c), c.assess(c.decode(req.audioBase64).value, AzureTranscript(req, c)), c.diff).value)))
  {
  }

  /** Once the audio is recognized, the turn is the recognized-transcript
      stage's, after the decoder and the recognizer. */
  lemma RecognizedStage(req: ChatTurnRequest, c: Collaborators)
    requires IsDiff(c.diff) && Recognized(req, c)
    ensures ExpectedTurn(req, c) == RecognizedTurn(req, c, c.decode(req.audioBase64).value, AzureTranscript(req, c))
    ensures ExpectedTrace(req, c) == [DecodeAudio, RecognizeSpeech] + RecognizedTrace(req, c, c.decode(req.audioBase64).value, AzureTranscript(req, c))
  {
    var audioPath := c.decode(req.audioBase64).value;
    var transcript := AzureTranscript(req, c);
    assert SttFromResult(c.recognize(audioPath)) == Ok(c.recognize(audioPath).text);
    assert DecodedTurn(req, c, audioPath) == RecognizedTurn(req, c, audioPath, transcript);
    assert DecodedTrace(req, c, audioPath) == [RecognizeSpeech] + RecognizedTrace(req, c, audioPath, transcript);
    assert ExpectedTrace(req, c) == [DecodeAudio] + DecodedTrace(req, c, audioPath);
    PrependTwo(DecodeAudio, RecognizeSpeech, RecognizedTrace(req, c, audioPath, transcript));
  }

  lemma PrependTwo(first: Call, second: Call, tail: seq<Call>)
    ensures [first] + ([second] + tail) == [first, second] + tail
  {
  }

  /** A turn that passes the gate and the assessment calls the assessment,
      then the pitch tracker, the models and the synthesizer, in that order. */
  lemma FullTurnCalls(req: ChatTurnRequest, c: Collaborators, audioPath: string, transcript: string)
    requires IsDiff(c.diff)
    requires !ShortCircuit(c.matcher, ClientTranscript(req), transcript)
    requires AssessedScores(transcript, c.assess(audioPath, transcript), c.diff).Ok?
    ensures RecognizedTrace(req, c, audioPath, transcript) ==
      [AssessPronunciation] + FullTrace(GrammarModels(c, transcript), ReplyModels(req, c, transcript))
  {
  }

  /** The calls after the assessment open with the pitch tracker and close with the synthesizer. */
  lemma FullTraceEnds(grammarTried: seq<string>, replyTried: seq<string>)
    ensures |FullTrace(grammarTried, replyTried)| == |grammarTried| + |replyTried| + 2
    ensures FullTrace(grammarTried, replyTried)[0] == MeasurePitch
    ensures FullTrace(grammarTried, replyTried)[|FullTrace(grammarTried, replyTried)| - 1] == Synthesize
  {
  }
}
