/** The request and response records of the chat endpoint. A literal-typed
    field becomes an enumeration, so an out-of-range value cannot be built;
    an optional field with default `None` becomes an `Option` defaulting to
    `None`. */
module ChatSchema {
  import opened Wrappers

  datatype Role = System | User | Assistant

  function RoleName(r: Role): (name: string)
    ensures name in {"system", "user", "assistant"}
  {
    match r
    case System => "system"
    case User => "user"
    case Assistant => "assistant"
  }

  /** The role literal as the validator reads it: only the three names are accepted. */
  function ParseRole(name: string): (r: Option<Role>)
    ensures r.Some? <==> name in {"system", "user", "assistant"}
    ensures r.Some? ==> RoleName(r.value) == name
  {
    if name == "system" then Some(System)
    else if name == "user" then Some(User)
    else if name == "assistant" then Some(Assistant)
    else None
  }

  datatype ChatMessage = ChatMessage(role: Role, content: string)

  datatype BotSpeed = Slow | Normal | Fast

  /** The session configuration sent with a turn; every field is optional. */
  datatype SpeakingConfig = SpeakingConfig(
    scenario: Option<string> := None,
    level: Option<string> := None,
    userRole: Option<string> := None,
    botTone: Option<string> := None,
    goal: Option<string> := None,
    durationMinutes: Option<int> := None,
    botSpeed: Option<BotSpeed> := None)

  /** The configuration a stored session is created with. */
  datatype ChatInitConfig = ChatInitConfig(
    scenario: Option<string> := None,
    level: Option<string> := None,
    userRole: Option<string> := None,
    botTone: Option<string> := None,
    goal: Option<string> := None)

  datatype ChatTurnRequest = ChatTurnRequest(
    context: seq<ChatMessage>,
    audioBase64: string,
    userTranscript: Option<string> := None,
    config: Option<SpeakingConfig> := None)

  datatype MistakeType = Grammar | Vocabulary | Pronunciation

  /** The mistake-type literal as the validator reads it. */
  function ParseMistakeType(name: string): (t: Option<MistakeType>)
    ensures t.Some? <==> name in {"grammar", "vocabulary", "pronunciation"}
  {
    if name == "grammar" then Some(Grammar)
    else if name == "vocabulary" then Some(Vocabulary)
    else if name == "pronunciation" then Some(Pronunciation)
    else None
  }

  datatype Mistake = Mistake(original: string, correction: string, kind: MistakeType, explanation: string)

  datatype Feedback = Feedback(
    pronunciationScore: real,
    fluencyScore: real,
    intonationScore: real,
    grammarScore: real,
    totalScore: real,
    improvementTip: string,
    mistakes: seq<Mistake>)

  datatype TurnResponse = TurnResponse(
    feedback: Feedback,
    botText: string,
    botTranslation: string,
    userTranscript: string,
    userTranslation: Option<string> := None,
    isUnintelligible: bool := false,
    botAudioBase64: Option<string> := None)

  /** The endpoint's reply: one turn. */
  datatype ChatTurnResponse = ChatTurnResponse(turn: TurnResponse)

  /** A response built from its four required fields takes the declared defaults. */
  lemma TurnResponseDefaults(f: Feedback, botText: string, botTranslation: string, userTranscript: string)
    ensures var t := TurnResponse(f, botText, botTranslation, userTranscript);
      !t.isUnintelligible && t.userTranslation == None && t.botAudioBase64 == None
  {
  }
}
