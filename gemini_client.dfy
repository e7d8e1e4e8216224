/** The language-model client: the prompt assembled from chat messages, the
    ordered fallback over models, and the post-processing of a raw reply
    (code fences, the JSON object inside it, defaults and the score clamp).
    The model call and the JSON parser are inputs: a model call either
    returns its text or raises (`None`), and a parser returns the fields it
    read or says why it could not. */
module GeminiClient {
  import opened Wrappers
  import opened Text
  import opened ChatSchema

  /** The models, in the order they are tried. */
  const Models: seq<string> := [
    "gemini-2.5-flash-lite",
    "gemini-2.0-flash-lite",
    "gemini-2.5-flash",
    "gemini-2.0-flash",
    "gemini-2.5-flash-preview-09-2025",
    "gemini-flash-latest"]

  /** A model call: the reply text of `model` for `prompt`, or `None` if the call raised. */
  type Llm = (string, string) -> Option<string>

  // ---------------------------------------------------------------------
  // Prompt building

  function Prefix(role: Role): string {
    match role
    case System => "System"
    case User => "User"
    case Assistant => "Assistant"
  }

  function PromptLine(m: ChatMessage): string {
    Prefix(m.role) + ": " + m.content
  }

  function PromptLines(messages: seq<ChatMessage>): (r: seq<string>)
    ensures |r| == |messages|
    ensures forall k :: 0 <= k < |messages| ==> r[k] == PromptLine(messages[k])
  {
    seq(|messages|, k requires 0 <= k < |messages| => PromptLine(messages[k]))
  }

  /** One "Prefix: content" line per message, joined by newlines, followed by
      the assistant's cue. */
  method BuildPromptFromMessages(messages: seq<ChatMessage>) returns (prompt: string)
    ensures prompt == JoinWith(PromptLines(messages), "\n") + "\nAssistant:"
  {
    var lines: seq<string> := [];
    var i := 0;
    while i < |messages|
      invariant 0 <= i <= |messages|
      invariant lines == PromptLines(messages[..i])
    {
      var msg := messages[i];
      var prefix;
      if msg.role == System {
        prefix := "System";
      } else if msg.role == User {
        prefix := "User";
      } else {
        prefix := "Assistant";
      }
      lines := lines + [prefix + ": " + msg.content];
      assert messages[..i + 1] == messages[..i] + [msg];
      i := i + 1;
    }
    assert messages[..i] == messages;
    prompt := JoinWith(lines, "\n") + "\nAssistant:";
  }

  /** Round trip: when no message content holds a newline, the prompt's lines
      are the messages' lines followed by the cue. */
  lemma PromptLinesRecoverable(messages: seq<ChatMessage>)
    requires |messages| > 0
    requires forall k :: 0 <= k < |messages| ==> '\n' !in messages[k].content
    ensures SplitOn(JoinWith(PromptLines(messages), "\n") + "\nAssistant:", '\n') == PromptLines(messages) + ["Assistant:"]
  {
    var lines := PromptLines(messages);
    JoinSnoc(lines, "Assistant:", "\n");
    assert JoinWith(lines, "\n") + "\nAssistant:" == JoinWith(lines, "\n") + "\n" + "Assistant:";
    var all := lines + ["Assistant:"];
    forall k | 0 <= k < |all| ensures '\n' !in all[k] {
      if k < |lines| {
        assert all[k] == Prefix(messages[k].role) + ": " + messages[k].content;
      }
    }
    SplitJoin(all, '\n');
  }

  /** The first message is taken as system context only when it is a system message. */
  function SplitSystem(messages: seq<ChatMessage>): (r: (string, seq<ChatMessage>))
    ensures var leading := |messages| > 0 && messages[0].role == System;
      |r.1| == |messages| - (if leading then 1 else 0) &&
      r.1 == messages[|messages| - |r.1|..] &&
      (leading ==> r.0 == messages[0].content) &&
      (!leading ==> r.0 == "")
  {
    if |messages| > 0 && messages[0].role == System then (messages[0].content, messages[1..])
    else ("", messages)
  }

  const ReplyIntro := "You are a friendly English conversation partner for language learners. "

  const ContextHeading := "\n\nIMPORTANT CONTEXT AND CONSTRAINTS:\n"

  const ContextRules :=
    "\n\n"
    + "You MUST stay within the defined scenario and role. "
    + "If the learner tries to change the topic or scenario, "
    + "politely redirect them back to the current scenario. "
    + "For example: 'Let's focus on [current scenario] for now. How can I help you with that?'\n\n"

  function ReplyTail(targetLang: string): string {
    "Continue the conversation naturally in English based on the dialogue above. "
    + "After generating the reply in English, also provide a translation of your reply "
    + "into the target language (language code: " + targetLang + "). "
    + "Return a strict JSON object only, no extra text, in this exact format: "
    + "{\"bot_text\": string, \"bot_translation\": string}. "
    + "Do NOT use markdown or code fences. Respond with a plain JSON object only."
  }

  /** The context block of the reply instruction: present exactly when there
      is a system context, and carrying that context verbatim. */
  function ContextPart(systemContext: string): (r: string)
    ensures r == "" <==> systemContext == ""
    ensures systemContext != "" ==>
      |ContextHeading| + |systemContext| <= |r| && r[|ContextHeading|..|ContextHeading| + |systemContext|] == systemContext
  {
    if systemContext != "" then
      var r := ContextHeading + systemContext + ContextRules;
      assert r[|ContextHeading|..|ContextHeading| + |systemContext|] == systemContext;
      r
    else ""
  }

  /** The reply instruction: the introduction, the context block and the
      output format. */
  function ReplySystemInstruction(systemContext: string, targetLang: string): string {
    ReplyIntro + ContextPart(systemContext) + ReplyTail(targetLang)
  }

  /** Without a system context the instruction is just the introduction and the format. */
  lemma ReplyInstructionShape(systemContext: string, targetLang: string)
    ensures StartsWith(ReplySystemInstruction(systemContext, targetLang), ReplyIntro)
    ensures systemContext == "" ==> ReplySystemInstruction(systemContext, targetLang) == ReplyIntro + ReplyTail(targetLang)
  {
    var context := ContextPart(systemContext);
    var tail := ReplyTail(targetLang);
    ConcatAssoc(ReplyIntro, context, tail);
    StartsWithConcat(ReplyIntro, context + tail);
    if systemContext == "" {
      assert context + tail == tail;
    }
  }

  /** The full reply prompt of a message list. */
  function ReplyPrompt(messages: seq<ChatMessage>, targetLang: string): string {
    var split := SplitSystem(messages);
    ReplySystemInstruction(split.0, targetLang) + "\n\nConversation so far:\n"
    + JoinWith(PromptLines(split.1), "\n") + "\nAssistant:"
  }

  // ---------------------------------------------------------------------
  // The model fallback loop

  /** What the loop leaves behind: the raw text (an empty reply counts as
      "{}") and whether some model raised on the way. */
  datatype LoopOutcome = LoopOutcome(rawText: string, lastErrorSet: bool)

  function ReplyText(text: string): string {
    if text == "" then "{}" else text
  }

  /** The models tried in order until one does not raise. */
  function ModelLoop(models: seq<string>, llm: Llm, prompt: string): LoopOutcome
    decreases |models|
  {
    if models == [] then LoopOutcome("{}", false)
    else
      match llm(models[0], prompt)
      case Some(text) => LoopOutcome(ReplyText(text), false)
      case None => ModelLoop(models[1..], llm, prompt).(lastErrorSet := true)
  }

  function MarkError(o: LoopOutcome, raised: bool): LoopOutcome {
    if raised then o.(lastErrorSet := true) else o
  }

  /** The first model that answers wins; an error is on record exactly when
      an earlier model raised. */
  lemma {:induction false} FirstSuccessWins(models: seq<string>, llm: Llm, prompt: string, k: nat)
    requires k < |models| && llm(models[k], prompt).Some?
    requires forall j :: 0 <= j < k ==> llm(models[j], prompt).None?
    ensures ModelLoop(models, llm, prompt) == LoopOutcome(ReplyText(llm(models[k], prompt).value), k > 0)
    decreases k
  {
    if k > 0 {
      FirstSuccessWins(models[1..], llm, prompt, k - 1);
    }
  }

  /** When every model raises, the raw text stays "{}" with an error on record. */
  lemma {:induction false} AllModelsFail(models: seq<string>, llm: Llm, prompt: string)
    requires forall j :: 0 <= j < |models| ==> llm(models[j], prompt).None?
    ensures ModelLoop(models, llm, prompt) == LoopOutcome("{}", |models| > 0)
    decreases |models|
  {
    if models != [] {
      AllModelsFail(models[1..], llm, prompt);
    }
  }

  /** The models called: all of them up to and including the first that answers. */
  function Tried(models: seq<string>, llm: Llm, prompt: string): (r: seq<string>)
    ensures |r| <= |models|
    decreases |models|
  {
    if models == [] then []
    else if llm(models[0], prompt).Some? then [models[0]]
    else [models[0]] + Tried(models[1..], llm, prompt)
  }

  /** The models tried are the list's first ones, at least one when there
      are any; all but the last raised, and the loop stopped early only at
      a model that answered. */
  lemma {:induction false} TriedPrefix(models: seq<string>, llm: Llm, prompt: string)
    ensures var r := Tried(models, llm, prompt);
      r == models[..|r|] &&
      (models != [] ==> |r| > 0) &&
      (forall k :: 0 <= k < |r| - 1 ==> llm(r[k], prompt).None?) &&
      (|r| < |models| ==> llm(r[|r| - 1], prompt).Some?)
    decreases |models|
  {
    if models != [] && llm(models[0], prompt).None? {
      var rest := Tried(models[1..], llm, prompt);
      TriedPrefix(models[1..], llm, prompt);
      assert models[1..][..|rest|] == models[1..|rest| + 1];
      var r := Tried(models, llm, prompt);
      assert r == [models[0]] + rest;
      forall k | 0 <= k < |r| - 1 ensures llm(r[k], prompt).None? {
        if k > 0 {
          assert r[k] == rest[k - 1];
        }
      }
    }
  }

  /** The loop over the models, stopping at the first call that does not
      raise; `tried` lists the models called. */
  method TryModels(llm: Llm, prompt: string) returns (rawText: string, lastErrorSet: bool, ghost tried: seq<string>)
    ensures LoopOutcome(rawText, lastErrorSet) == ModelLoop(Models, llm, prompt)
    ensures tried == Tried(Models, llm, prompt)
  {
    rawText, lastErrorSet, tried := TryEach(Models, llm, prompt);
  }

  /** The same loop over any list of model names. */
  method TryEach(models: seq<string>, llm: Llm, prompt: string) returns (rawText: string, lastErrorSet: bool, ghost tried: seq<string>)
    ensures LoopOutcome(rawText, lastErrorSet) == ModelLoop(models, llm, prompt)
    ensures tried == Tried(models, llm, prompt)
  {
    rawText := "{}";
    lastErrorSet := false;
    tried := [];
    var i := 0;
    while i < |models|
      invariant 0 <= i <= |models|
      invariant Tried(models, llm, prompt) == tried + Tried(models[i..], llm, prompt)
      invariant rawText == "{}" && lastErrorSet == (i > 0)
      invariant ModelLoop(models, llm, prompt) == MarkError(ModelLoop(models[i..], llm, prompt), i > 0)
    {
      var modelName := models[i];
      var response := llm(modelName, prompt);
      LoopStep(models, llm, prompt, i);
      tried := tried + [modelName];
      if response.Some? {
        rawText := if response.value == "" then "{}" else response.value;
        return;
      }
      lastErrorSet := true;
      i := i + 1;
    }
    assert models[i..] == [];
  }

  /** One model of the loop: the call is tried, and either answers or hands
      over to the remaining models with an error on record. */
  lemma LoopStep(models: seq<string>, llm: Llm, prompt: string, i: nat)
    requires i < |models|
    ensures llm(models[i], prompt).Some? ==>
      Tried(models[i..], llm, prompt) == [models[i]] &&
      ModelLoop(models[i..], llm, prompt) == LoopOutcome(ReplyText(llm(models[i], prompt).value), false)
    ensures llm(models[i], prompt).None? ==>
      Tried(models[i..], llm, prompt) == [models[i]] + Tried(models[i + 1..], llm, prompt) &&
      ModelLoop(models[i..], llm, prompt) == ModelLoop(models[i + 1..], llm, prompt).(lastErrorSet := true)
  {
    assert models[i..][0] == models[i] && models[i..][1..] == models[i + 1..];
  }

  // ---------------------------------------------------------------------
  // Cleaning a raw reply

  /** Strips the text and, when it opens with a code fence, drops the fence
      line and a closing fence line. */
  function StripFences(rawText: string): string {
    var cleaned := Strip(rawText);
    if StartsWith(cleaned, "```") then
      var all := SplitLines(cleaned);
      var lines := if |all| > 0 then all[1..] else [];
      var kept := if |lines| > 0 && StartsWith(Strip(lines[|lines| - 1]), "```") then lines[..|lines| - 1] else lines;
      Strip(JoinWith(kept, "\n"))
    else cleaned
  }

  /** A fenced body comes out of its fences, whatever language tag the
      opening fence has. */
  lemma StripFencesOfFenced(tag: string, body: string)
    requires '\n' !in tag
    ensures StripFences("```" + tag + "\n" + body + "\n```") == Strip(body)
  {
    var opening := "```" + tag;
    var s := opening + "\n" + body + "\n```";
    assert s == opening + ['\n'] + (body + ['\n'] + "```");
    StripUnchanged(s);
    assert StartsWith(s, "```");
    SplitConcat(opening, body + ['\n'] + "```", '\n');
    SplitConcat(body, "```", '\n');
    SplitFree(opening, '\n');
    SplitFree("```", '\n');
    var pieces := SplitOn(s, '\n');
    assert pieces == [opening] + (SplitOn(body, '\n') + ["```"]);
    assert SplitLines(s) == pieces;
    var lines := pieces[1..];
    assert lines == SplitOn(body, '\n') + ["```"];
    assert Strip("```") == "```" by { StripUnchanged("```"); }
    assert lines[..|lines| - 1] == SplitOn(body, '\n');
    JoinSplit(body, '\n');
  }

  /** The text from the first "{" to the last "}", when both exist in that
      order; otherwise the text itself. */
  function ExtractJson(cleaned: string): (r: string)
    ensures r == cleaned || (|r| >= 2 && r[0] == '{' && r[|r| - 1] == '}')
    ensures (forall i, j :: 0 <= i < j < |cleaned| ==> !(cleaned[i] == '{' && cleaned[j] == '}')) ==> r == cleaned
    ensures (exists i, j :: 0 <= i < j < |cleaned| && cleaned[i] == '{' && cleaned[j] == '}') ==>
      |r| >= 2 && r[0] == '{' && r[|r| - 1] == '}'
    ensures Find(cleaned, '{') == -1 || RFind(cleaned, '}') == -1 || RFind(cleaned, '}') <= Find(cleaned, '{') ==> r == cleaned
  {
    var start := Find(cleaned, '{');
    var end := RFind(cleaned, '}');
    if start != -1 && end != -1 && end > start then cleaned[start..end + 1] else cleaned
  }

  /** Extraction is idempotent. */
  lemma ExtractJsonIdempotent(cleaned: string)
    ensures ExtractJson(ExtractJson(cleaned)) == ExtractJson(cleaned)
  {
    var r := ExtractJson(cleaned);
    if r != cleaned {
      assert Find(r, '{') == 0;
      assert RFind(r, '}') == |r| - 1;
      assert r[0..|r|] == r;
    }
  }

  /** An object between text without "{" and text without "}" is what is extracted. */
  lemma ExtractJsonSurrounded(before: string, obj: string, after: string)
    requires '{' !in before && '}' !in after
    requires |obj| >= 2 && obj[0] == '{' && obj[|obj| - 1] == '}'
    ensures ExtractJson(before + obj + after) == obj
  {
    var s := before + obj + after;
    var start := Find(s, '{');
    var end := RFind(s, '}');
    assert s[|before|] == '{';
    assert forall i :: 0 <= i < |before| ==> s[i] == before[i];
    assert start == |before|;
    assert s[|before| + |obj| - 1] == '}';
    assert forall i :: |before| + |obj| <= i < |s| ==> s[i] == after[i - |before| - |obj|];
    assert end == |before| + |obj| - 1;
    assert s[start..end + 1] == obj;
  }

  /** Fence stripping and object extraction, as both client functions apply them. */
  function CleanReply(rawText: string): string {
    ExtractJson(StripFences(rawText))
  }

  // ---------------------------------------------------------------------
  // The conversational reply

  const TroubleText := "I'm having trouble responding right now. Please try again."
  const TroubleTranslation := "Tôi đang gặp sự cố khi trả lời. Vui lòng thử lại sau."

  /** The two string fields a reply parser read, each rendered as a string
      and "" when missing. */
  datatype ReplyFields = ReplyFields(botText: string, botTranslation: string)

  /** JSON parsing of a reply: its fields, or `None` when parsing raised. */
  type ReplyParser = string -> Option<ReplyFields>

  /** The reply from parsed fields: stripped, with a missing, empty or
      unparsable field replaced by its fixed default. */
  function ReplyFromFields(parsed: Option<ReplyFields>): (r: (string, string))
    ensures r.0 != "" && r.1 != ""
    ensures parsed.None? ==> r == (TroubleText, TroubleTranslation)
    ensures parsed.Some? ==>
      r.0 == (if Strip(parsed.value.botText) != "" then Strip(parsed.value.botText) else TroubleText) &&
      r.1 == (if Strip(parsed.value.botTranslation) != "" then Strip(parsed.value.botTranslation) else TroubleTranslation)
  {
    match parsed
    case None => (TroubleText, TroubleTranslation)
    case Some(f) =>
      var botText := Strip(f.botText);
      var botTranslation := Strip(f.botTranslation);
      (if botText != "" then botText else TroubleText,
       if botTranslation != "" then botTranslation else TroubleTranslation)
  }

  /** The reply and its translation: the fixed pair when some model raised
      and no text came back, otherwise the parsed reply. Neither is ever empty. */
  function ReplyOf(messages: seq<ChatMessage>, targetLang: string, llm: Llm, parseReply: ReplyParser): (r: (string, string))
    ensures r.0 != "" && r.1 != ""
    ensures var outcome := ModelLoop(Models, llm, ReplyPrompt(messages, targetLang));
      outcome.lastErrorSet && outcome.rawText == "{}" ==> r == (TroubleText, TroubleTranslation)
  {
    var outcome := ModelLoop(Models, llm, ReplyPrompt(messages, targetLang));
    if outcome.lastErrorSet && outcome.rawText == "{}" then (TroubleText, TroubleTranslation)
    else ReplyFromFields(parseReply(CleanReply(outcome.rawText)))
  }

  /** When every model raises, the reply is the fixed pair. */
  lemma ReplyAllModelsFail(messages: seq<ChatMessage>, targetLang: string, llm: Llm, parseReply: ReplyParser)
    requires forall j :: 0 <= j < |Models| ==> llm(Models[j], ReplyPrompt(messages, targetLang)).None?
    ensures ReplyOf(messages, targetLang, llm, parseReply) == (TroubleText, TroubleTranslation)
  {
    AllModelsFail(Models, llm, ReplyPrompt(messages, targetLang));
  }

  /** When the first model answers with a parsable reply, that reply, stripped, is used. */
  lemma ReplyFirstModelAnswers(messages: seq<ChatMessage>, targetLang: string, llm: Llm, parseReply: ReplyParser, text: string)
    requires llm(Models[0], ReplyPrompt(messages, targetLang)) == Some(text)
    requires parseReply(CleanReply(ReplyText(text))).Some?
    ensures var f := parseReply(CleanReply(ReplyText(text))).value;
      Strip(f.botText) != "" ==> ReplyOf(messages, targetLang, llm, parseReply).0 == Strip(f.botText)
  {
    FirstSuccessWins(Models, llm, ReplyPrompt(messages, targetLang), 0);
  }

  /** The conversational reply: the prompt is assembled, the models tried in
      order, and the reply cleaned, parsed and defaulted. */
  method GenerateResponse(messages: seq<ChatMessage>, targetLang: string, llm: Llm, parseReply: ReplyParser)
    returns (botText: string, botTranslation: string, ghost tried: seq<string>)
    ensures (botText, botTranslation) == ReplyOf(messages, targetLang, llm, parseReply)
    ensures tried == Tried(Models, llm, ReplyPrompt(messages, targetLang))
  {
    var split := SplitSystem(messages);
    var conversationPrompt := BuildPromptFromMessages(split.1);
    var prompt := ReplySystemInstruction(split.0, targetLang) + "\n\nConversation so far:\n" + conversationPrompt;
    assert prompt == ReplyPrompt(messages, targetLang);
    var rawText, lastErrorSet;
    rawText, lastErrorSet, tried := TryModels(llm, prompt);
    if lastErrorSet && rawText == "{}" {
      botText, botTranslation := TroubleText, TroubleTranslation;
      return;
    }
    var cleaned := CleanReply(rawText);
    var reply := ReplyFromFields(parseReply(cleaned));
    botText, botTranslation := reply.0, reply.1;
  }

  // ---------------------------------------------------------------------
  // Grammar feedback

  const NoTranscriptTip := "No transcript provided for grammar evaluation."
  const ModelErrorTip := "No grammar feedback due to a model error."
  const ParseErrorTip := "I could not reliably parse the grammar feedback."
  const NeutralScore := 50.0

  const GrammarInstruction :=
    "You are an English speaking and grammar coach. "
    + "The student sentence comes from SPOKEN English, not written text. "
    + "Evaluate only errors that would be clear when listening to speech: grammar (tense, word order, missing auxiliaries), "
    + "word choice, and naturalness for oral communication. "
    + "Do NOT penalize or mention purely written punctuation issues such as commas, question marks, or capitalization "
    + "if the sentence is otherwise clear and natural when spoken. "
    + "Also translate the student's sentence into the target language. "
    + "Return a strict JSON object only, no extra text, in this exact format: "
    + "{\"grammar_score\": number (0-100), "
    + "\"overall_feedback\": string, "
    + "\"mistakes\": ["
    + "{\"original\": string, \"correction\": string, \"type\": \"grammar\"|\"vocabulary\"|\"pronunciation\", \"explanation\": string}"
    + "], "
    + "\"user_translation\": string"
    + "}. "
    + "Do NOT use markdown or code fences. Respond with a plain JSON object only."

  function GrammarPrompt(transcript: string, sourceLang: string, targetLang: string): string {
    GrammarInstruction + "\n\nStudent sentence: " + transcript
    + "\nSource language code: " + sourceLang
    + "\nTarget language code: " + targetLang
    + "\n\nRemember: respond with JSON only."
  }

  /** One element of the parsed mistakes list: not an object, or its four
      fields rendered as strings (the type defaulting to "grammar"). */
  datatype RawMistake = NotAnObject | MistakeEntry(original: string, correction: string, typeName: string, explanation: string)

  /** What the grammar parser makes of a cleaned reply: not JSON at all, JSON
      whose fields cannot be read (not an object, a score that is not a
      number, a mistakes value that cannot be iterated) or the fields, with
      the score 0, the texts "" and the list empty when missing. A mistakes
      value that is a string or an object iterates over elements that are
      not objects, so each of them is a `NotAnObject` entry. */
  datatype GrammarParse =
    | NotJson
    | Unusable
    | GrammarFields(score: real, feedback: string, translation: string, mistakes: seq<RawMistake>)

  type GrammarParser = string -> GrammarParse

  datatype GrammarFeedback = GrammarFeedback(score: real, tip: string, mistakes: seq<Mistake>, userTranslation: string)

  /** A mistake entry becomes a mistake when it is an object whose type is one of the three literals. */
  function ToMistake(raw: RawMistake): (r: Option<Mistake>)
    ensures r.Some? <==> raw.MistakeEntry? && ParseMistakeType(raw.typeName).Some?
    ensures r.Some? ==> (r.value.original == raw.original && r.value.correction == raw.correction &&
      r.value.explanation == raw.explanation && ParseMistakeType(raw.typeName) == Some(r.value.kind))
  {
    match raw
    case NotAnObject => None
    case MistakeEntry(original, correction, typeName, explanation) =>
      match ParseMistakeType(typeName)
      case None => None
      case Some(kind) => Some(Mistake(original, correction, kind, explanation))
  }

  /** The entries that become mistakes, in order; malformed ones are skipped. */
  function ValidMistakes(raws: seq<RawMistake>): (r: seq<Mistake>)
    ensures |r| <= |raws|
    decreases |raws|
  {
    if raws == [] then []
    else
      var front := ValidMistakes(raws[..|raws| - 1]);
      var last := raws[|raws| - 1];
      match ToMistake(last)
      case Some(m) => front + [m]
      case None => front
  }

  /** When every entry is well-formed, none is skipped. */
  lemma {:induction false} ValidMistakesKeepsAll(raws: seq<RawMistake>)
    requires forall k :: 0 <= k < |raws| ==> ToMistake(raws[k]).Some?
    ensures |ValidMistakes(raws)| == |raws|
    ensures forall k :: 0 <= k < |raws| ==> ValidMistakes(raws)[k] == ToMistake(raws[k]).value
    decreases |raws|
  {
    if raws != [] {
      ValidMistakesKeepsAll(raws[..|raws| - 1]);
    }
  }

  /** Entries that fail to build a mistake leave no trace. */
  lemma {:induction false} ValidMistakesSkipsInvalid(raws: seq<RawMistake>, invalid: seq<RawMistake>)
    requires forall k :: 0 <= k < |invalid| ==> ToMistake(invalid[k]).None?
    ensures ValidMistakes(raws + invalid) == ValidMistakes(raws)
    decreases |invalid|
  {
    if invalid != [] {
      var front := invalid[..|invalid| - 1];
      assert (raws + invalid)[..|raws + invalid| - 1] == raws + front;
      ValidMistakesSkipsInvalid(raws, front);
    } else {
      assert raws + invalid == raws;
    }
  }

  /** Filtering distributes over concatenation, so a malformed entry is
      skipped wherever it stands, and the kept entries keep their order. */
  lemma {:induction false} ValidMistakesAppend(a: seq<RawMistake>, b: seq<RawMistake>)
    ensures ValidMistakes(a + b) == ValidMistakes(a) + ValidMistakes(b)
    decreases |b|
  {
    if b == [] {
      assert a + b == a;
    } else {
      var front := b[..|b| - 1];
      assert (a + b)[..|a + b| - 1] == a + front;
      ValidMistakesAppend(a, front);
    }
  }

  /** A malformed entry between any two parts of the list leaves no trace. */
  lemma ValidMistakesSkipsBetween(a: seq<RawMistake>, x: RawMistake, b: seq<RawMistake>)
    requires ToMistake(x).None?
    ensures ValidMistakes(a + [x] + b) == ValidMistakes(a) + ValidMistakes(b)
  {
    ValidMistakesAppend(a + [x], b);
    ValidMistakesAppend(a, [x]);
    assert [x][..0] == [];
  }

  /** The loop over the mistakes list: skips each entry that fails to build a mistake. */
  method CollectMistakes(raws: seq<RawMistake>) returns (mistakes: seq<Mistake>)
    ensures mistakes == ValidMistakes(raws)
  {
    mistakes := [];
    var i := 0;
    while i < |raws|
      invariant 0 <= i <= |raws|
      invariant mistakes == ValidMistakes(raws[..i])
    {
      var m := ToMistake(raws[i]);
      assert raws[..i + 1][..i] == raws[..i];
      if m.None? {
        i := i + 1;
        continue;
      }
      mistakes := mistakes + [m.value];
      i := i + 1;
    }
    assert raws[..i] == raws;
  }

  /** The score clamped into [0, 100]. */
  function ClampScore(score: real): (r: real)
    ensures 0.0 <= r <= 100.0
    ensures 0.0 <= score <= 100.0 ==> r == score
    ensures score < 0.0 ==> r == 0.0
    ensures score > 100.0 ==> r == 100.0
  {
    if score < 0.0 then 0.0 else if score > 100.0 then 100.0 else score
  }

  /** The feedback a finished model loop yields. */
  function GrammarOutcome(outcome: LoopOutcome, parseGrammar: GrammarParser): (r: GrammarFeedback)
    ensures 0.0 <= r.score <= 100.0
  {
    if outcome.lastErrorSet && outcome.rawText == "{}" then GrammarFeedback(0.0, ModelErrorTip, [], "")
    else
      match parseGrammar(CleanReply(outcome.rawText))
      case NotJson => GrammarFeedback(NeutralScore, ParseErrorTip, [], "")
      case Unusable => GrammarFeedback(0.0, ModelErrorTip, [], "")
      case GrammarFields(score, feedback, translation, raws) =>
        GrammarFeedback(ClampScore(score), feedback, ValidMistakes(raws), translation)
  }

  /** Grammar score, tip, mistakes and translation of a transcript: a blank
      transcript is answered without any model call; the score is always
      within [0, 100]. */
  function GrammarOf(transcript: string, sourceLang: string, targetLang: string, llm: Llm, parseGrammar: GrammarParser): (r: GrammarFeedback)
    ensures 0.0 <= r.score <= 100.0
    ensures Strip(transcript) == "" ==> r == GrammarFeedback(0.0, NoTranscriptTip, [], "")
  {
    if Strip(transcript) == "" then GrammarFeedback(0.0, NoTranscriptTip, [], "")
    else GrammarOutcome(ModelLoop(Models, llm, GrammarPrompt(transcript, sourceLang, targetLang)), parseGrammar)
  }

  /** The models the grammar evaluation calls: none for a blank transcript. */
  function GrammarTried(transcript: string, sourceLang: string, targetLang: string, llm: Llm): (r: seq<string>)
    ensures Strip(transcript) == "" <==> r == []
  {
    if Strip(transcript) == "" then [] else Tried(Models, llm, GrammarPrompt(transcript, sourceLang, targetLang))
  }

  method GrammarFeedbackFromGemini(transcript: string, sourceLang: string, targetLang: string, llm: Llm, parseGrammar: GrammarParser)
    returns (feedback: GrammarFeedback, ghost tried: seq<string>)
    ensures feedback == GrammarOf(transcript, sourceLang, targetLang, llm, parseGrammar)
    ensures tried == GrammarTried(transcript, sourceLang, targetLang, llm)
  {
    if Strip(transcript) == "" {
      feedback := GrammarFeedback(0.0, NoTranscriptTip, [], "");
      tried := [];
      return;
    }
    var prompt := GrammarPrompt(transcript, sourceLang, targetLang);
    var rawText, lastErrorSet;
    rawText, lastErrorSet, tried := TryModels(llm, prompt);
    if lastErrorSet && rawText == "{}" {
      feedback := GrammarFeedback(0.0, ModelErrorTip, [], "");
      return;
    }
    var cleaned := CleanReply(rawText);
    match parseGrammar(cleaned)
    case NotJson =>
      feedback := GrammarFeedback(NeutralScore, ParseErrorTip, [], "");
    case Unusable =>
      feedback := GrammarFeedback(0.0, ModelErrorTip, [], "");
    case GrammarFields(score, overallFeedback, userTranslation, raws) =>
      var mistakes := CollectMistakes(raws);
      feedback := GrammarFeedback(ClampScore(score), overallFeedback, mistakes, userTranslation);
  }

  /** A reply the parser cannot read as JSON is scored neutrally. */
  lemma UnparsableIsNeutral(outcome: LoopOutcome, parseGrammar: GrammarParser)
    requires !(outcome.lastErrorSet && outcome.rawText == "{}")
    requires parseGrammar(CleanReply(outcome.rawText)).NotJson?
    ensures GrammarOutcome(outcome, parseGrammar) == GrammarFeedback(NeutralScore, ParseErrorTip, [], "")
  {
  }

  /** When the first model answers with text the parser reads, the feedback
      is the clamped score, the tip, the well-formed mistakes and the
      translation. */
  lemma GrammarFirstModelAnswers(transcript: string, sourceLang: string, targetLang: string, llm: Llm,
                                 parseGrammar: GrammarParser, text: string,
                                 score: real, feedback: string, translation: string, raws: seq<RawMistake>)
    requires Strip(transcript) != ""
    requires llm(Models[0], GrammarPrompt(transcript, sourceLang, targetLang)) == Some(text)
    requires parseGrammar(CleanReply(ReplyText(text))) == GrammarFields(score, feedback, translation, raws)
    ensures GrammarOf(transcript, sourceLang, targetLang, llm, parseGrammar)
      == GrammarFeedback(ClampScore(score), feedback, ValidMistakes(raws), translation)
  {
    FirstSuccessWins(Models, llm, GrammarPrompt(transcript, sourceLang, targetLang), 0);
  }

  /** When every model raises, the feedback of a non-blank transcript is the model-error tuple. */
  lemma GrammarAllModelsFail(transcript: string, sourceLang: string, targetLang: string, llm: Llm, parseGrammar: GrammarParser)
    requires Strip(transcript) != ""
    requires forall j :: 0 <= j < |Models| ==> llm(Models[j], GrammarPrompt(transcript, sourceLang, targetLang)).None?
    ensures GrammarOf(transcript, sourceLang, targetLang, llm, parseGrammar) == GrammarFeedback(0.0, ModelErrorTip, [], "")
  {
    AllModelsFail(Models, llm, GrammarPrompt(transcript, sourceLang, targetLang));
  }
}
