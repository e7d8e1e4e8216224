/** The chat service's policy: the similarity gate between two transcripts,
    the system message synthesized from a speaking configuration, and the
    voice and speaking rate of the bot's synthesized reply. */
module ChatService {
  import opened Wrappers
  import opened Text
  import opened ChatSchema

  // ---------------------------------------------------------------------
  // Transcript similarity

  /** The number of matched characters a sequence matcher finds between two strings. */
  type Matcher = (string, string) -> nat

  /** What every matcher guarantees: no more matches than either string has
      characters, and a string matches itself entirely. */
  ghost predicate IsMatcher(matcher: Matcher) {
    (forall a: string, b: string :: matcher(a, b) <= |a| && matcher(a, b) <= |b|) &&
    (forall a: string :: matcher(a, a) == |a|)
  }

  /** The matcher's ratio over the lower-cased transcripts: twice the matches
      over the total length, and 1 for two empty strings. */
  function Similarity(matcher: Matcher, text1: string, text2: string): (r: real)
    ensures |text1| + |text2| > 0 ==>
      r == 2.0 * matcher(Lower(text1), Lower(text2)) as real / (|text1| + |text2|) as real
    ensures IsMatcher(matcher) ==> 0.0 <= r <= 1.0
    ensures IsMatcher(matcher) && Lower(text1) == Lower(text2) ==> r == 1.0
  {
    var a := Lower(text1);
    var b := Lower(text2);
    var total := |a| + |b|;
    if total == 0 then 1.0
    else
      var m := matcher(a, b);
      MatcherFacts(matcher, a, b);
      RatioBounds(m, total);
      2.0 * m as real / total as real
  }

  lemma MatcherFacts(matcher: Matcher, a: string, b: string)
    ensures IsMatcher(matcher) ==> 2 * matcher(a, b) <= |a| + |b|
    ensures IsMatcher(matcher) && a == b ==> 2 * matcher(a, b) == |a| + |b|
  {
  }

  lemma RatioBounds(m: nat, total: nat)
    requires total > 0
    ensures 2 * m <= total ==> 0.0 <= 2.0 * m as real / total as real <= 1.0
    ensures 2 * m == total ==> 2.0 * m as real / total as real == 1.0
  {
  }

  /** Transcripts that differ only in letter case are judged alike. */
  lemma SimilarityIgnoresCase(matcher: Matcher, text1: string, text2: string, other1: string, other2: string)
    requires Lower(text1) == Lower(other1) && Lower(text2) == Lower(other2)
    ensures Similarity(matcher, text1, text2) == Similarity(matcher, other1, other2)
  {
    assert |text1| == |other1| && |text2| == |other2|;
  }

  // ---------------------------------------------------------------------
  // The system message

  const Intro := "You are an English speaking partner helping the learner practice conversation."

  /** A string field is used when it is present and not empty. */
  predicate Truthy(field: Option<string>) {
    field.Some? && field.value != ""
  }

  function BotSpeedName(speed: BotSpeed): string {
    match speed
    case Slow => "slow"
    case Normal => "normal"
    case Fast => "fast"
  }

  function TextClause(heading: string, field: Option<string>): (r: seq<string>)
    ensures |r| == (if Truthy(field) then 1 else 0)
  {
    if Truthy(field) then [heading + field.value + "."] else []
  }

  /** The system message's sentences: the introduction, then one clause per
      used field in the order scenario, level, role, tone, goal, duration,
      speed. A duration is used whenever it is present, 0 included. */
  function SystemParts(config: SpeakingConfig): seq<string> {
    [Intro]
    + TextClause("Scenario: ", config.scenario)
    + TextClause("Learner level: ", config.level)
    + TextClause("Learner role: ", config.userRole)
    + TextClause("Your tone: ", config.botTone)
    + TextClause("Conversation goal: ", config.goal)
    + (if config.durationMinutes.Some? then ["Target duration: " + IntToString(config.durationMinutes.value) + " minutes."] else [])
    + (if config.botSpeed.Some? then ["Your speaking speed should be: " + BotSpeedName(config.botSpeed.value) + "."] else [])
  }

  /** No field of the configuration is used. */
  predicate NoClauses(config: SpeakingConfig) {
    !Truthy(config.scenario) && !Truthy(config.level) && !Truthy(config.userRole) &&
    !Truthy(config.botTone) && !Truthy(config.goal) &&
    config.durationMinutes.None? && config.botSpeed.None?
  }

  /** The builder appends the clauses one by one and joins them with spaces. */
  method BuildSystemMessageFromConfig(config: SpeakingConfig) returns (message: ChatMessage)
    ensures message.role == System
    ensures message.content == JoinWith(SystemParts(config), " ")
    ensures StartsWith(message.content, Intro)
  {
    var systemParts := [Intro];
    if Truthy(config.scenario) {
      systemParts := systemParts + ["Scenario: " + config.scenario.value + "."];
    }
    assert systemParts == [Intro] + TextClause("Scenario: ", config.scenario);
    if Truthy(config.level) {
      systemParts := systemParts + ["Learner level: " + config.level.value + "."];
    }
    assert systemParts == [Intro] + TextClause("Scenario: ", config.scenario)
      + TextClause("Learner level: ", config.level);
    if Truthy(config.userRole) {
      systemParts := systemParts + ["Learner role: " + config.userRole.value + "."];
    }
    assert systemParts == [Intro] + TextClause("Scenario: ", config.scenario)
      + TextClause("Learner level: ", config.level) + TextClause("Learner role: ", config.userRole);
    if Truthy(config.botTone) {
      systemParts := systemParts + ["Your tone: " + config.botTone.value + "."];
    }
    ghost var toneParts := [Intro] + TextClause("Scenario: ", config.scenario)
      + TextClause("Learner level: ", config.level) + TextClause("Learner role: ", config.userRole)
      + TextClause("Your tone: ", config.botTone);
    assert systemParts == toneParts;
    if Truthy(config.goal) {
      systemParts := systemParts + ["Conversation goal: " + config.goal.value + "."];
    }
    assert systemParts == toneParts + TextClause("Conversation goal: ", config.goal);
    if config.durationMinutes.Some? {
      systemParts := systemParts + ["Target duration: " + IntToString(config.durationMinutes.value) + " minutes."];
    }
    if config.botSpeed.Some? {
      systemParts := systemParts + ["Your speaking speed should be: " + BotSpeedName(config.botSpeed.value) + "."];
    }
    assert systemParts == SystemParts(config);
    JoinStartsWith(systemParts, " ");
    message := ChatMessage(System, JoinWith(systemParts, " "));
  }

  /** The message is the bare introduction exactly when no field is used. */
  lemma SystemMessageIntroOnly(config: SpeakingConfig)
    ensures JoinWith(SystemParts(config), " ") == Intro <==> NoClauses(config)
  {
    var parts := SystemParts(config);
    if !NoClauses(config) {
      assert |parts| > 1;
      assert |JoinWith(parts, " ")| > |Intro| by {
        assert JoinWith(parts, " ") == parts[0] + " " + JoinWith(parts[1..], " ");
      }
    } else {
      assert parts == [Intro];
    }
  }

  /** A duration of zero minutes still yields its clause. */
  lemma SystemMessageZeroDuration()
    ensures JoinWith(SystemParts(SpeakingConfig(durationMinutes := Some(0))), " ") ==
      Intro + " Target duration: 0 minutes."
  {
    var parts := SystemParts(SpeakingConfig(durationMinutes := Some(0)));
    assert IntToString(0) == "0";
    assert "Target duration: " + "0" + " minutes." == "Target duration: 0 minutes.";
    assert parts == [Intro, "Target duration: 0 minutes."];
    assert parts[1..] == ["Target duration: 0 minutes."];
  }

  /** An empty string field is treated as an absent one. */
  lemma EmptyFieldIgnored(config: SpeakingConfig)
    ensures SystemParts(config.(scenario := Some(""))) == SystemParts(config.(scenario := None))
    ensures SystemParts(config.(goal := Some(""))) == SystemParts(config.(goal := None))
  {
  }

  // ---------------------------------------------------------------------
  // Voice and speaking rate

  const Aria := "en-US-AriaNeural"
  const FastNativeTone := "Fast Native Speaker"

  const ToneToVoice: map<string, string> := map[
    "Friendly & Encouraging" := "en-US-JennyNeural",
    "Professional & Formal" := "en-US-GuyNeural",
    "Strict & Correction-focused" := "en-US-DavisNeural",
    "Funny & Casual" := "en-US-JasonNeural",
    FastNativeTone := "en-US-SaraNeural"]

  /** The voice of a tone: its listed voice, and the default voice exactly
      for the tones not listed. */
  function VoiceForTone(botTone: string): (voice: string)
    ensures botTone in ToneToVoice ==> voice == ToneToVoice[botTone]
    ensures voice == Aria <==> botTone !in ToneToVoice
  {
    if botTone in ToneToVoice then ToneToVoice[botTone] else Aria
  }

  function SpeedRate(speed: BotSpeed): real {
    match speed
    case Slow => 0.8
    case Normal => 1.0
    case Fast => 1.2
  }

  /** The speaking rate: 1.0 without a configured speed, otherwise the speed's
      rate, raised to at least 1.1 for the fast native speaker tone. */
  function SpeakingRate(config: Option<SpeakingConfig>): (rate: real)
    ensures rate in {0.8, 1.0, 1.1, 1.2}
    ensures config.None? || config.value.botSpeed.None? ==> rate == 1.0
    ensures config.Some? && config.value.botSpeed.Some? && config.value.botTone == Some(FastNativeTone) ==>
      rate == (if SpeedRate(config.value.botSpeed.value) >= 1.1 then SpeedRate(config.value.botSpeed.value) else 1.1)
    ensures config.Some? && config.value.botSpeed.Some? && config.value.botTone == Some(FastNativeTone) ==>
      rate == (if config.value.botSpeed == Some(Fast) then 1.2 else 1.1)
    ensures config.Some? && config.value.botSpeed.Some? && config.value.botTone != Some(FastNativeTone) ==>
      rate == SpeedRate(config.value.botSpeed.value)
  {
    if config.None? || config.value.botSpeed.None? then 1.0
    else
      var baseRate := SpeedRate(config.value.botSpeed.value);
      if config.value.botTone == Some(FastNativeTone) then (if baseRate >= 1.1 then baseRate else 1.1)
      else baseRate
  }

  /** The voice and the rate of the bot's reply. */
  function TtsParameters(config: Option<SpeakingConfig>): (r: (string, real))
    ensures config.None? ==> r == (Aria, 1.0)
    ensures config.Some? && !Truthy(config.value.botTone) ==> r.0 == Aria
    ensures config.Some? && Truthy(config.value.botTone) ==> r.0 == VoiceForTone(config.value.botTone.value)
    ensures r.0 == Aria || r.0 in ToneToVoice.Values
    ensures r.1 == SpeakingRate(config)
  {
    if config.None? then (Aria, 1.0)
    else
      var voice := if Truthy(config.value.botTone) then VoiceForTone(config.value.botTone.value) else Aria;
      (voice, SpeakingRate(config))
  }
}
