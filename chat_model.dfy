/** The in-memory session store: session states kept under their ids, each
    new session seeded with one system message built from its configuration.
    The random id the store draws is supplied by the caller. */
module ChatModel {
  import opened Wrappers
  import opened Text
  import opened ChatSchema

  /** A stored session. */
  datatype ChatState = ChatState(
    sessionId: string,
    title: string,
    sessionType: string,
    config: ChatInitConfig,
    messages: seq<ChatMessage>,
    userName: Option<string>)

  const BaseInstruction :=
    "You are an English speaking practice partner. "
    + "Keep responses concise and conversational. "
    + "Always respond in English, and encourage the learner."

  /** A field is used when it is present and not empty. */
  predicate Used(field: Option<string>) {
    field.Some? && field.value != ""
  }

  function Clause(heading: string, field: Option<string>): (r: seq<string>)
    ensures |r| == (if Used(field) then 1 else 0)
    ensures forall k :: 0 <= k < |r| ==> r[k] != ""
  {
    if Used(field) then [heading + field.value + "."] else []
  }

  /** The configuration's clauses in the order scenario, level, user role,
      bot tone, goal, each only when its field is used. */
  function InitParts(config: ChatInitConfig): (r: seq<string>)
    ensures |r| <= 5
    ensures r == [] <==> NoneUsed(config)
    ensures forall k :: 0 <= k < |r| ==> r[k] != ""
  {
    Clause("Scenario: ", config.scenario)
    + Clause("Learner level: ", config.level)
    + Clause("User role: ", config.userRole)
    + Clause("Bot tone: ", config.botTone)
    + Clause("Goal: ", config.goal)
  }

  /** The seeded system message's text: the base instruction, a space, and
      the clauses joined by spaces. */
  function SystemContent(config: ChatInitConfig): string {
    BaseInstruction + " " + JoinWith(InitParts(config), " ")
  }

  predicate NoneUsed(config: ChatInitConfig) {
    !Used(config.scenario) && !Used(config.level) && !Used(config.userRole) &&
    !Used(config.botTone) && !Used(config.goal)
  }

  /** The content always opens with the base instruction and a space, and is
      exactly that when no field is used (the space is kept). */
  lemma SystemContentShape(config: ChatInitConfig)
    ensures StartsWith(SystemContent(config), BaseInstruction + " ")
    ensures SystemContent(config) == BaseInstruction + " " <==> NoneUsed(config)
  {
    var parts := InitParts(config);
    StartsWithConcat(BaseInstruction + " ", JoinWith(parts, " "));
    if !NoneUsed(config) {
      JoinNonEmpty(parts, " ");
    } else {
      assert parts == [];
    }
  }

  /** A join whose first part is not empty is not empty. */
  lemma JoinNonEmpty(parts: seq<string>, sep: string)
    requires |parts| > 0 && parts[0] != ""
    ensures JoinWith(parts, sep) != ""
  {
    JoinStartsWith(parts, sep);
  }

  /** The one-field configuration names its field in the message. */
  lemma ScenarioOnly(scenario: string)
    requires scenario != ""
    ensures SystemContent(ChatInitConfig(scenario := Some(scenario))) == BaseInstruction + " Scenario: " + scenario + "."
  {
    var parts := InitParts(ChatInitConfig(scenario := Some(scenario)));
    assert parts == ["Scenario: " + scenario + "."];
  }

  /** The store: the session map, updated in place. */
  class ChatStore {
    var sessions: map<string, ChatState>

    constructor()
      ensures sessions == map[]
    {
      sessions := map[];
    }

    /** The state stored under `sessionId`, if any. */
    function GetSession(sessionId: string): (r: Option<ChatState>)
      reads this
      ensures r.Some? <==> sessionId in sessions
      ensures r.Some? ==> r.value == sessions[sessionId]
    {
      if sessionId in sessions then Some(sessions[sessionId]) else None
    }

    /** Creates a session under the drawn id: its state carries the arguments
        and exactly one message, the system message of the configuration;
        every other session is left as it was. */
    method CreateSession(sessionId: string, title: string, sessionType: string, config: ChatInitConfig)
      returns (state: ChatState)
      modifies this
      ensures state == ChatState(sessionId, title, sessionType, config, [ChatMessage(System, SystemContent(config))], None)
      ensures sessions == old(sessions)[sessionId := state]
      ensures GetSession(sessionId) == Some(state)
      ensures forall other :: other != sessionId ==> GetSession(other) == old(GetSession(other))
      ensures |state.messages| == 1 && state.messages[0].role == System
    {
      state := ChatState(sessionId, title, sessionType, config, [], None);
      var systemParts: seq<string> := [];
      if Used(config.scenario) {
        systemParts := systemParts + ["Scenario: " + config.scenario.value + "."];
      }
      if Used(config.level) {
        systemParts := systemParts + ["Learner level: " + config.level.value + "."];
      }
      assert systemParts == Clause("Scenario: ", config.scenario) + Clause("Learner level: ", config.level);
      if Used(config.userRole) {
        systemParts := systemParts + ["User role: " + config.userRole.value + "."];
      }
      if Used(config.botTone) {
        systemParts := systemParts + ["Bot tone: " + config.botTone.value + "."];
      }
      assert systemParts == Clause("Scenario: ", config.scenario) + Clause("Learner level: ", config.level)
        + Clause("User role: ", config.userRole) + Clause("Bot tone: ", config.botTone);
      if Used(config.goal) {
        systemParts := systemParts + ["Goal: " + config.goal.value + "."];
      }
      assert systemParts == InitParts(config);
      var systemContent := BaseInstruction + " " + JoinWith(systemParts, " ");
      state := state.(messages := state.messages + [ChatMessage(System, systemContent)]);
      sessions := sessions[sessionId := state];
    }
  }
}
