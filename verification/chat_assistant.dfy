/** The study-assistant endpoint: follow-up suggestions, the turns sent to the
    language model, and the conversation row that is written back. */
module ChatAssistant {
  import opened Wrappers
  import opened Text
  import opened LanguageModel

  // ---------------------------------------------------------------------
  // Follow-up suggestions
  // ---------------------------------------------------------------------

  const ExamplePrompt: string := "Can you explain that with an example?"
  const PracticePrompt: string := "What are some practice problems for this?"
  const TimePrompt: string := "How much time should I spend on this?"
  const ResourcesPrompt: string := "Suggest resources for this topic"
  const FocusPrompt: string := "What should I focus on next?"
  const CreatePlanPrompt: string := "Help me create a study plan"
  const ClarifyPrompt: string := "Can you break this down further?"

  /** The question asks "how" or "what", in any letter case. */
  predicate AsksHowOrWhat(userMessage: string) {
    var m := ToLower(userMessage);
    Contains(m, "how") || Contains(m, "what")
  }

  /** The reply mentions a concept or topic, in any letter case. */
  predicate MentionsConcept(aiReply: string) {
    var r := ToLower(aiReply);
    Contains(r, "concept") || Contains(r, "topic")
  }

  /** The reply mentions studying or learning, in any letter case. */
  predicate MentionsStudy(aiReply: string) {
    var r := ToLower(aiReply);
    Contains(r, "study") || Contains(r, "learn")
  }

  /** The keyword-triggered prompts, in their fixed order. */
  function TriggeredPrompts(userMessage: string, aiReply: string): (r: seq<string>)
    ensures |r| <= 3
  {
    (if AsksHowOrWhat(userMessage) then [ExamplePrompt] else [])
    + (if MentionsConcept(aiReply) then [PracticePrompt] else [])
    + (if MentionsStudy(aiReply) then [TimePrompt] else [])
  }

  /** The prompts that depend on whether the student has a plan. */
  function PlanPrompts(planId: Option<string>): (r: seq<string>)
    ensures |r| == if IsTruthy(planId) then 2 else 1
  {
    if IsTruthy(planId) then [ResourcesPrompt, FocusPrompt] else [CreatePlanPrompt]
  }

  /** Every prompt the heuristic can offer, best first, the clarification prompt last. */
  function RankedPrompts(userMessage: string, aiReply: string, planId: Option<string>): seq<string> {
    TriggeredPrompts(userMessage, aiReply) + PlanPrompts(planId) + [ClarifyPrompt]
  }

  /** The suggestions are the three best-ranked prompts. */
  function Suggestions(userMessage: string, aiReply: string, planId: Option<string>): seq<string> {
    Take(RankedPrompts(userMessage, aiReply, planId), 3)
  }

  /** The heuristic as the handler runs it: collect, pad once, keep three. */
  method GenerateSuggestions(userMessage: string, aiReply: string, planId: Option<string>)
    returns (suggestions: seq<string>)
    ensures suggestions == Suggestions(userMessage, aiReply, planId)
    ensures 2 <= |suggestions| <= 3
    ensures IsTruthy(planId) ==> |suggestions| == 3
  {
    suggestions := [];
    var lowerMessage := ToLower(userMessage);
    var lowerReply := ToLower(aiReply);
    if Contains(lowerMessage, "how") || Contains(lowerMessage, "what") {
      suggestions := suggestions + [ExamplePrompt];
    }
    if Contains(lowerReply, "concept") || Contains(lowerReply, "topic") {
      suggestions := suggestions + [PracticePrompt];
    }
    if Contains(lowerReply, "study") || Contains(lowerReply, "learn") {
      suggestions := suggestions + [TimePrompt];
    }
    if IsTruthy(planId) {
      suggestions := suggestions + [ResourcesPrompt];
      suggestions := suggestions + [FocusPrompt];
    } else {
      suggestions := suggestions + [CreatePlanPrompt];
    }
    assert suggestions == TriggeredPrompts(userMessage, aiReply) + PlanPrompts(planId);
    if |suggestions| < 3 {
      suggestions := suggestions + [ClarifyPrompt];
    }
    suggestions := Take(suggestions, 3);
  }

  /** Between two and three suggestions; exactly three when there is a plan. */
  lemma SuggestionCount(userMessage: string, aiReply: string, planId: Option<string>)
    ensures 2 <= |Suggestions(userMessage, aiReply, planId)| <= 3
    ensures IsTruthy(planId) ==> |Suggestions(userMessage, aiReply, planId)| == 3
  {
  }

  /** Which prompt is offered, each stated as an if-and-only-if. The three
      triggered prompts always survive the cut; the plan prompts and the
      clarification prompt survive only while there is room. */
  lemma SuggestionMembership(userMessage: string, aiReply: string, planId: Option<string>)
    ensures var s := Suggestions(userMessage, aiReply, planId);
      var k := |TriggeredPrompts(userMessage, aiReply)|;
      && (ExamplePrompt in s <==> AsksHowOrWhat(userMessage))
      && (PracticePrompt in s <==> MentionsConcept(aiReply))
      && (TimePrompt in s <==> MentionsStudy(aiReply))
      && (ResourcesPrompt in s <==> IsTruthy(planId) && k <= 2)
      && (FocusPrompt in s <==> IsTruthy(planId) && k <= 1)
      && (CreatePlanPrompt in s <==> !IsTruthy(planId) && k <= 2)
      && (ClarifyPrompt in s <==> k + |PlanPrompts(planId)| < 3)
  {
    var t := TriggeredPrompts(userMessage, aiReply);
    var s := Suggestions(userMessage, aiReply, planId);
    if IsTruthy(planId) {
      if |t| == 0 {
        assert s == [ResourcesPrompt, FocusPrompt, ClarifyPrompt];
      } else if |t| == 1 {
        assert s == t + [ResourcesPrompt, FocusPrompt];
      } else if |t| == 2 {
        assert s == t + [ResourcesPrompt];
      } else {
        assert s == t;
      }
    } else {
      if |t| == 0 {
        assert s == [CreatePlanPrompt, ClarifyPrompt];
      } else if |t| == 1 {
        assert s == t + [CreatePlanPrompt, ClarifyPrompt];
      } else if |t| == 2 {
        assert s == t + [CreatePlanPrompt];
      } else {
        assert s == t;
      }
    }
  }

  /** No suggestion is offered twice. */
  lemma SuggestionsDistinct(userMessage: string, aiReply: string, planId: Option<string>)
    ensures var s := Suggestions(userMessage, aiReply, planId);
      forall i, j :: 0 <= i < j < |s| ==> s[i] != s[j]
  {
  }

  /** When all three keyword triggers fire, no plan-related prompt is left. */
  lemma AllTriggersCrowdOutPlan(userMessage: string, aiReply: string, planId: Option<string>)
    requires AsksHowOrWhat(userMessage) && MentionsConcept(aiReply) && MentionsStudy(aiReply)
    ensures Suggestions(userMessage, aiReply, planId) == [ExamplePrompt, PracticePrompt, TimePrompt]
  {
  }

  /** The triggers ignore letter case: a question containing "How", "WHAT"
      or any other casing of the two words gets the example prompt. */
  lemma {:induction false} TriggerIgnoresCase(userMessage: string, word: string, aiReply: string, planId: Option<string>)
    requires ToLower(word) == "how" || ToLower(word) == "what"
    requires Contains(userMessage, word)
    ensures ExamplePrompt in Suggestions(userMessage, aiReply, planId)
  {
    ContainsLower(userMessage, word);
    SuggestionMembership(userMessage, aiReply, planId);
  }

  // ---------------------------------------------------------------------
  // Turns sent to the language model
  // ---------------------------------------------------------------------

  /** A stored chat message; `role` is "user", "assistant" or, rarely, "model". */
  datatype Message = Message(role: string, content: string)

  /** A turn in the language model's request: role "user" or "model" and one text part. */
  datatype Turn = Turn(role: string, text: string)

  /** The model's name for a stored role: assistant turns are the model's,
      every other role is sent as the user's. */
  function TurnRole(role: string): (r: string)
    ensures r == "model" <==> role == "assistant"
    ensures r == "model" || r == "user"
  {
    if role == "assistant" then "model" else "user"
  }

  /** The stored history, one turn per message, in order. */
  function HistoryTurns(history: seq<Message>): (turns: seq<Turn>)
    ensures |turns| == |history|
    ensures forall i :: 0 <= i < |history| ==>
      turns[i] == Turn(TurnRole(history[i].role), history[i].content)
  {
    if history == [] then []
    else [Turn(TurnRole(history[0].role), history[0].content)] + HistoryTurns(history[1..])
  }

  /** The conversation as the model sees it: the history, then the new question. */
  function ContentsFor(history: seq<Message>, message: string): (contents: seq<Turn>)
    ensures |contents| == |history| + 1
    ensures contents[..|history|] == HistoryTurns(history)
    ensures contents[|history|] == Turn("user", message)
  {
    HistoryTurns(history) + [Turn("user", message)]
  }

  const EthicsPreamble: string :=
    "You are an Ethical AI Learning Assistant. Your role is to help students learn and understand concepts, NOT to help them cheat."
  const PlanClause: string :=
    "The student has a curriculum plan. You can reference it when providing guidance."
  const NoPlanClause: string :=
    "The student hasn't generated a curriculum yet. You can still help with general learning questions."

  /** The fixed ethical instructions followed by the clause that says whether there is a plan. */
  function SystemPrompt(planId: Option<string>): (p: string)
    ensures EthicsPreamble <= p
    ensures |p| >= |EthicsPreamble| + 2
    ensures p[|EthicsPreamble|..|EthicsPreamble| + 2] == "\n\n"
    ensures p[|EthicsPreamble| + 2..] == if IsTruthy(planId) then PlanClause else NoPlanClause
  {
    EthicsPreamble + "\n\n" + (if IsTruthy(planId) then PlanClause else NoPlanClause)
  }

  /** The text of the last turn: the instructions spliced in front of the question. */
  function FinalUserText(planId: Option<string>, message: string): (t: string)
    ensures SystemPrompt(planId) <= t
    ensures |t| == |SystemPrompt(planId)| + 8 + |message|
    ensures t[|SystemPrompt(planId)|..|t| - |message|] == "\n\nUser: "
    ensures t[|t| - |message|..] == message
  {
    SystemPrompt(planId) + "\n\nUser: " + message
  }

  /** The turns actually sent: every history turn, then the question carrying the instructions. */
  function RequestTurns(history: seq<Message>, message: string, planId: Option<string>): (turns: seq<Turn>)
    ensures |turns| == |history| + 1
    ensures turns[..|history|] == HistoryTurns(history)
    ensures turns[|history|] == Turn("user", FinalUserText(planId, message))
  {
    var contents := ContentsFor(history, message);
    contents[..|contents| - 1] + [Turn("user", FinalUserText(planId, message))]
  }

  /** The request keeps every history turn unchanged, relabels assistant turns
      as the model's, and differs from the plain contents only in its last
      turn, which is still the user's and still ends with the question. */
  lemma RequestSplicesLastTurn(history: seq<Message>, message: string, planId: Option<string>)
    ensures var req := RequestTurns(history, message, planId);
      var contents := ContentsFor(history, message);
      && |req| == |contents| == |history| + 1
      && (forall i :: 0 <= i < |history| ==> req[i] == contents[i])
      && (forall i :: 0 <= i < |history| ==> (req[i].role == "model" <==> history[i].role == "assistant"))
      && req[|history|].role == contents[|history|].role == "user"
      && req[|history|] == Turn("user", SystemPrompt(planId) + "\n\nUser: " + message)
      && SystemPrompt(planId) <= req[|history|].text
      && req[|history|].text[|req[|history|].text| - |message|..] == message
  {
    var req := RequestTurns(history, message, planId);
    var contents := ContentsFor(history, message);
    assert req[..|history|] == contents[..|history|];
    forall i | 0 <= i < |history|
      ensures req[i] == contents[i]
    {
      assert req[i] == req[..|history|][i];
    }
  }

  // ---------------------------------------------------------------------
  // The stored conversation
  // ---------------------------------------------------------------------

  /** The transcript written back: the history, the question and the reply. */
  function StoredMessages(history: seq<Message>, message: string, reply: string): (msgs: seq<Message>)
    ensures |msgs| == |history| + 2
    ensures msgs[..|history|] == history
    ensures msgs[|history|] == Message("user", message) && msgs[|history| + 1] == Message("assistant", reply)
  {
    history + [Message("user", message), Message("assistant", reply)]
  }

  /** `find(m => m.role === "user")?.content`. */
  function FirstUserContent(msgs: seq<Message>): (r: Option<string>)
    ensures r.None? <==> forall i :: 0 <= i < |msgs| ==> msgs[i].role != "user"
    ensures r.Some? ==> exists i :: (0 <= i < |msgs| && msgs[i].role == "user"
      && msgs[i].content == r.value && forall j :: 0 <= j < i ==> msgs[j].role != "user")
  {
    if msgs == [] then None
    else if msgs[0].role == "user" then Some(msgs[0].content)
    else
      var rest := FirstUserContent(msgs[1..]);
      assert forall i :: 1 <= i < |msgs| ==> msgs[i] == msgs[1..][i - 1];
      rest
  }

  /** The stored transcript always has a user message: the first one in the
      history, or else the new question. */
  lemma {:induction false} FirstUserOfStored(history: seq<Message>, message: string, reply: string)
    ensures FirstUserContent(StoredMessages(history, message, reply))
      == if FirstUserContent(history).Some? then FirstUserContent(history) else Some(message)
  {
    if history != [] {
      FirstUserOfStored(history[1..], message, reply);
      assert StoredMessages(history, message, reply)[1..] == StoredMessages(history[1..], message, reply);
    }
  }

  const DefaultTitle: string := "New Conversation"

  /** The conversation title: the first user message cut to 50 characters, or
      the default title when there is none or it is empty. */
  function ConversationTitle(msgs: seq<Message>): (title: string)
    ensures |title| <= 50
    ensures IsTruthy(FirstUserContent(msgs)) ==> title <= FirstUserContent(msgs).value
    ensures IsTruthy(FirstUserContent(msgs)) && |FirstUserContent(msgs).value| <= 50 ==>
      title == FirstUserContent(msgs).value
    ensures IsTruthy(FirstUserContent(msgs)) && |FirstUserContent(msgs).value| > 50 ==> |title| == 50
    ensures !IsTruthy(FirstUserContent(msgs)) ==> title == DefaultTitle
  {
    Take(OrElse(FirstUserContent(msgs), DefaultTitle), 50)
  }

  /** The row written for a conversation. */
  datatype ConversationWrite =
    | UpdateConversation(id: string, messages: seq<Message>, title: string)
    | InsertConversation(id: string, userId: string, title: string, messages: seq<Message>, curriculumId: Option<string>)

  /** Whether and how the transcript is saved: only for a signed-in user with a
      conversation id and configured storage; an existing row is updated,
      otherwise a row is inserted that points at the plan. */
  function ConversationWriteFor(
    userId: Option<string>, conversationId: Option<string>, planId: Option<string>,
    storageConfigured: bool, conversationExists: bool, msgs: seq<Message>): (w: Option<ConversationWrite>)
    ensures w.Some? <==> IsTruthy(userId) && IsTruthy(conversationId) && storageConfigured
    ensures w.Some? ==> (w.value.id == conversationId.value && w.value.messages == msgs
      && w.value.title == ConversationTitle(msgs))
    ensures w.Some? ==> (w.value.UpdateConversation? <==> conversationExists)
    ensures w.Some? && w.value.InsertConversation? ==>
      w.value.userId == userId.value && w.value.curriculumId == planId
  {
    if IsTruthy(userId) && IsTruthy(conversationId) && storageConfigured then
      var title := ConversationTitle(msgs);
      if conversationExists then Some(UpdateConversation(conversationId.value, msgs, title))
      else Some(InsertConversation(conversationId.value, userId.value, title, msgs, planId))
    else None
  }

  // ---------------------------------------------------------------------
  // The request handler
  // ---------------------------------------------------------------------

  datatype ChatRequest = ChatRequest(
    message: string,
    planId: Option<string>,
    conversationHistory: Option<seq<Message>>,
    conversationId: Option<string>,
    userId: Option<string>)

  /** What the deployment provides: a language-model key and storage credentials. */
  datatype ChatEnv = ChatEnv(apiKeyConfigured: bool, storageConfigured: bool)

  datatype ChatError = MissingApiKey | ModelCallFailed | UpstreamStatus(status: int) | InvalidResponseFormat

  datatype ChatResponse = ChatResponse(reply: string, suggestions: seq<string>)

  /** What one request does: the turns sent to the model (when a request is
      made), the response, and the conversation row written. */
  datatype ChatOutcome = ChatOutcome(
    sentTurns: Option<seq<Turn>>,
    response: Result<ChatResponse, ChatError>,
    write: Option<ConversationWrite>)

  /** One chat request, with the model's answer and the existence check of the
      conversation row given as inputs. */
  method HandleChat(req: ChatRequest, env: ChatEnv, answer: ModelAnswer, conversationExists: bool)
    returns (out: ChatOutcome)
    ensures !env.apiKeyConfigured ==> out == ChatOutcome(None, Failure(MissingApiKey), None)
    ensures env.apiKeyConfigured ==>
      out.sentTurns == Some(RequestTurns(req.conversationHistory.GetOr([]), req.message, req.planId))
    ensures env.apiKeyConfigured && answer.ModelThrew? ==> out.response == Failure(ModelCallFailed)
    ensures env.apiKeyConfigured && answer.ModelHttpError? ==>
      out.response == Failure(UpstreamStatus(answer.status))
    ensures env.apiKeyConfigured && answer.ModelHttpOk? && !IsTruthy(answer.candidateText) ==>
      out.response == Failure(InvalidResponseFormat)
    ensures out.response.Success? <==>
      env.apiKeyConfigured && answer.ModelHttpOk? && IsTruthy(answer.candidateText)
    ensures out.response.Success? ==>
      && out.response.value.reply == answer.candidateText.value
      && out.response.value.suggestions == Suggestions(req.message, answer.candidateText.value, req.planId)
    ensures out.response.Failure? ==> out.write.None?
    ensures out.response.Success? ==> out.write == ConversationWriteFor(
      req.userId, req.conversationId, req.planId, env.storageConfigured, conversationExists,
      StoredMessages(req.conversationHistory.GetOr([]), req.message, answer.candidateText.value))
  {
    if !env.apiKeyConfigured {
      return ChatOutcome(None, Failure(MissingApiKey), None);
    }
    var history := req.conversationHistory.GetOr([]);
    var sent := RequestTurns(history, req.message, req.planId);
    if answer.ModelThrew? {
      return ChatOutcome(Some(sent), Failure(ModelCallFailed), None);
    }
    if answer.ModelHttpError? {
      return ChatOutcome(Some(sent), Failure(UpstreamStatus(answer.status)), None);
    }
    if !IsTruthy(answer.candidateText) {
      return ChatOutcome(Some(sent), Failure(InvalidResponseFormat), None);
    }
    var reply := answer.candidateText.value;
    var suggestions := GenerateSuggestions(req.message, reply, req.planId);
    var msgs := StoredMessages(history, req.message, reply);
    var write := ConversationWriteFor(
      req.userId, req.conversationId, req.planId, env.storageConfigured, conversationExists, msgs);
    out := ChatOutcome(Some(sent), Success(ChatResponse(reply, suggestions)), write);
  }

  /** The saved title is at most 50 characters and starts the first user
      message of the saved transcript: the first in the history, else the
      new question; an empty one gives the default title. */
  lemma StoredConversationTitle(history: seq<Message>, message: string, reply: string)
    ensures var title := ConversationTitle(StoredMessages(history, message, reply));
      var first := if FirstUserContent(history).Some? then FirstUserContent(history).value else message;
      && |title| <= 50
      && (first != "" ==> title <= first)
      && (|first| <= 50 && first != "" ==> title == first)
      && (|first| > 50 ==> |title| == 50)
      && (first == "" ==> title == DefaultTitle)
  {
    FirstUserOfStored(history, message, reply);
  }
}
