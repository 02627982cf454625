/** The quick-action route: an action name (and its parameters) selects the prompt sent to
    the gateway's chat completions endpoint, and the reply is shaped into `{ok, response}`
    or `{ok, error}`. */
module ActionsRoute {
  import opened Wrappers
  import opened Js
  import Gateway

  const EmailTriagePrompt :=
    "Check all email inboxes for urgent messages and summarize what needs attention. Be concise."
  const LinkedInPostPrompt :=
    "Run the LinkedIn daily post workflow: find a relevant article and draft a post."
  const NovaraMetricsPrompt :=
    "Pull the latest Novara metrics from PostHog and give me a summary."
  const CalendarBriefPrompt :=
    "What's on my calendar for the next 24 hours? Be concise."

  const ResearchPrefix := "Research: "
  const ResearchSuffix := ". Give me a concise but comprehensive summary."
  const ComposePrefix := "Compose an email: "

  /** `ACTION_PROMPTS`: the actions whose prompt is fixed. */
  function FixedPrompt(name: string): (r: Option<string>)
    ensures r.Some? <==>
      name in {"email-triage", "linkedin-post", "novara-metrics", "calendar-brief"}
  {
    if name == "email-triage" then Some(EmailTriagePrompt)
    else if name == "linkedin-post" then Some(LinkedInPostPrompt)
    else if name == "novara-metrics" then Some(NovaraMetricsPrompt)
    else if name == "calendar-brief" then Some(CalendarBriefPrompt)
    else None
  }

  /** The outcome of the `switch`: a prompt, or the message of a 400 reply. */
  datatype PromptChoice = Prompt(text: string) | Rejected(error: string)

  /** The `switch (action)` of `POST`; `params?.topic` and `params?.prompt` must be truthy,
      and are converted to text as a template literal converts them. */
  function Dispatch(action: Value, params: Value): (r: PromptChoice)
    ensures action.Str? && FixedPrompt(action.s).Some? ==> r == Prompt(FixedPrompt(action.s).value)
    ensures action == Str("research") ==>
      if Truthy(OptMember(params, "topic"))
      then r == Prompt(ResearchPrefix + ToJsString(OptMember(params, "topic")) + ResearchSuffix)
      else r == Rejected("Topic required")
    ensures action == Str("compose-email") ==>
      if Truthy(OptMember(params, "prompt"))
      then r == Prompt(ComposePrefix + ToJsString(OptMember(params, "prompt")))
      else r == Rejected("Prompt required")
    ensures !KnownAction(action) ==> r == Rejected("Unknown action")
  {
    if action.Str? && FixedPrompt(action.s).Some? then Prompt(FixedPrompt(action.s).value)
    else if action == Str("research") then
      var topic := OptMember(params, "topic");
      if !Truthy(topic) then Rejected("Topic required")
      else Prompt(ResearchPrefix + ToJsString(topic) + ResearchSuffix)
    else if action == Str("compose-email") then
      var prompt := OptMember(params, "prompt");
      if !Truthy(prompt) then Rejected("Prompt required")
      else Prompt(ComposePrefix + ToJsString(prompt))
    else Rejected("Unknown action")
  }

  /** The six action names the `switch` knows. */
  predicate KnownAction(action: Value) {
    action.Str? && (FixedPrompt(action.s).Some? || action.s in {"research", "compose-email"})
  }

  /** A prompt is produced exactly for a known action whose required parameter, if any,
      is truthy. */
  lemma DispatchAccepts(action: Value, params: Value)
    ensures Dispatch(action, params).Prompt? <==>
      || (action.Str? && FixedPrompt(action.s).Some?)
      || (action == Str("research") && Truthy(OptMember(params, "topic")))
      || (action == Str("compose-email") && Truthy(OptMember(params, "prompt")))
  {
  }

  /** The research prompt keeps the topic text intact between its fixed prefix and suffix,
      so different topics give different prompts. */
  lemma ResearchPromptKeepsTopic(params: Value)
    requires Truthy(OptMember(params, "topic"))
    ensures var p := Dispatch(Str("research"), params).text;
      && |p| == |ResearchPrefix| + |ToJsString(OptMember(params, "topic"))| + |ResearchSuffix|
      && p[..|ResearchPrefix|] == ResearchPrefix
      && p[|ResearchPrefix|..|p| - |ResearchSuffix|] == ToJsString(OptMember(params, "topic"))
      && p[|p| - |ResearchSuffix|..] == ResearchSuffix
  {
    var t := ToJsString(OptMember(params, "topic"));
    var p := ResearchPrefix + t + ResearchSuffix;
    assert p[..|ResearchPrefix|] == ResearchPrefix;
    assert p[|ResearchPrefix|..|p| - |ResearchSuffix|] == t;
    assert p[|p| - |ResearchSuffix|..] == ResearchSuffix;
  }

  /** The request `executeChat` sends: it always authorizes with the password, even an
      empty one (no token fallback). */
  datatype ChatRequest = ChatRequest(authorization: string, agentId: string, model: string,
                                     user: string, prompt: string)

  function RequestFor(password: string, prompt: string): (q: ChatRequest)
    ensures q.authorization == "Bearer " + password && q.prompt == prompt
    ensures q.agentId == "main" && q.model == "clawdbot:main" && q.user == "bourbon-hq-actions"
  {
    ChatRequest("Bearer " + password, "main", "clawdbot:main", "bourbon-hq-actions", prompt)
  }

  /** With a password the request carries the same header as the gateway client's other
      calls; without one it carries a bare `Bearer ` rather than the token. */
  lemma RequestAuthorization(password: string, token: string, prompt: string)
    ensures password != "" ==>
      RequestFor(password, prompt).authorization == Gateway.AuthHeader(password, token)
    ensures password == "" ==> RequestFor(password, prompt).authorization == "Bearer "
  {
  }

  /** `executeChat`'s shaping of the gateway's reply. */
  function ExecuteChat(reply: Gateway.Reply): (r: Gateway.ChatResult)
    ensures reply.Replied? && !reply.ok ==>
      r == Gateway.ChatFailed(Gateway.HttpError(reply.status, reply.text))
    ensures reply.Replied? && reply.ok && !Nullish(reply.json) ==>
      var c := OptMember(OptMember(OptFirst(OptMember(reply.json, "choices")), "message"), "content");
      r == Gateway.ChatOk(if Truthy(c) then c else Str("No response"))
    ensures reply.Replied? && reply.ok && Nullish(reply.json) ==>
      r == Gateway.ChatFailed(Gateway.ReadOfNullishMessage(reply.json, "choices"))
    ensures reply.Threw? ==> r == Gateway.ChatFailed(ErrorMessage(reply.thrown))
  {
    match reply
    case Threw(t) => Gateway.ChatFailed(ErrorMessage(t))
    case Replied(ok, status, _, text, data) =>
      if !ok then Gateway.ChatFailed(Gateway.HttpError(status, text))
      else if Nullish(data) then Gateway.ChatFailed(Gateway.ReadOfNullishMessage(data, "choices"))
      else
        var content := OptMember(OptMember(OptFirst(OptMember(data, "choices")), "message"), "content");
        Gateway.ChatOk(if Truthy(content) then content else Str("No response"))
  }

  /** The route's `executeChat` shapes every reply exactly as the gateway client's
      `chatSimple` does. */
  lemma ExecuteChatIsChatSimple(reply: Gateway.Reply)
    ensures ExecuteChat(reply) == Gateway.ChatSimple(reply)
  {
  }

  /** The reply of `POST`. */
  datatype ActionReply = BadRequest(error: string) | Answered(result: Gateway.ChatResult)

  /** `POST`: the gateway (a function from request to reply) is asked only when the switch
      produced a prompt. */
  function Post(action: Value, params: Value, password: string,
                gateway: ChatRequest -> Gateway.Reply): (r: ActionReply)
    ensures Dispatch(action, params).Rejected? ==> r == BadRequest(Dispatch(action, params).error)
    ensures Dispatch(action, params).Prompt? ==>
      r == Answered(ExecuteChat(gateway(RequestFor(password, Dispatch(action, params).text))))
  {
    match Dispatch(action, params)
    case Rejected(e) => BadRequest(e)
    case Prompt(p) => Answered(ExecuteChat(gateway(RequestFor(password, p))))
  }

  /** A rejected request never reaches the gateway: its reply is the same whatever the
      gateway would have answered. */
  lemma RejectedIgnoresGateway(action: Value, params: Value, password: string,
                               g1: ChatRequest -> Gateway.Reply, g2: ChatRequest -> Gateway.Reply)
    requires Dispatch(action, params).Rejected?
    ensures Post(action, params, password, g1) == Post(action, params, password, g2)
  {
  }
}
