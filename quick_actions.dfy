/** The quick-action buttons: which request each button sends to the action route, the
    input modal of the actions that need a parameter, and the loading and last-result
    state around a request. `executeAction` is split at its `await` into `Begin` (the state
    writes before the request) and `Finish`. */
module QuickActions {
  import opened Wrappers
  import opened Js
  import Text
  import ActionsRoute

  datatype Action = Action(id: string, name: string, icon: string, description: string,
                           color: string, needsInput: bool, inputPlaceholder: string)

  const EmailTriage := Action("email-triage", "Email Triage", "\U{1F4E7}",
    "Check all inboxes for urgent messages",
    "bg-blue-500/20 border-blue-500/30 hover:bg-blue-500/30", false, "")
  const LinkedInPost := Action("linkedin-post", "LinkedIn Post", "\U{1F4BC}",
    "Find article & draft daily post",
    "bg-cyan-500/20 border-cyan-500/30 hover:bg-cyan-500/30", false, "")
  const NovaraMetrics := Action("novara-metrics", "Novara Metrics", "\U{1F4CA}",
    "Pull latest PostHog analytics",
    "bg-purple-500/20 border-purple-500/30 hover:bg-purple-500/30", false, "")
  const CalendarBrief := Action("calendar-brief", "Calendar Brief", "\U{1F4C5}",
    "Next 24h schedule overview",
    "bg-green-500/20 border-green-500/30 hover:bg-green-500/30", false, "")
  const Research := Action("research", "Research", "\U{1F50D}", "Start a research task",
    "bg-amber-500/20 border-amber-500/30 hover:bg-amber-500/30", true, "What to research?")
  const ComposeEmail := Action("compose-email", "Compose Email", "\U{2709}\U{FE0F}",
    "Draft and send an email",
    "bg-rose-500/20 border-rose-500/30 hover:bg-rose-500/30", true, "Email details...")

  /** `actions`, the six buttons. */
  const Actions: seq<Action> :=
    [EmailTriage, LinkedInPost, NovaraMetrics, CalendarBrief, Research, ComposeEmail]

  /** The body posted to the action route: the action id and its string parameters. */
  datatype Request = Request(action: string, params: seq<(string, string)>)

  /** The parameters a modal submission gets: `topic` for research, `prompt` otherwise. */
  function ModalParams(action: Action, input: string): (p: seq<(string, string)>)
    ensures action.id == "research" ==> p == [("topic", input)]
    ensures action.id != "research" ==> p == [("prompt", input)]
  {
    if action.id == "research" then [("topic", input)] else [("prompt", input)]
  }

  /** The request body as the route's `request.json()` sees it. */
  function ParamsValue(params: seq<(string, string)>): (v: Value)
    ensures v.Obj? && |v.fields| == |params|
    ensures forall i :: 0 <= i < |params| ==> v.fields[i] == (params[i].0, Str(params[i].1))
  {
    if params == [] then Obj([])
    else
      var last := params[|params| - 1];
      var init := ParamsValue(params[..|params| - 1]);
      Obj(init.fields + [(last.0, Str(last.1))])
  }

  /** The route turns the request into a prompt (it does not answer 400). */
  predicate Accepted(r: Request) {
    ActionsRoute.Dispatch(Str(r.action), ParamsValue(r.params)).Prompt?
  }

  /** The outcome of the last action: the action's name and the reply's `data.ok`. */
  datatype LastResult = LastResult(action: string, success: Value)

  /** What `await res.json()` gave, or that the request or the parse threw. */
  datatype ActionReply = Answered(data: Value) | Threw

  /** `success`: `data.ok` as it came, or `false` when anything threw (including reading
      `.ok` of a `null` body). */
  function Success(reply: ActionReply): (s: Value)
    ensures reply.Answered? && !Nullish(reply.data) ==> s == OptMember(reply.data, "ok")
    ensures reply.Threw? || Nullish(reply.data) ==> s == Bool(false)
  {
    match reply
    case Threw => Bool(false)
    case Answered(data) =>
      match Member(data, "ok")
      case None => Bool(false)
      case Some(ok) => ok
  }

  class Panel {
    var loading: Option<string>
    var inputModal: Option<Action>
    var inputValue: string
    var lastResult: Option<LastResult>

    /** The modal is only ever open for one of the buttons that need input. */
    predicate Valid()
      reads this
    {
      inputModal.Some? ==> inputModal.value in Actions && inputModal.value.needsInput
    }

    constructor ()
      ensures Valid()
      ensures loading == None && inputModal == None && inputValue == "" && lastResult == None
    {
      loading := None;
      inputModal := None;
      inputValue := "";
      lastResult := None;
    }

    /** The state writes of `executeAction` before its request, and the request. */
    method Begin(action: Action, params: seq<(string, string)>) returns (request: Request)
      modifies this
      ensures request == Request(action.id, params)
      ensures loading == Some(action.id) && lastResult == None
      ensures inputModal == old(inputModal) && inputValue == old(inputValue)
    {
      loading := Some(action.id);
      lastResult := None;
      request := Request(action.id, params);
    }

    /** The state writes of `executeAction` after its request: the result is recorded and
        loading ends whatever happened. */
    method Finish(action: Action, reply: ActionReply)
      modifies this
      ensures lastResult == Some(LastResult(action.name, Success(reply)))
      ensures loading == None
      ensures inputModal == old(inputModal) && inputValue == old(inputValue)
    {
      lastResult := Some(LastResult(action.name, Success(reply)));
      loading := None;
    }

    /** `handleClick` on button `k`: an action that needs input opens the modal with an empty
        input; any other is started at once with no parameters. */
    method HandleClick(k: nat) returns (request: Option<Request>)
      requires Valid() && k < |Actions|
      modifies this
      ensures Valid()
      ensures Actions[k].needsInput ==>
        && request == None && inputModal == Some(Actions[k]) && inputValue == ""
        && loading == old(loading) && lastResult == old(lastResult)
      ensures !Actions[k].needsInput ==>
        && request == Some(Request(Actions[k].id, []))
        && loading == Some(Actions[k].id) && lastResult == None
        && inputModal == old(inputModal) && inputValue == old(inputValue)
      ensures request.Some? ==> Accepted(request.value)
    {
      var action := Actions[k];
      if action.needsInput {
        inputModal := Some(action);
        inputValue := "";
        return None;
      }
      var r := Begin(action, []);
      FixedActionsAccepted(k);
      return Some(r);
    }

    /** `handleInputSubmit`: ignored without an open modal or with blank input; otherwise the
        modal's action is started with its parameter, and the modal is closed and cleared. */
    method HandleInputSubmit() returns (request: Option<Request>)
      requires Valid()
      modifies this
      ensures Valid()
      ensures old(inputModal).None? || Text.IsBlank(old(inputValue)) ==>
        && request == None
        && inputModal == old(inputModal) && inputValue == old(inputValue)
        && loading == old(loading) && lastResult == old(lastResult)
      ensures old(inputModal).Some? && !Text.IsBlank(old(inputValue)) ==>
        var action := old(inputModal).value;
        && request == Some(Request(action.id, ModalParams(action, old(inputValue))))
        && loading == Some(action.id) && lastResult == None
        && inputModal == None && inputValue == ""
      ensures request.Some? ==> Accepted(request.value)
    {
      if inputModal.None? || Text.Trim(inputValue) == "" {
        return None;
      }
      var r := Submit(inputModal.value, inputValue);
      return Some(r);
    }

    /** The submission of a modal with non-blank input: the action starts with its
        parameter and the modal closes with its input cleared. */
    method Submit(action: Action, input: string) returns (request: Request)
      requires action in Actions && action.needsInput && !Text.IsBlank(input)
      modifies this
      ensures request == Request(action.id, ModalParams(action, input)) && Accepted(request)
      ensures loading == Some(action.id) && lastResult == None
      ensures inputModal == None && inputValue == ""
    {
      request := Begin(action, ModalParams(action, input));
      ModalActionsAccepted(action, input);
      inputModal := None;
      inputValue := "";
    }
  }

  /** Every button without input sends an action the route knows. */
  lemma FixedActionsAccepted(k: nat)
    requires k < |Actions| && !Actions[k].needsInput
    ensures Accepted(Request(Actions[k].id, []))
  {
    assert ActionsRoute.FixedPrompt(Actions[k].id).Some?;
  }

  /** Every submission of a modal with non-blank input sends the parameter the route
      requires, so the route never answers `Topic required` or `Prompt required` to the
      panel. */
  lemma ModalActionsAccepted(action: Action, input: string)
    requires action in Actions && action.needsInput && !Text.IsBlank(input)
    ensures Accepted(Request(action.id, ModalParams(action, input)))
  {
    assert input != "";
    var p := ParamsValue(ModalParams(action, input));
    if action.id == "research" {
      assert p == Obj([("topic", Str(input))]);
      assert OptMember(p, "topic") == Str(input);
    } else {
      assert action.id == "compose-email";
      assert p == Obj([("prompt", Str(input))]);
      assert OptMember(p, "prompt") == Str(input);
    }
  }
}
