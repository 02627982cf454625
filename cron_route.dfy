/** The cron route: GET passes the gateway's job list through; POST forwards a `run` or a
    `toggle` request and rejects everything else. */
module CronRoute {
  import opened Wrappers
  import opened Js
  import Gateway

  /** The gateway calls the route can make. */
  datatype Call = ListJobs | RunJob(jobId: Value) | ToggleJob(jobId: Value, enabled: Value)

  /** The two guards of `POST`: `run` needs a truthy `jobId`, `toggle` only needs `jobId` and
      `enabled` to be present (not `undefined`). */
  function Route(action: Value, jobId: Value, enabled: Value): (r: Option<Call>)
    ensures action == Str("run") && Truthy(jobId) ==> r == Some(RunJob(jobId))
    ensures action == Str("toggle") && jobId != Undefined && enabled != Undefined ==>
      r == Some(ToggleJob(jobId, enabled))
    ensures r.Some? <==>
      || (action == Str("run") && Truthy(jobId))
      || (action == Str("toggle") && jobId != Undefined && enabled != Undefined)
    ensures r != Some(ListJobs)
  {
    if action == Str("run") && Truthy(jobId) then Some(RunJob(jobId))
    else if action == Str("toggle") && jobId != Undefined && enabled != Undefined then
      Some(ToggleJob(jobId, enabled))
    else None
  }

  /** A reply of the route: the gateway's response as it came, or the 400 reply. */
  datatype CronReply = Forwarded(response: Gateway.ToolResponse) | InvalidAction(message: string)

  /** The message of the 400 reply, `{ok: false, error: {message}}`. */
  const InvalidActionMessage := "Invalid action"

  /** `POST`. */
  function Post(action: Value, jobId: Value, enabled: Value,
                gateway: Call -> Gateway.ToolResponse): (r: CronReply)
    ensures Route(action, jobId, enabled).None? ==> r == InvalidAction("Invalid action")
    ensures Route(action, jobId, enabled).Some? ==>
      r == Forwarded(gateway(Route(action, jobId, enabled).value))
  {
    match Route(action, jobId, enabled)
    case None => InvalidAction(InvalidActionMessage)
    case Some(call) => Forwarded(gateway(call))
  }

  /** `GET`: the job list exactly as the gateway returned it. */
  function Get(gateway: Call -> Gateway.ToolResponse): (r: CronReply)
    ensures r.Forwarded? && r.response == gateway(ListJobs)
  {
    Forwarded(gateway(ListJobs))
  }

  /** The two guards differ on falsy values: an empty job id is refused for `run` but
      forwarded for `toggle`, and so is `enabled: false`. */
  lemma ToggleAcceptsFalsyValues(enabled: Value)
    requires enabled != Undefined
    ensures Route(Str("run"), Str(""), enabled).None?
    ensures Route(Str("toggle"), Str(""), enabled) == Some(ToggleJob(Str(""), enabled))
    ensures Route(Str("toggle"), Str("job"), Bool(false)) == Some(ToggleJob(Str("job"), Bool(false)))
  {
  }

  /** A refused request never reaches the gateway. */
  lemma InvalidIgnoresGateway(action: Value, jobId: Value, enabled: Value,
                              g1: Call -> Gateway.ToolResponse, g2: Call -> Gateway.ToolResponse)
    requires Route(action, jobId, enabled).None?
    ensures Post(action, jobId, enabled, g1) == Post(action, jobId, enabled, g2) == InvalidAction("Invalid action")
  {
  }
}
