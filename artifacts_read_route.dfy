/** The artifact read route: a path query parameter is checked for presence and for the
    workspace prefix, then handed to the gateway's `read` tool; its reply is shaped into
    `{ok: true, content}` or `{ok: false, error}`. */
module ArtifactsReadRoute {
  import opened Wrappers
  import opened Js
  import Text

  /** The only directory tree the route lets the gateway read from. */
  const WorkspaceRoot := "/Users/bourbon/clawd"

  /** What `await response.json()` gave, or that the fetch or the parse threw. */
  datatype GatewayReply = Parsed(data: Value) | Failed

  /** The reply of `GET`, with its HTTP status where it is not 200. */
  datatype ReadReply =
    | Rejected(status: nat, error: string)
    | Content(content: Value)
    | ReadError(message: Value)

  /** The access rule: a plain prefix test on the path text. */
  predicate Allowed(path: string) {
    Text.StartsWith(path, WorkspaceRoot)
  }

  /** The guard clauses before the gateway is called: the status and message of the early
      reply, or `None` when the path passes both. */
  function Guard(path: Option<string>): (r: Option<ReadReply>)
    ensures (path.None? || path.value == "") ==> r == Some(Rejected(400, "Path required"))
    ensures path.Some? && path.value != "" && !Allowed(path.value) ==>
      r == Some(Rejected(403, "Access denied"))
    ensures r.None? <==> path.Some? && Allowed(path.value)
  {
    if path.None? || path.value == "" then Some(Rejected(400, "Path required"))
    else if !Allowed(path.value) then Some(Rejected(403, "Access denied"))
    else None
  }

  /** The shaping of the gateway's reply: `data.ok && data.result !== undefined` gives the
      content; otherwise `data.error?.message || 'Failed to read file'`; a fetch or parse
      failure, or a `null` body whose `.ok` read throws, gives `Network error`. */
  function Shape(reply: GatewayReply): (r: ReadReply)
    ensures r.Content? <==>
      reply.Parsed? && !Nullish(reply.data)
      && Truthy(OptMember(reply.data, "ok")) && OptMember(reply.data, "result") != Undefined
    ensures r.Content? ==> r.content == OptMember(reply.data, "result")
    ensures r.ReadError? ==> Truthy(r.message)
    ensures reply.Parsed? && !Nullish(reply.data) && !r.Content? ==>
      var m := OptMember(OptMember(reply.data, "error"), "message");
      r == ReadError(if Truthy(m) then m else Str("Failed to read file"))
    ensures (reply.Failed? || Nullish(reply.data)) ==> r == ReadError(Str("Network error"))
    ensures !r.Rejected?
  {
    match reply
    case Failed => ReadError(Str("Network error"))
    case Parsed(data) =>
      match Member(data, "ok")
      case None => ReadError(Str("Network error"))
      case Some(ok) =>
        var result := OptMember(data, "result");
        if Truthy(ok) && result != Undefined then Content(result)
        else
          var message := OptMember(OptMember(data, "error"), "message");
          ReadError(if Truthy(message) then message else Str("Failed to read file"))
  }

  /** `GET`: the gateway (a function from the path to read to its reply) is asked only for
      a path that passed the guard. */
  function Get(path: Option<string>, gateway: string -> GatewayReply): (r: ReadReply)
    ensures Guard(path).Some? ==> r == Guard(path).value
    ensures Guard(path).None? ==> r == Shape(gateway(path.value))
    ensures r.Rejected? <==> !(path.Some? && Allowed(path.value))
  {
    match Guard(path)
    case Some(early) => early
    case None => Shape(gateway(path.value))
  }

  /** A refused path never reaches the gateway. */
  lemma RefusedIgnoresGateway(path: Option<string>, g1: string -> GatewayReply,
                              g2: string -> GatewayReply)
    requires !(path.Some? && Allowed(path.value))
    ensures Get(path, g1) == Get(path, g2)
    ensures Get(path, g1).Rejected?
  {
  }

  /** The prefix test is not a directory test: a sibling directory whose name extends the
      workspace's, and a path climbing out of it with `..`, both pass. */
  lemma PrefixIsNotContainment()
    ensures Allowed("/Users/bourbon/clawdX/secret")
    ensures Allowed("/Users/bourbon/clawd/../other/file")
    ensures !Allowed("/Users/bourbon/claw")
  {
    var a := "/Users/bourbon/clawdX/secret";
    var b := "/Users/bourbon/clawd/../other/file";
    assert a[..|WorkspaceRoot|] == WorkspaceRoot;
    assert b[..|WorkspaceRoot|] == WorkspaceRoot;
  }
}
