/** The chat panel's message list: sending appends the user's message, the reply settles
    its status and may append the assistant's answer. The `await` of the request splits
    `sendMessage` into `Send` (before) and `Receive` (after). */
module ChatPanel {
  import opened Wrappers
  import opened Js
  import Text

  datatype Role = User | Assistant

  /** A message's delivery status; assistant messages carry none. */
  datatype Status = NoStatus | Sending | Sent | Failed

  /** A message; `content` is whatever value the reply put there. */
  datatype Message = Message(id: string, role: Role, content: Value, status: Status)

  const Welcome := Message("1", Assistant,
    Str("Hey Stephen! \U{1F436} Mission Control is online. Messages sent here go to my main session."),
    NoStatus)

  /** `prev.map((msg) => msg.id === id ? { ...msg, status } : msg)`. */
  function SetStatus(ms: seq<Message>, id: string, status: Status): (r: seq<Message>)
    ensures |r| == |ms|
    ensures forall i :: 0 <= i < |ms| ==>
      r[i] == if ms[i].id == id then ms[i].(status := status) else ms[i]
  {
    if ms == [] then []
    else
      var m := ms[|ms| - 1];
      SetStatus(ms[..|ms| - 1], id, status) + [if m.id == id then m.(status := status) else m]
  }

  /** Setting a status twice is setting the last one. */
  lemma SetStatusOverwrites(ms: seq<Message>, id: string, s1: Status, s2: Status)
    ensures SetStatus(SetStatus(ms, id, s1), id, s2) == SetStatus(ms, id, s2)
  {
  }

  /** The update never changes which messages there are, only statuses. */
  lemma SetStatusKeepsMessages(ms: seq<Message>, id: string, status: Status)
    ensures forall i :: 0 <= i < |ms| ==>
      var m := SetStatus(ms, id, status)[i];
      m.id == ms[i].id && m.role == ms[i].role && m.content == ms[i].content
    ensures (forall i :: 0 <= i < |ms| ==> ms[i].id != id) ==> SetStatus(ms, id, status) == ms
  {
  }

  /** The assistant message's content for a truthy `data.result`: the result itself when it
      is a string, otherwise its `response` when that is truthy, otherwise a placeholder.
      It is never falsy. */
  function AssistantContent(result: Value): (c: Value)
    requires Truthy(result)
    ensures Truthy(c)
    ensures result.Str? ==> c == result
    ensures !result.Str? ==>
      c == if Truthy(OptMember(result, "response")) then OptMember(result, "response")
           else Str("Message received")
  {
    if result.Str? then result
    else
      var response := OptMember(result, "response");
      if Truthy(response) then response else Str("Message received")
  }

  /** What `await res.json()` gave, or that the request or the parse threw. */
  datatype ChatReply = Answered(data: Value) | Threw

  /** The reply's verdict on the user's message: `sent` for a truthy `data.ok`, `error`
      for a falsy one, and `error` when anything threw (including reading `.ok` of a
      `null` body). */
  function Verdict(reply: ChatReply): (s: Status)
    ensures s == Sent || s == Failed
    ensures s == Sent <==>
      reply.Answered? && !Nullish(reply.data) && Truthy(OptMember(reply.data, "ok"))
  {
    match reply
    case Threw => Failed
    case Answered(data) =>
      match Member(data, "ok")
      case None => Failed
      case Some(ok) => if Truthy(ok) then Sent else Failed
  }

  /** The assistant message the reply adds, if any: only when `data.ok` and `data.result`
      are both truthy. */
  function Answer(reply: ChatReply, later: nat): (r: seq<Message>)
    ensures |r| <= 1
    ensures |r| == 1 <==> Verdict(reply) == Sent && Truthy(OptMember(reply.data, "result"))
    ensures |r| == 1 ==>
      r[0] == Message(Text.Decimal(later + 1), Assistant,
                      AssistantContent(OptMember(reply.data, "result")), NoStatus)
  {
    if Verdict(reply) == Sent && Truthy(OptMember(reply.data, "result")) then
      [Message(Text.Decimal(later + 1), Assistant,
               AssistantContent(OptMember(reply.data, "result")), NoStatus)]
    else []
  }

  /** The message list after the reply to the message `id` arrived (at time `later`). */
  function Settle(ms: seq<Message>, id: string, reply: ChatReply, later: nat): (r: seq<Message>)
    ensures |ms| <= |r| <= |ms| + 1
    ensures r[..|ms|] == SetStatus(ms, id, Verdict(reply))
    ensures r[|ms|..] == Answer(reply, later)
  {
    SetStatus(ms, id, Verdict(reply)) + Answer(reply, later)
  }

  /** A failed exchange adds nothing; it only marks the message. */
  lemma FailureAppendsNothing(ms: seq<Message>, id: string, reply: ChatReply, later: nat)
    requires Verdict(reply) == Failed
    ensures Settle(ms, id, reply, later) == SetStatus(ms, id, Failed)
  {
  }

  /** The panel's state. */
  class Panel {
    var messages: seq<Message>
    var input: string
    var isTyping: bool

    constructor ()
      ensures messages == [Welcome] && input == "" && !isTyping
    {
      messages := [Welcome];
      input := "";
      isTyping := false;
    }

    /** The part of `sendMessage` before the request (at time `now`): blank input is
        ignored; otherwise the user's message is appended with status `sending`, the input
        cleared, and the text to send is returned. */
    method Send(now: nat) returns (request: Option<string>)
      modifies this
      ensures Text.IsBlank(old(input)) ==>
        request == None
        && messages == old(messages) && input == old(input) && isTyping == old(isTyping)
      ensures !Text.IsBlank(old(input)) ==>
        && request == Some(old(input))
        && messages == old(messages) + [Message(Text.Decimal(now), User, Str(old(input)), Sending)]
        && input == "" && isTyping
    {
      Text.TrimEmptyIffBlank(input);
      if Text.Trim(input) == "" {
        return None;
      }
      var text := input;
      var userMessage := Message(Text.Decimal(now), User, Str(text), Sending);
      messages := messages + [userMessage];
      input := "";
      isTyping := true;
      return Some(text);
    }

    /** The part of `sendMessage` after the request for message `id`: its status settles,
        an answer may be appended, and typing stops whatever happened. */
    method Receive(id: string, reply: ChatReply, later: nat)
      modifies this
      ensures messages == Settle(old(messages), id, reply, later)
      ensures input == old(input) && !isTyping
    {
      var status := Verdict(reply);
      messages := SetStatus(messages, id, status);
      var answer := Answer(reply, later);
      if answer != [] {
        messages := messages + answer;
      }
      isTyping := false;
    }
  }
}
