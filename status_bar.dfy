/** The status bar: the model and session names read out of the gateway's status text
    (with their fallbacks), and the connected/error state after each poll. The regular
    expressions `/Model:\s*([^\s·]+)/` and `/Session:\s*([^\s•]+)/` are written out as a
    scanner. */
module StatusBar {
  import opened Wrappers
  import opened Js
  import Text

  const MiddleDot := '\U{00B7}'
  const Bullet := '\U{2022}'

  /** A character of the captured name: neither white space nor the stop character. */
  predicate NameChar(c: char, stop: char) {
    !Text.IsSpace(c) && c != stop
  }

  /** The end of the white-space run starting at `i`. */
  function SkipSpace(s: string, i: nat): (r: nat)
    requires i <= |s|
    ensures i <= r <= |s| && Text.IsBlank(s[i..r])
    ensures r == |s| || !Text.IsSpace(s[r])
    decreases |s| - i
  {
    if i < |s| && Text.IsSpace(s[i]) then SkipSpace(s, i + 1) else i
  }

  /** The end of the run of name characters starting at `i`. */
  function NameEnd(s: string, i: nat, stop: char): (r: nat)
    requires i <= |s|
    ensures i <= r <= |s| && forall k :: i <= k < r ==> NameChar(s[k], stop)
    ensures r == |s| || !NameChar(s[r], stop)
    decreases |s| - i
  {
    if i < |s| && NameChar(s[i], stop) then NameEnd(s, i + 1, stop) else i
  }

  /** The capture of a match starting at position `p`, if the pattern matches there. */
  function MatchAt(s: string, p: nat, key: string, stop: char): (r: Option<string>)
    requires p <= |s|
    ensures r.Some? ==> Text.StartsWith(s[p..], key) && r.value != []
    ensures r.Some? ==> forall k :: 0 <= k < |r.value| ==> NameChar(r.value[k], stop)
  {
    if !Text.StartsWith(s[p..], key) then None
    else
      var i := SkipSpace(s, p + |key|);
      var j := NameEnd(s, i, stop);
      if i < j then Some(s[i..j]) else None
  }

  /** The regular expression's meaning at position `p`: the key, white space up to `w`,
      then the capture `c`, a non-empty run of name characters that ends the run. */
  predicate MatchesWith(s: string, p: nat, key: string, stop: char, w: nat, c: string) {
    && p + |key| <= w <= |s| && s[p..p + |key|] == key
    && Text.IsBlank(s[p + |key|..w])
    && |c| >= 1 && w + |c| <= |s| && s[w..w + |c|] == c
    && (forall k :: 0 <= k < |c| ==> NameChar(c[k], stop))
    && (w + |c| == |s| || !NameChar(s[w + |c|], stop))
  }

  /** What the scanner captures at a position is what the regular expression captures. */
  lemma MatchAtSound(s: string, p: nat, key: string, stop: char)
    requires p <= |s| && MatchAt(s, p, key, stop).Some?
    ensures MatchesWith(s, p, key, stop, SkipSpace(s, p + |key|), MatchAt(s, p, key, stop).value)
  {
    var i := SkipSpace(s, p + |key|);
    var j := NameEnd(s, i, stop);
    var c := s[i..j];
    assert forall k :: 0 <= k < |c| ==> c[k] == s[i + k];
  }

  lemma MatchAtComplete(s: string, p: nat, key: string, stop: char, w: nat, c: string)
    requires p <= |s| && MatchesWith(s, p, key, stop, w, c)
    ensures MatchAt(s, p, key, stop) == Some(c)
  {
    var start := p + |key|;
    assert s[p..][..|key|] == key;
    assert s[w] == c[0];
    SkipSpaceTo(s, start, w);
    forall k | w <= k < w + |c| ensures NameChar(s[k], stop) {
      assert s[k] == c[k - w];
    }
    NameEndAt(s, w, w + |c|, stop);
  }

  /** `\s*` from `i` ends at `w` when everything before `w` is white space and `s[w]` is not. */
  lemma {:induction false} SkipSpaceTo(s: string, i: nat, w: nat)
    requires i <= w <= |s| && Text.IsBlank(s[i..w])
    requires w == |s| || !Text.IsSpace(s[w])
    ensures SkipSpace(s, i) == w
    decreases w - i
  {
    if i < w {
      assert Text.IsSpace(s[i..w][0]);
      assert s[i + 1..w] == s[i..w][1..];
      SkipSpaceTo(s, i + 1, w);
    }
  }

  /** The name run from `i` ends at `j` when every character before `j` is a name
      character and `s[j]` is not. */
  lemma {:induction false} NameEndAt(s: string, i: nat, j: nat, stop: char)
    requires i <= j <= |s| && forall k :: i <= k < j ==> NameChar(s[k], stop)
    requires j == |s| || !NameChar(s[j], stop)
    ensures NameEnd(s, i, stop) == j
    decreases j - i
  {
    if i < j {
      NameEndAt(s, i + 1, j, stop);
    }
  }

  /** The leftmost position from `from` on where the pattern matches. */
  function FirstMatch(s: string, key: string, stop: char, from: nat): (r: Option<nat>)
    requires from <= |s| + 1
    ensures r.Some? ==> from <= r.value <= |s| && MatchAt(s, r.value, key, stop).Some?
    ensures r.Some? ==> forall q :: from <= q < r.value ==> MatchAt(s, q, key, stop).None?
    ensures r.None? ==> forall q :: from <= q <= |s| ==> MatchAt(s, q, key, stop).None?
    decreases |s| + 1 - from
  {
    if from > |s| then None
    else if MatchAt(s, from, key, stop).Some? then Some(from)
    else FirstMatch(s, key, stop, from + 1)
  }

  /** `s.match(re)?.[1]`: the capture of the leftmost match, or `None` when there is none. */
  function Extract(s: string, key: string, stop: char): (r: Option<string>)
    ensures r.Some? ==> |r.value| >= 1 && forall k :: 0 <= k < |r.value| ==> NameChar(r.value[k], stop)
  {
    match FirstMatch(s, key, stop, 0)
    case None => None
    case Some(p) =>
      MatchAtSound(s, p, key, stop);
      MatchAt(s, p, key, stop)
  }

  /** The extraction is exactly the regular expression's: a capture comes from the leftmost
      position where the pattern matches, and there is no capture only when it matches
      nowhere. */
  lemma ExtractIsLeftmostMatch(s: string, key: string, stop: char, p: nat, w: nat, c: string)
    requires p <= |s| && MatchesWith(s, p, key, stop, w, c)
    requires forall q: nat, w': nat, c' :: q < p ==> !MatchesWith(s, q, key, stop, w', c')
    ensures Extract(s, key, stop) == Some(c)
  {
    MatchAtComplete(s, p, key, stop, w, c);
    var f := FirstMatch(s, key, stop, 0);
    MatchAtSound(s, f.value, key, stop);
  }

  lemma ExtractNone(s: string, key: string, stop: char)
    requires Extract(s, key, stop).None?
    ensures forall p: nat, w: nat, c :: p <= |s| ==> !MatchesWith(s, p, key, stop, w, c)
  {
    forall p: nat, w: nat, c | p <= |s| && MatchesWith(s, p, key, stop, w, c) ensures false {
      MatchAtComplete(s, p, key, stop, w, c);
    }
  }

  // ---------------------------------------------------------------------------------------
  // fetchStatus

  /** The bar's state; `error` is `undefined` when absent. */
  datatype Status = Status(model: Value, session: Value, connected: bool, error: Value)

  const Initial := Status(Str("unknown"), Str("main"), false, Undefined)

  /** `data.result.details?.statusText || data.result.content?.[0]?.text || ''`. */
  function StatusText(result: Value): (t: Value)
    ensures Truthy(OptMember(OptMember(result, "details"), "statusText")) ==>
      t == OptMember(OptMember(result, "details"), "statusText")
    ensures !Truthy(OptMember(OptMember(result, "details"), "statusText")) ==>
      t == (if Truthy(OptMember(OptFirst(OptMember(result, "content")), "text"))
            then OptMember(OptFirst(OptMember(result, "content")), "text") else Str(""))
  {
    var fromDetails := OptMember(OptMember(result, "details"), "statusText");
    var fromContent := OptMember(OptFirst(OptMember(result, "content")), "text");
    if Truthy(fromDetails) then fromDetails
    else if Truthy(fromContent) then fromContent
    else Str("")
  }

  /** The model: the `Model:` capture, else `result.model`, else `opus`. */
  function ModelName(text: string, result: Value): (m: Value)
    ensures Truthy(m)
    ensures Extract(text, "Model:", MiddleDot).Some? ==> m == Str(Extract(text, "Model:", MiddleDot).value)
    ensures Extract(text, "Model:", MiddleDot).None? ==>
      m == (if Truthy(OptMember(result, "model")) then OptMember(result, "model") else Str("opus"))
  {
    match Extract(text, "Model:", MiddleDot)
    case Some(c) => Str(c)
    case None =>
      var fallback := OptMember(result, "model");
      if Truthy(fallback) then fallback else Str("opus")
  }

  /** The session: the `Session:` capture, else `result.details?.sessionKey`, else `main`. */
  function SessionName(text: string, result: Value): (m: Value)
    ensures Truthy(m)
    ensures Extract(text, "Session:", Bullet).Some? ==> m == Str(Extract(text, "Session:", Bullet).value)
    ensures Extract(text, "Session:", Bullet).None? ==>
      var key := OptMember(OptMember(result, "details"), "sessionKey");
      m == (if Truthy(key) then key else Str("main"))
  {
    match Extract(text, "Session:", Bullet)
    case Some(c) => Str(c)
    case None =>
      var fallback := OptMember(OptMember(result, "details"), "sessionKey");
      if Truthy(fallback) then fallback else Str("main")
  }

  /** What `await res.json()` gave, or that the request or the parse threw. */
  datatype StatusReply = Answered(data: Value) | Threw

  /** One poll of `fetchStatus` from the previous state `prev`. Reading `.ok` of a `null`
      body, and calling `.match` on a status text that is not a string, throw and end in
      the `Network error` branch. */
  function FetchStatus(prev: Status, reply: StatusReply): (r: Status)
    ensures r.connected ==>
      && reply.Answered? && !Nullish(reply.data)
      && Truthy(OptMember(reply.data, "ok")) && Truthy(OptMember(reply.data, "result"))
      && StatusText(OptMember(reply.data, "result")).Str?
    ensures r.connected ==>
      var result := OptMember(reply.data, "result");
      var text := StatusText(result).s;
      r == Status(ModelName(text, result), SessionName(text, result), true, Undefined)
    ensures !r.connected ==> r.model == prev.model && r.session == prev.session
    ensures reply.Threw? || Nullish(reply.data) ==> r == prev.(connected := false, error := Str("Network error"))
    ensures (reply.Answered? && !Nullish(reply.data) &&
             !(Truthy(OptMember(reply.data, "ok")) && Truthy(OptMember(reply.data, "result")))) ==>
      r == prev.(connected := false, error := OptMember(OptMember(reply.data, "error"), "message"))
    ensures (reply.Answered? && !Nullish(reply.data) &&
             Truthy(OptMember(reply.data, "ok")) && Truthy(OptMember(reply.data, "result"))) ==>
      var result := OptMember(reply.data, "result");
      var text := StatusText(result);
      r == if text.Str? then Status(ModelName(text.s, result), SessionName(text.s, result), true, Undefined)
           else prev.(connected := false, error := Str("Network error"))
  {
    match reply
    case Threw => prev.(connected := false, error := Str("Network error"))
    case Answered(data) =>
      match Member(data, "ok")
      case None => prev.(connected := false, error := Str("Network error"))
      case Some(ok) =>
        var result := OptMember(data, "result");
        if !(Truthy(ok) && Truthy(result)) then
          prev.(connected := false, error := OptMember(OptMember(data, "error"), "message"))
        else
          var text := StatusText(result);
          if !text.Str? then prev.(connected := false, error := Str("Network error"))
          else Status(ModelName(text.s, result), SessionName(text.s, result), true, Undefined)
  }

  /** Until a poll connects, the bar keeps showing the initial model `unknown` and session
      `main`, whatever the failed polls answered. */
  lemma {:induction false} FailedPollsKeepInitial(replies: seq<StatusReply>)
    requires forall k :: 0 <= k < |replies| ==> !FetchStatus(Polls(Initial, replies[..k]), replies[k]).connected
    ensures Polls(Initial, replies).model == Str("unknown") && Polls(Initial, replies).session == Str("main")
    ensures !Polls(Initial, replies).connected
  {
    if replies != [] {
      var n := |replies| - 1;
      assert forall k :: 0 <= k < n ==> replies[..n][..k] == replies[..k];
      FailedPollsKeepInitial(replies[..n]);
      assert replies[..n] == replies[..|replies| - 1];
    }
  }

  /** The state after the polls `replies`, one after the other, from `s`; a bar that a
      poll left connected shows no error. */
  function Polls(s: Status, replies: seq<StatusReply>): (r: Status)
    ensures replies == [] ==> r == s
    ensures replies != [] && r.connected ==> r.error == Undefined
  {
    if replies == [] then s else FetchStatus(Polls(s, replies[..|replies| - 1]), replies[|replies| - 1])
  }

  /** A model read from the text is a single word with no middle dot, and a session
      read from the text is a single word with no bullet. */
  lemma NamesAreWords(text: string, result: Value)
    ensures Extract(text, "Model:", MiddleDot).Some? ==>
      var m := ModelName(text, result).s;
      |m| >= 1 && forall k :: 0 <= k < |m| ==> !Text.IsSpace(m[k]) && m[k] != MiddleDot
    ensures Extract(text, "Session:", Bullet).Some? ==>
      var m := SessionName(text, result).s;
      |m| >= 1 && forall k :: 0 <= k < |m| ==> !Text.IsSpace(m[k]) && m[k] != Bullet
  {
  }

  /** A worked example: white space after the key is skipped and the capture ends at the
      next space. */
  lemma ExampleStatusLine()
    ensures Extract("Model: opus \U{00B7} Session: main\U{2022}x", "Model:", MiddleDot) == Some("opus")
  {
    var s := "Model: opus \U{00B7} Session: main\U{2022}x";
    MatchesAtZero(s);
    ExtractIsLeftmostMatch(s, "Model:", MiddleDot, 0, 7, "opus");
  }

  lemma MatchesAtZero(s: string)
    requires s == "Model: opus \U{00B7} Session: main\U{2022}x"
    ensures MatchesWith(s, 0, "Model:", MiddleDot, 7, "opus")
  {
    var rest := " \U{00B7} Session: main\U{2022}x";
    assert s == "Model:" + " " + "opus" + rest;
    assert Text.IsBlank(" ") by { assert Text.IsSpace(" "[0]); }
    OpusIsName();
    assert rest[0] == ' ';
    KeyBlankName("Model:", " ", "opus", rest, MiddleDot);
  }

  /** The key, then white space, then a name that the rest does not continue, matches at
      the start with that name as capture. */
  lemma KeyBlankName(key: string, blank: string, name: string, rest: string, stop: char)
    requires Text.IsBlank(blank)
    requires |name| >= 1 && forall k :: 0 <= k < |name| ==> NameChar(name[k], stop)
    requires rest == [] || !NameChar(rest[0], stop)
    ensures MatchesWith(key + blank + name + rest, 0, key, stop, |key| + |blank|, name)
  {
    var s := key + blank + name + rest;
    var w := |key| + |blank|;
    assert s[0..|key|] == key;
    assert s[|key|..w] == blank;
    assert s[w..w + |name|] == name;
    if rest != [] {
      assert s[w + |name|] == rest[0];
    }
  }

  lemma OpusIsName()
    ensures forall k :: 0 <= k < |"opus"| ==> NameChar("opus"[k], MiddleDot)
  {
    forall k | 0 <= k < |"opus"| ensures NameChar("opus"[k], MiddleDot) {
      assert "opus"[k] in "opus";
    }
  }
}
