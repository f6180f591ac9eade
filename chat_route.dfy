/** The chat endpoint's pure part: checking the request's `message`, keeping the
    well-formed `user`/`assistant` entries of its `history`, truncating them to
    the most recent ten, rendering the prompt, and reading the model's reply.
    The text generation service is a parameter: a function from the prompt to
    the JSON it answers with (None when the call or the parse fails). */
module ChatRoute {
  import opened Wrappers
  import Seqs

  /** A parsed JSON value. Numbers keep only an integer payload: nothing here
      depends on their value beyond their type and truthiness. */
  datatype Json =
    | JNull
    | JBool(b: bool)
    | JNumber(n: int)
    | JString(str: string)
    | JArray(elems: seq<Json>)
    | JObject(fields: map<string, Json>)

  datatype ChatMessage = ChatMessage(role: string, content: string)

  const SystemPrompt: string :=
    "You are a helpful AI coding assistant. You help developers with:\n"
    + "- Code explanations and debugging\n"
    + "- Best practices and architecture advice  \n"
    + "- Writing clean, efficient code\n"
    + "- Troubleshooting errors\n"
    + "- Code reviews and optimizations\n"
    + "\n"
    + "Always provide clear, practical answers. Use proper code formatting when showing examples."

  /** The system prompt, sent as the first `user` message. */
  const SystemMessage := ChatMessage("user", SystemPrompt)

  const HistoryLimit: nat := 10
  const MessageRequired := "Message is required and must be a string"
  const GenerationFailed := "Failed to generate response"
  const ResponseFailed := "Failed to generate AI response"

  /** `value.key`: None stands for `undefined`. Only objects carry properties. */
  function Field(j: Json, key: string): (r: Option<Json>)
    ensures r.Some? <==> j.JObject? && key in j.fields
  {
    if j.JObject? && key in j.fields then Some(j.fields[key]) else None
  }

  // ------------------------------------------------------------ message

  /** The message check of `POST`: only a non-empty string passes (an empty
      string is falsy, every other value fails the `typeof` test). */
  function ValidMessage(message: Option<Json>): (r: Option<string>)
    ensures r.Some? <==> message.Some? && message.value.JString? && message.value.str != ""
    ensures r.Some? ==> message == Some(JString(r.value)) && r.value != ""
  {
    match message
    case Some(JString(s)) => if s != "" then Some(s) else None
    case _ => None
  }

  // ------------------------------------------------------------ history

  /** A history entry `POST` keeps: an object whose `role` is the string
      `user` or `assistant` and whose `content` is a string. */
  predicate IsChatEntry(j: Json) {
    && j.JObject?
    && "role" in j.fields && j.fields["role"].JString?
    && j.fields["role"].str in {"user", "assistant"}
    && "content" in j.fields && j.fields["content"].JString?
  }

  /** The valid entries of `history`, in their order; anything but an array
      (including a missing history) counts as empty. */
  function ValidHistory(history: Option<Json>): (r: seq<Json>)
    ensures forall i :: 0 <= i < |r| ==> IsChatEntry(r[i])
    ensures history.None? || !history.value.JArray? ==> r == []
    ensures history.Some? && history.value.JArray? ==>
      && |r| <= |history.value.elems|
      && (forall i :: 0 <= i < |r| ==> r[i] in history.value.elems)
      && (forall i :: 0 <= i < |history.value.elems| && IsChatEntry(history.value.elems[i]) ==>
            history.value.elems[i] in r)
  {
    if history.Some? && history.value.JArray? then Seqs.Filter(history.value.elems, IsChatEntry) else []
  }

  /** Filtering keeps the original order: the valid entries of a concatenation
      are those of the first part followed by those of the second. */
  lemma ValidHistoryConcat(a: seq<Json>, b: seq<Json>)
    ensures ValidHistory(Some(JArray(a + b))) == ValidHistory(Some(JArray(a))) + ValidHistory(Some(JArray(b)))
  {
    Seqs.FilterConcat(a, b, IsChatEntry);
  }

  /** A history that is already well formed is kept whole. */
  lemma WellFormedHistoryKept(a: seq<Json>)
    requires forall i :: 0 <= i < |a| ==> IsChatEntry(a[i])
    ensures ValidHistory(Some(JArray(a))) == a
  {
    Seqs.FilterKeepsAll(a, IsChatEntry);
  }

  /** `slice(-10)`: the last ten entries, or all of them when there are fewer. */
  function Recent<T>(s: seq<T>): (r: seq<T>)
    ensures |r| == if |s| <= HistoryLimit then |s| else HistoryLimit
    ensures r == s[|s| - |r|..]
  {
    if |s| <= HistoryLimit then s else s[|s| - HistoryLimit..]
  }

  function AsMessage(j: Json): ChatMessage
    requires IsChatEntry(j)
  {
    ChatMessage(j.fields["role"].str, j.fields["content"].str)
  }

  function ToMessages(entries: seq<Json>): (r: seq<ChatMessage>)
    requires forall i :: 0 <= i < |entries| ==> IsChatEntry(entries[i])
    ensures |r| == |entries|
    ensures forall i :: 0 <= i < |r| ==> r[i] == AsMessage(entries[i]) && r[i].role in {"user", "assistant"}
    decreases |entries|
  {
    if entries == [] then [] else [AsMessage(entries[0])] + ToMessages(entries[1..])
  }

  /** The list `POST` sends: the recent valid history, then the new message. */
  function OutgoingMessages(history: Option<Json>, message: string): (r: seq<ChatMessage>)
    ensures 1 <= |r| <= HistoryLimit + 1
    ensures r[|r| - 1] == ChatMessage("user", message)
    ensures forall i :: 0 <= i < |r| ==> r[i].role in {"user", "assistant"}
  {
    ToMessages(Recent(ValidHistory(history))) + [ChatMessage("user", message)]
  }

  /** Only the last ten valid entries go out, in order, before the new message. */
  lemma OutgoingKeepsLastTen(history: Option<Json>, message: string)
    ensures var valid := ValidHistory(history);
      var r := OutgoingMessages(history, message);
      && |r| == (if |valid| <= HistoryLimit then |valid| else HistoryLimit) + 1
      && forall i :: 0 <= i < |r| - 1 ==> r[i] == AsMessage(valid[|valid| - (|r| - 1) + i])
  {
  }

  // ------------------------------------------------------------ prompt

  /** `${msg.role}:${msg.content}`: the role, a colon, the content. */
  function Render(m: ChatMessage): (r: string)
    ensures |r| == |m.role| + 1 + |m.content|
    ensures r[..|m.role|] == m.role && r[|m.role|] == ':' && r[|m.role| + 1..] == m.content
  {
    m.role + ":" + m.content
  }

  /** A role without a colon is read back from the rendering: different
      messages render differently. */
  lemma RenderInjective(a: ChatMessage, b: ChatMessage)
    requires ':' !in a.role && ':' !in b.role && Render(a) == Render(b)
    ensures a == b
  {
    var n := if |a.role| <= |b.role| then |a.role| else |b.role|;
    assert Render(a)[n] == ':' <==> n == |a.role|;
    assert Render(b)[n] == ':' <==> n == |b.role|;
    assert a.role == Render(a)[..|a.role|];
  }

  function RenderAll(ms: seq<ChatMessage>): (r: seq<string>)
    ensures |r| == |ms| && forall i :: 0 <= i < |r| ==> r[i] == Render(ms[i])
    decreases |ms|
  {
    if ms == [] then [] else [Render(ms[0])] + RenderAll(ms[1..])
  }

  predicate EndsWith(s: string, suffix: string) {
    |suffix| <= |s| && s[|s| - |suffix|..] == suffix
  }

  /** The prompt: the system prompt as a `user` message, then the outgoing
      list, each as `role:content`, separated by blank lines. It opens with the
      system message and, when there are messages, continues with a blank line
      and their rendering joined the same way. */
  function Prompt(messages: seq<ChatMessage>): (r: string)
    ensures messages == [] ==> r == Render(SystemMessage)
    ensures messages != [] ==> r == Render(SystemMessage) + "\n\n" + Seqs.Join(RenderAll(messages), "\n\n")
  {
    RenderAllCons(SystemMessage, messages);
    var parts := [Render(SystemMessage)] + RenderAll(messages);
    assert |parts| > 1 ==> parts[1..] == RenderAll(messages);
    Seqs.Join(parts, "\n\n")
  }

  lemma RenderAllCons(m: ChatMessage, ms: seq<ChatMessage>)
    ensures RenderAll([m] + ms) == [Render(m)] + RenderAll(ms)
  {
    assert ([m] + ms)[1..] == ms;
  }

  lemma RenderAllSnoc(ms: seq<ChatMessage>, m: ChatMessage)
    ensures RenderAll(ms + [m]) == RenderAll(ms) + [Render(m)]
  {
  }

  lemma EndsWithAppend(head: string, tail: string)
    ensures EndsWith(head + tail, tail)
  {
    assert (head + tail)[|head|..] == tail;
  }

  /** A join of two or more parts ends with the separator and the last part. */
  lemma JoinEndsWithLast(parts: seq<string>, sep: string)
    requires |parts| >= 2
    ensures EndsWith(Seqs.Join(parts, sep), sep + parts[|parts| - 1])
  {
    var init, last := parts[..|parts| - 1], parts[|parts| - 1];
    assert parts == init + [last];
    Seqs.JoinLast(init, last, sep);
    assert Seqs.Join(init, sep) + sep + last == Seqs.Join(init, sep) + (sep + last);
    EndsWithAppend(Seqs.Join(init, sep), sep + last);
  }

  /** The prompt ends with a blank line and its last message. */
  lemma PromptEndsWithLast(messages: seq<ChatMessage>)
    requires messages != []
    ensures EndsWith(Prompt(messages), "\n\n" + Render(messages[|messages| - 1]))
  {
    var all := [SystemMessage] + messages;
    var parts := RenderAll(all);
    assert all[|all| - 1] == messages[|messages| - 1];
    JoinEndsWithLast(parts, "\n\n");
  }

  /** A text ending in a blank line and a rendered user message ends in
      `user:` and that message. */
  lemma EndsWithUserTurn(text: string, message: string)
    requires EndsWith(text, "\n\n" + Render(ChatMessage("user", message)))
    ensures EndsWith(text, "\n\nuser:" + message)
  {
    assert "\n\n" + Render(ChatMessage("user", message)) == "\n\nuser:" + message;
  }

  lemma PromptEndsWithUser(messages: seq<ChatMessage>, message: string)
    requires messages != [] && messages[|messages| - 1] == ChatMessage("user", message)
    ensures EndsWith(Prompt(messages), "\n\nuser:" + message)
  {
    PromptEndsWithLast(messages);
    EndsWithUserTurn(Prompt(messages), message);
  }

  /** The prompt `POST` sends ends with a blank line and the new message. */
  lemma PromptEndsWithMessage(history: Option<Json>, message: string)
    ensures EndsWith(Prompt(OutgoingMessages(history, message)), "\n\nuser:" + message)
  {
    PromptEndsWithUser(OutgoingMessages(history, message), message);
  }

  // ------------------------------------------------------------ reply

  /** JavaScript's white space and line terminators, which `trim` removes. */
  predicate IsJsSpace(c: char) {
    || c == '\t' || c == '\n' || c == '\U{B}' || c == '\U{C}' || c == '\r' || c == ' '
    || c == '\U{A0}' || c == '\U{1680}' || ('\U{2000}' <= c <= '\U{200A}')
    || c == '\U{2028}' || c == '\U{2029}' || c == '\U{202F}' || c == '\U{205F}'
    || c == '\U{3000}' || c == '\U{FEFF}'
  }

  function TrimStart(s: string): (r: string)
    ensures |r| <= |s| && r == s[|s| - |r|..]
    ensures forall i :: 0 <= i < |s| - |r| ==> IsJsSpace(s[i])
    ensures r == [] || !IsJsSpace(r[0])
    decreases |s|
  {
    if s != [] && IsJsSpace(s[0]) then TrimStart(s[1..]) else s
  }

  function TrimEnd(s: string): (r: string)
    ensures |r| <= |s| && r == s[..|r|]
    ensures forall i :: |r| <= i < |s| ==> IsJsSpace(s[i])
    ensures r == [] || !IsJsSpace(r[|r| - 1])
    decreases |s|
  {
    if s != [] && IsJsSpace(s[|s| - 1]) then TrimEnd(s[..|s| - 1]) else s
  }

  /** `String.prototype.trim`. */
  function Trim(s: string): (r: string)
    ensures |r| <= |s|
    ensures r == [] || (!IsJsSpace(r[0]) && !IsJsSpace(r[|r| - 1]))
  {
    TrimEnd(TrimStart(s))
  }

  /** `trim` gives the empty string exactly for text that is all white space. */
  lemma TrimBlank(s: string)
    ensures Trim(s) == [] <==> forall i :: 0 <= i < |s| ==> IsJsSpace(s[i])
  {
    var t := TrimStart(s);
    var k := |s| - |t|;
    if Trim(s) != [] {
      assert t[0] == s[k];
    }
  }

  /** Trimming removes only surrounding white space and leaves none at either
      end: the result is the slice of `s` from `k` on, everything before `k`
      and after the result being white space. */
  lemma TrimRemovesOnlyEdges(s: string) returns (k: nat)
    ensures k + |Trim(s)| <= |s| && Trim(s) == s[k..k + |Trim(s)|]
    ensures forall i :: 0 <= i < k ==> IsJsSpace(s[i])
    ensures forall i :: k + |Trim(s)| <= i < |s| ==> IsJsSpace(s[i])
  {
    var t := TrimStart(s);
    var r := TrimEnd(t);
    k := |s| - |t|;
    assert r == s[k..k + |r|] by {
      assert t == s[k..];
      assert r == t[..|r|];
    }
    forall i | k + |r| <= i < |s|
      ensures IsJsSpace(s[i])
    {
      assert s[i] == t[i - k];
      assert |r| <= i - k < |t|;
    }
  }

  lemma TrimIdempotent(s: string)
    ensures Trim(Trim(s)) == Trim(s)
  {
    var r := Trim(s);
    if r != [] {
      var _ := TrimRemovesOnlyEdges(s);
      assert TrimStart(r) == r;
      assert TrimEnd(r) == r;
    }
  }

  datatype Generation = Generated(text: string) | NotGenerated(message: string)

  /** The end of `generateAIResponse`: the trimmed `response` of the reply
      when it is a non-empty string; otherwise (no reply, a missing, falsy or
      non-string `response`) the one generation error. */
  function Reply(data: Option<Json>): (r: Generation)
    ensures r.Generated? <==>
      data.Some? && Field(data.value, "response").Some? &&
      Field(data.value, "response").value.JString? && Field(data.value, "response").value.str != ""
    ensures r.Generated? ==> r.text == Trim(Field(data.value, "response").value.str)
    ensures r.NotGenerated? ==> r.message == GenerationFailed
  {
    if data.Some? then
      match Field(data.value, "response")
      case Some(JString(s)) => if s != "" then Generated(Trim(s)) else NotGenerated(GenerationFailed)
      case _ => NotGenerated(GenerationFailed)
    else NotGenerated(GenerationFailed)
  }

  // ------------------------------------------------------------ POST

  /** The request body: parsed JSON, or a parse failure with its message. */
  datatype Request = Unparseable(parseError: string) | Body(json: Json)

  /** The response. `details` is None for the runtime's own message when a null
      body cannot be destructured. */
  datatype ChatResponse =
    | Answered(response: string)
    | BadRequest(error: string)
    | ServerError(error: string, details: Option<string>)

  function Status(r: ChatResponse): int {
    match r
    case Answered(_) => 200
    case BadRequest(_) => 400
    case ServerError(_, _) => 500
  }

  /** `POST`, with the generation service as `generate`. */
  function Post(req: Request, generate: string -> Option<Json>): (r: ChatResponse)
    ensures Status(r) == 400 <==>
      req.Body? && req.json != JNull && ValidMessage(Field(req.json, "message")).None?
    ensures r.BadRequest? ==> r.error == MessageRequired
    ensures r.ServerError? ==> r.error == ResponseFailed
  {
    match req
    case Unparseable(e) => ServerError(ResponseFailed, Some(e))
    case Body(body) =>
      if body == JNull then ServerError(ResponseFailed, None)
      else
        match ValidMessage(Field(body, "message"))
        case None => BadRequest(MessageRequired)
        case Some(message) =>
          match Reply(generate(Prompt(OutgoingMessages(Field(body, "history"), message))))
          case Generated(text) => Answered(text)
          case NotGenerated(e) => ServerError(ResponseFailed, Some(e))
  }

  /** A rejected message never reaches the generation service: the response is
      the same whatever the service would answer. */
  lemma BadMessageNeverGenerates(req: Request, g1: string -> Option<Json>, g2: string -> Option<Json>)
    requires Status(Post(req, g1)) == 400
    ensures Post(req, g2) == Post(req, g1) == BadRequest(MessageRequired)
  {
  }

  /** A valid message is answered from exactly one prompt: the one built from
      the recent valid history and the message; the reply decides 200 or 500. */
  lemma ValidMessageAsksOnce(body: Json, message: string, generate: string -> Option<Json>)
    requires body != JNull && ValidMessage(Field(body, "message")) == Some(message)
    ensures var data := generate(Prompt(OutgoingMessages(Field(body, "history"), message)));
      && (Reply(data).Generated? ==> Post(Body(body), generate) == Answered(Reply(data).text))
      && (Reply(data).NotGenerated? ==> Post(Body(body), generate) == ServerError(ResponseFailed, Some(GenerationFailed)))
  {
    var data := generate(Prompt(OutgoingMessages(Field(body, "history"), message)));
    assert Post(Body(body), generate) ==
      match Reply(data)
      case Generated(text) => Answered(text)
      case NotGenerated(e) => ServerError(ResponseFailed, Some(e));
  }
}
