/** The chat proxy's POST handler (api/chat/route.ts) without its network
    call: what it does with the request body and the environment before
    calling the model service, and what it makes of the service's answer.
    The environment variables and the outcome of the `fetch` are
    parameters. */
module Chat {
  import opened Wrappers
  import opened Decimal

  /** One chat message of the request body. The source declares the role as
      "user" | "assistant" | "system", but nothing checks that. So any
      string is allowed here. */
  datatype Message = Message(role: string, content: string)

  /** The request body as `req.json()` delivers it: either unreadable (the
      call threw with the given message) or an object whose `messages`
      field is present or absent (undefined or null). */
  datatype RequestBody = Unreadable(reason: string) | Body(messages: Option<seq<Message>>)

  /** One entry of the outgoing `contents`: a role and its parts. */
  datatype Part = Part(text: string)
  datatype Content = Content(role: string, parts: seq<Part>)

  /** What the handler sends to the model service. */
  datatype Outgoing = Outgoing(url: string, contents: seq<Content>)

  /** The service's JSON answer, along `candidates[0].content.parts[*].text`;
      None is a missing (or null) step of that path. */
  datatype ReplyPart = ReplyPart(text: Option<string>)
  datatype ReplyContent = ReplyContent(parts: Option<seq<ReplyPart>>)
  datatype Candidate = Candidate(content: Option<ReplyContent>)
  datatype Reply = Reply(candidates: Option<seq<Candidate>>)

  /** What the `fetch` and the reading of its body came to. */
  datatype Upstream =
    | Answered(reply: Reply)
    | NotOk(status: nat, errText: string)
    | Threw(message: string)

  /** A plain-text response with a status, or `Response.json({ text })`. */
  datatype Response = Plain(status: nat, body: string) | JsonText(text: string) {
    function Status(): nat
    {
      match this
      case Plain(st, _) => st
      case JsonText(_) => 200
    }
  }

  const DefaultModel: string := "gemini-1.5-flash-latest"
  const KeyMissing: string := "GEMINI_API_KEY missing"
  const LastNotUser: string := "Last message must be from 'user'"

  /** An environment value is falsy when it is unset or empty. */
  predicate Falsy(v: Option<string>): (b: bool)
    ensures v.None? ==> b
    ensures !b ==> v.Some? && |v.value| > 0
  {
    v.None? || v.value == ""
  }

  // ----- filter, validate, map (route.ts:13-21) -----

  /** `msgs.filter(m => m.role !== "system")`. */
  function Conversation(msgs: seq<Message>): (conv: seq<Message>)
    ensures |conv| <= |msgs|
    ensures forall i :: 0 <= i < |conv| ==> conv[i].role != "system" && conv[i] in msgs
  {
    if |msgs| == 0 then []
    else if msgs[0].role == "system" then Conversation(msgs[1..])
    else [msgs[0]] + Conversation(msgs[1..])
  }

  /** Filtering distributes over concatenation, so the kept messages stay in
      their original order. */
  lemma {:induction false} ConversationAppend(a: seq<Message>, b: seq<Message>)
    ensures Conversation(a + b) == Conversation(a) + Conversation(b)
    decreases |a|
  {
    if |a| > 0 {
      assert (a + b)[1..] == a[1..] + b;
      ConversationAppend(a[1..], b);
    } else {
      assert a + b == b;
    }
  }

  /** Every message that is not a system message is kept. */
  lemma {:induction false} ConversationKeeps(msgs: seq<Message>, m: Message)
    requires m in msgs && m.role != "system"
    ensures m in Conversation(msgs)
    decreases |msgs|
  {
    if msgs[0] != m {
      assert m in msgs[1..];
      ConversationKeeps(msgs[1..], m);
    }
  }

  /** How many messages have the given role. */
  function CountRole(msgs: seq<Message>, role: string): (n: nat)
    ensures n <= |msgs|
  {
    if |msgs| == 0 then 0
    else (if msgs[0].role == role then 1 else 0) + CountRole(msgs[1..], role)
  }

  /** The filter removes exactly the system messages. */
  lemma {:induction false} ConversationLength(msgs: seq<Message>)
    ensures |Conversation(msgs)| == |msgs| - CountRole(msgs, "system")
    decreases |msgs|
  {
    if |msgs| > 0 {
      ConversationLength(msgs[1..]);
    }
  }

  /** The check at route.ts:14: a conversation is accepted when it is not
      empty and ends with a user message. The last entry forwarded for an
      accepted conversation is then a "user" entry. */
  predicate EndsWithUser(conv: seq<Message>): (b: bool)
    ensures b ==> |conv| > 0 && ToContent(conv[|conv| - 1]).role == "user"
  {
    |conv| > 0 && conv[|conv| - 1].role == "user"
  }

  /** `role: m.role === "assistant" ? "model" : "user"`, `parts: [{ text: m.content }]`. */
  function ToContent(m: Message): (c: Content)
    ensures c.role == "model" || c.role == "user"
    ensures c.role == "model" <==> m.role == "assistant"
    ensures c.parts == [Part(m.content)]
  {
    Content(if m.role == "assistant" then "model" else "user", [Part(m.content)])
  }

  function ToContents(conv: seq<Message>): (cs: seq<Content>)
    ensures |cs| == |conv|
    ensures forall i :: 0 <= i < |conv| ==> cs[i] == ToContent(conv[i])
  {
    seq(|conv|, i requires 0 <= i < |conv| => ToContent(conv[i]))
  }

  /** Reading a content entry back as a chat message. */
  function FromContent(c: Content): Message
  {
    Message(if c.role == "model" then "assistant" else "user",
            if |c.parts| > 0 then c.parts[0].text else "")
  }

  /** A conversation of user and assistant messages is recovered exactly
      from its converted form: the role mapping loses nothing there. Only a
      role outside those two is folded into "user". */
  lemma ContentsRoundTrip(conv: seq<Message>)
    requires forall i :: 0 <= i < |conv| ==> conv[i].role == "user" || conv[i].role == "assistant"
    ensures seq(|conv|, i requires 0 <= i < |conv| => FromContent(ToContents(conv)[i])) == conv
  {
  }

  const ServiceBase: string := "https://generativelanguage.googleapis.com/v1/models/"
  const MethodQuery: string := ":generateContent?key="

  /** The request URL: the service address, the model name, the method and
      the key as query parameter, each where a reader of the URL finds it. */
  function ModelUrl(model: string, key: string): (url: string)
    ensures |url| == |ServiceBase| + |model| + |MethodQuery| + |key|
    ensures url[..|ServiceBase|] == ServiceBase
    ensures url[|ServiceBase|..|ServiceBase| + |model|] == model
    ensures url[|ServiceBase| + |model|..|url| - |key|] == MethodQuery
    ensures url[|url| - |key|..] == key
  {
    ServiceBase + model + MethodQuery + key
  }

  /** Lines 4-21: the request body, the API key and the model name become either
      the request for the service or an early response. */
  function Prepare(body: RequestBody, key: Option<string>, model: Option<string>): (r: Result<Outgoing, Response>)
    ensures body.Unreadable? ==> r == Err(Plain(500, "Error: " + body.reason))
    ensures body.Body? && Falsy(key) ==> r == Err(Plain(500, KeyMissing))
    ensures body.Body? && !Falsy(key) ==>
              var conv := Conversation(body.messages.GetOr([]));
              if EndsWithUser(conv) then
                && r.Ok?
                && r.value.contents == ToContents(conv)
                && r.value.url == ModelUrl(if Falsy(model) then DefaultModel else model.value, key.value)
              else r == Err(Plain(400, LastNotUser))
  {
    match body
    case Unreadable(reason) => Err(Plain(500, "Error: " + reason))
    case Body(messages) =>
      var msgs := messages.GetOr([]);
      if Falsy(key) then Err(Plain(500, KeyMissing))
      else
        var conv := Conversation(msgs);
        if !EndsWithUser(conv) then Err(Plain(400, LastNotUser))
        else
          var name := if Falsy(model) then DefaultModel else model.value;
          Ok(Outgoing(ModelUrl(name, key.value), ToContents(conv)))
  }

  // ----- the reply (route.ts:32-41) -----

  /** `parts.map(p => p.text).join("")`: a missing text joins as "". */
  function JoinTexts(parts: seq<ReplyPart>): (t: string)
    ensures (forall i :: 0 <= i < |parts| ==> parts[i].text.GetOr("") == "") ==> t == ""
    ensures |parts| == 1 ==> t == parts[0].text.GetOr("")
    decreases |parts|
  {
    if |parts| == 0 then "" else parts[0].text.GetOr("") + JoinTexts(parts[1..])
  }

  lemma {:induction false} JoinTextsAppend(a: seq<ReplyPart>, b: seq<ReplyPart>)
    ensures JoinTexts(a + b) == JoinTexts(a) + JoinTexts(b)
    decreases |a|
  {
    if |a| > 0 {
      assert (a + b)[1..] == a[1..] + b;
      JoinTextsAppend(a[1..], b);
    } else {
      assert a + b == b;
    }
  }

  /** The texts written one after the other. */
  function Concat(texts: seq<string>): string
  {
    if |texts| == 0 then "" else texts[0] + Concat(texts[1..])
  }

  function SumOfLengths(texts: seq<string>): nat
  {
    if |texts| == 0 then 0 else |texts[0]| + SumOfLengths(texts[1..])
  }

  /** When every part carries text, the reply is those texts concatenated
      in order, so it has their total length and starts with the first. */
  lemma {:induction false} JoinTextsOfTexts(parts: seq<ReplyPart>, texts: seq<string>)
    requires |parts| == |texts|
    requires forall i :: 0 <= i < |parts| ==> parts[i] == ReplyPart(Some(texts[i]))
    ensures JoinTexts(parts) == Concat(texts)
    ensures |JoinTexts(parts)| == SumOfLengths(texts)
    ensures |parts| > 0 ==> JoinTexts(parts)[..|texts[0]|] == texts[0]
    decreases |parts|
  {
    if |parts| > 0 {
      JoinTextsOfTexts(parts[1..], texts[1..]);
    }
  }

  /** `j?.candidates?.[0]?.content?.parts?.map(...).join("") ?? ""`. */
  function ReplyText(j: Reply): (text: string)
    ensures (j.candidates.None? || |j.candidates.value| == 0) ==> text == ""
    ensures !(j.candidates.Some? && |j.candidates.value| > 0 &&
              j.candidates.value[0].content.Some? && j.candidates.value[0].content.value.parts.Some?) ==>
              text == ""
    ensures j.candidates.Some? && |j.candidates.value| > 0 &&
            j.candidates.value[0].content.Some? && j.candidates.value[0].content.value.parts.Some? ==>
              text == JoinTexts(j.candidates.value[0].content.value.parts.value)
  {
    match j.candidates
    case Some(cs) =>
      if |cs| == 0 then ""
      else (match cs[0].content
        case Some(c) => (match c.parts case Some(ps) => JoinTexts(ps) case None => "")
        case None => "")
    case None => ""
  }

  /** The whole handler. The upstream outcome only matters once the request
      has passed every check: an early response is returned as it is. A
      forwarded request answers 502 exactly when the service answered with
      an error status, 500 exactly when the call threw, and the reply text
      exactly when the service answered. */
  function Post(body: RequestBody, key: Option<string>, model: Option<string>, upstream: Upstream): (r: Response)
    ensures Prepare(body, key, model).Err? ==> r == Prepare(body, key, model).error
    ensures Prepare(body, key, model).Ok? ==> (r.Status() == 502 <==> upstream.NotOk?)
    ensures r.JsonText? <==> Prepare(body, key, model).Ok? && upstream.Answered?
    ensures r.JsonText? ==> r.text == ReplyText(upstream.reply)
    ensures r.Status() == 500 <==>
              body.Unreadable? || (body.Body? && Falsy(key)) ||
              (Prepare(body, key, model).Ok? && upstream.Threw?)
    ensures r.Status() == 200 <==> r.JsonText?
    ensures Prepare(body, key, model).Ok? && upstream.NotOk? ==>
              r == Plain(502, UpstreamMessage(upstream.status, upstream.errText))
  {
    match Prepare(body, key, model)
    case Err(resp) => resp
    case Ok(_) =>
      match upstream
      case NotOk(st, e) => Plain(502, UpstreamMessage(st, e))
      case Threw(msg) => Plain(500, "Error: " + msg)
      case Answered(j) => JsonText(ReplyText(j))
  }

  /** The text of the 502 response: `Upstream ${r.status}: ${errText}`. */
  function UpstreamMessage(st: nat, e: string): (m: string)
    ensures |m| == 11 + |NatToString(st)| + |e|
    ensures m[|m| - |e|..] == e
  {
    "Upstream " + NatToString(st) + ": " + e
  }

  /** The 502 text names the service's status and its error text, and the
      status reads back from the digits that follow "Upstream ". */
  lemma UpstreamErrorText(st: nat, e: string)
    ensures var m := UpstreamMessage(st, e);
            var n := |NatToString(st)|;
            && |m| == 9 + n + 2 + |e|
            && m[..9] == "Upstream "
            && ParseNat(m[9..9 + n]) == st
            && m[9 + n..] == ": " + e
  {
    var d := NatToString(st);
    assert |"Upstream "| == 9;
    assert UpstreamMessage(st, e) == "Upstream " + d + (": " + e);
    ThreeParts("Upstream ", d, ": " + e);
    ParseNatToString(st);
  }

  /** Where the three pieces of a concatenation sit. */
  lemma ThreeParts(a: string, b: string, c: string)
    ensures var m := a + b + c;
            && |m| == |a| + |b| + |c|
            && m[..|a|] == a
            && m[|a|..|a| + |b|] == b
            && m[|a| + |b|..] == c
  {
  }

  /** The key is checked before the messages: without a key the answer is
      500 whatever the messages are. */
  lemma MissingKeyFirst(msgs: Option<seq<Message>>, key: Option<string>, model: Option<string>, upstream: Upstream)
    requires Falsy(key)
    ensures Post(Body(msgs), key, model, upstream) == Plain(500, KeyMissing)
  {
  }

  /** The handler answers 400 exactly when the body was read, the key is set
      and the messages without system messages are empty or do not end with
      a user message. A missing `messages` counts as an empty list. */
  lemma BadRequestExactly(body: RequestBody, key: Option<string>, model: Option<string>, upstream: Upstream)
    ensures Post(body, key, model, upstream).Status() == 400 <==>
              body.Body? && !Falsy(key) && !EndsWithUser(Conversation(body.messages.GetOr([])))
  {
  }

  /** A request that is forwarded carries one entry per non-system message,
      in order, with the role mapped and the content as its only part. */
  lemma ForwardedContents(msgs: seq<Message>, key: Option<string>, model: Option<string>)
    requires !Falsy(key) && EndsWithUser(Conversation(msgs))
    ensures Prepare(Body(Some(msgs)), key, model).Ok?
    ensures var cs := Prepare(Body(Some(msgs)), key, model).value.contents;
            && |cs| == |msgs| - CountRole(msgs, "system")
            && cs[|cs| - 1].role == "user"
            && forall i :: 0 <= i < |cs| ==> cs[i] == ToContent(Conversation(msgs)[i])
  {
    ConversationLength(msgs);
  }
}
