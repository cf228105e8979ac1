/**
 * `LangChainLiteLLMWrapper`: an ADK model backed by a LangChain chat model.
 * ADK contents become LangChain messages, the request's function
 * declarations become LangChain tool dictionaries, and the chat model's
 * reply becomes an ADK content again.
 *
 * The chat model is an oracle: `invoke` gives the reply to a list of
 * messages and tools, or the text of the exception it raised, and `astream`
 * gives the chunks it streams and, when the stream breaks off, the text of
 * the exception. `json.loads` and `str()` are the host's.
 */
module LangChainWrapper {
  import opened Wrappers
  import opened Json
  import opened Text
  import opened AdkTypes

  /** A tool call on a LangChain message: the function name, its arguments and the call id. */
  datatype ToolCall = ToolCall(name: Option<string>, args: Json, id: Option<string>)

  datatype Message =
    | SystemMessage(content: string)
    | AIMessage(content: string, toolCalls: seq<ToolCall>)
    | HumanMessage(content: string)
    | ToolMessage(content: string, toolCallId: Option<string>)

  const EmptyArgs := JObject(map[])

  /**
   * A call's arguments as a LangChain tool call carries them: a text is
   * parsed as JSON, and a text that does not parse and missing arguments
   * both become `{}`.
   */
  function ArgsValue(args: Args, parse: Parser): (r: Json)
    ensures args.ArgsNone? ==> r == EmptyArgs
    ensures args.ArgsText? && parse(args.text).None? ==> r == EmptyArgs
    ensures args.ArgsText? && parse(args.text).Some? ==> r == parse(args.text).value
    ensures args.ArgsDict? ==> r == JObject(args.fields)
  {
    match args
    case ArgsNone => EmptyArgs
    case ArgsText(t) => parse(t).GetOr(EmptyArgs)
    case ArgsDict(f) => JObject(f)
  }

  /** The tool call for an ADK function call; its id is copied as it is. */
  function CallOf(call: FunctionCall, parse: Parser): ToolCall
  {
    ToolCall(call.name, ArgsValue(call.args, parse), call.id)
  }

  /** The tool call a part contributes, when the part counts as a function call. */
  function ToolCallOfPart(parse: Parser): Part -> Option<ToolCall>
  {
    p => if KindOf(p).CallKind? then Some(CallOf(KindOf(p).call, parse)) else None
  }

  /** The tool calls of the function-call parts, in order. */
  function ToolCalls(parts: seq<Part>, parse: Parser): seq<ToolCall>
  {
    FilterMap(parts, ToolCallOfPart(parse))
  }

  /** The message for a role: `system` and `assistant` are recognised, any other role is a human turn. */
  function RoleMessage(role: Option<string>, text: string, calls: seq<ToolCall>): Message
  {
    if role == Some("system") then SystemMessage(text)
    else if role == Some("assistant") then AIMessage(text, calls)
    else HumanMessage(text)
  }

  /**
   * `_convert_content_to_langchain_message` stated without its loop: the
   * first function-response part decides alone; otherwise the texts are
   * joined by newlines and the role picks the message. A content without
   * parts has no text of its own, so it gives an empty message of its role.
   */
  function MessageOf(content: Content, host: Host): Message
  {
    var parts := content.parts;
    if parts == [] then RoleMessage(content.role, "", [])
    else if Responses(parts) != [] then
      var response := Responses(parts)[0];
      ToolMessage(host.str(response.response), response.id)
    else RoleMessage(content.role, Join(Texts(parts), "\n"), ToolCalls(parts, host.parse))
  }

  /**
   * LangChain's message types refuse the message as it is built, with a
   * `ValidationError`: a tool message needs a string `tool_call_id`, and
   * each tool call of an AI message a string name and dictionary arguments.
   */
  predicate Refused(m: Message)
  {
    match m
    case ToolMessage(_, id) => id.None?
    case AIMessage(_, calls) => exists i :: 0 <= i < |calls| && (calls[i].name.None? || !calls[i].args.JObject?)
    case _ => false
  }

  /**
   * `_convert_content_to_langchain_message`: the loop over the parts, which
   * returns at the first response; `None` when building the message raises.
   */
  method ConvertContent(content: Content, host: Host) returns (m: Option<Message>)
    ensures m.None? <==> Refused(MessageOf(content, host))
    ensures m.Some? ==> m.value == MessageOf(content, host)
  {
    var parts := content.parts;
    if parts == [] {
      return Some(RoleMessage(content.role, "", []));
    }
    var texts: seq<string> := [];
    var calls: seq<ToolCall> := [];
    var i := 0;
    while i < |parts|
      invariant 0 <= i <= |parts|
      invariant texts == Texts(parts[..i])
      invariant calls == ToolCalls(parts[..i], host.parse)
      invariant Responses(parts[..i]) == []
    {
      var part := parts[i];
      FilterMapStep(parts, TextOfPart, i);
      FilterMapStep(parts, ToolCallOfPart(host.parse), i);
      FilterMapStep(parts, ResponseOfPart, i);
      if HasText(part) {
        texts := texts + [part.text.value];
      } else if part.functionCall.Some? {
        calls := calls + [CallOf(part.functionCall.value, host.parse)];
      } else if part.functionResponse.Some? {
        FirstResponseAt(parts, i);
        var response := part.functionResponse.value;
        if response.id.None? {
          return None;
        }
        return Some(ToolMessage(host.str(response.response), response.id));
      }
      i := i + 1;
    }
    WholePrefix(parts);
    var message := RoleMessage(content.role, Join(texts, "\n"), calls);
    if Refused(message) {
      return None;
    }
    m := Some(message);
  }

  /** Some part counts as a function response. */
  predicate HasResponsePart(parts: seq<Part>)
  {
    exists i :: 0 <= i < |parts| && KindOf(parts[i]).ResponseKind?
  }

  lemma ResponsesNonEmpty(parts: seq<Part>)
    ensures Responses(parts) != [] <==> HasResponsePart(parts)
  {
    FilterMapSpec(parts, ResponseOfPart);
    if Responses(parts) != [] {
      assert Responses(parts)[0] in Responses(parts);
    }
    if HasResponsePart(parts) {
      var i :| 0 <= i < |parts| && KindOf(parts[i]).ResponseKind?;
      assert ResponseOfPart(parts[i]).Some?;
    }
  }

  /**
   * The message kind: a tool message exactly when some part is a function
   * response; otherwise `system` gives a system message, `assistant` an AI
   * message, and any other role (or none) a human message.
   */
  lemma MessageKind(content: Content, host: Host)
    ensures var m := MessageOf(content, host);
      && (m.ToolMessage? <==> HasResponsePart(content.parts))
      && (!m.ToolMessage? ==>
            && (m.SystemMessage? <==> content.role == Some("system"))
            && (m.AIMessage? <==> content.role == Some("assistant"))
            && (m.HumanMessage? <==> content.role != Some("system") && content.role != Some("assistant")))
  {
    ResponsesNonEmpty(content.parts);
  }

  /**
   * The first function-response part short-circuits the conversion: the
   * message is a tool message with that response's text and id, whatever
   * the other parts hold, and LangChain refuses it exactly when the id is
   * None.
   */
  lemma {:induction false} ResponseShortCircuits(content: Content, host: Host, i: nat)
    requires i < |content.parts| && KindOf(content.parts[i]).ResponseKind?
    requires forall k :: 0 <= k < i ==> !KindOf(content.parts[k]).ResponseKind?
    ensures var response := content.parts[i].functionResponse.value;
      && MessageOf(content, host) == ToolMessage(host.str(response.response), response.id)
      && (Refused(MessageOf(content, host)) <==> response.id.None?)
  {
    var parts := content.parts;
    ResponsesNonEmpty(parts[..i]);
    FirstResponseAt(parts, i);
  }

  /** When no part is a function response, every text part appears in the message's content. */
  lemma TextsKept(content: Content, host: Host, i: nat)
    requires i < |content.parts| && HasText(content.parts[i]) && !HasResponsePart(content.parts)
    ensures exists k :: OccursAt(MessageOf(content, host).content, content.parts[i].text.value, k)
  {
    var parts := content.parts;
    ResponsesNonEmpty(parts);
    FilterMapSpec(parts, TextOfPart);
    assert TextOfPart(parts[i]) == Some(parts[i].text.value);
    var j := IndexOf(Texts(parts), parts[i].text.value);
    JoinPartAt(Texts(parts), "\n", j);
    assert MessageOf(content, host).content == Join(Texts(parts), "\n");
    assert OccursAt(MessageOf(content, host).content, parts[i].text.value, JoinOffset(Texts(parts), "\n", j));
  }

  /** The index of an element of a sequence. */
  lemma IndexOf<T>(xs: seq<T>, x: T) returns (j: nat)
    requires x in xs
    ensures j < |xs| && xs[j] == x
  {
    j :| 0 <= j < |xs| && xs[j] == x;
  }

  /**
   * The tool calls are exactly those of the function-call parts: each comes
   * from some call part, and each call part gives one.
   */
  lemma ToolCallsFromParts(parts: seq<Part>, parse: Parser)
    ensures forall t :: t in ToolCalls(parts, parse) ==>
      exists i :: 0 <= i < |parts| && KindOf(parts[i]).CallKind? && t == CallOf(KindOf(parts[i]).call, parse)
    ensures forall i :: 0 <= i < |parts| && KindOf(parts[i]).CallKind? ==>
      CallOf(KindOf(parts[i]).call, parse) in ToolCalls(parts, parse)
  {
    FilterMapSpec(parts, ToolCallOfPart(parse));
  }

  // ---------------------------------------------------------------------
  // The chat model's reply as an ADK content

  /** A tool call on the chat model's reply: a name, a dictionary of arguments and an id. */
  datatype ReplyCall = ReplyCall(name: string, args: map<string, Json>, id: Option<string>)

  /** The chat model's reply message: its text and its tool calls. */
  datatype Reply = Reply(content: string, toolCalls: seq<ReplyCall>)

  function CallPartOf(c: ReplyCall): Part
  {
    CallPart(FunctionCall(Some(c.name), ArgsDict(c.args), c.id))
  }

  /** The reply's parts: its text when there is any, then one function-call part per tool call. */
  function ReplyParts(reply: Reply): seq<Part>
  {
    (if reply.content != "" then [TextPart(reply.content)] else []) + MapSeq(CallPartOf, reply.toolCalls)
  }

  /**
   * `_create_content_response`: an assistant content with the reply's
   * parts, and a single empty text part when there are none.
   */
  function ResponseContent(reply: Reply): (c: Content)
    ensures c.role == Some("assistant") && |c.parts| >= 1
    ensures |c.parts| == |ReplyParts(reply)| || c.parts == [TextPart("")]
  {
    var parts := ReplyParts(reply);
    Content(Some("assistant"), if parts == [] then [TextPart("")] else parts)
  }

  /** `_create_content_response`: the loop that appends one part per tool call. */
  method CreateContentResponse(reply: Reply) returns (c: Content)
    ensures c == ResponseContent(reply)
  {
    var parts: seq<Part> := [];
    if reply.content != "" {
      parts := parts + [TextPart(reply.content)];
    }
    ghost var head := parts;
    var i := 0;
    while i < |reply.toolCalls|
      invariant 0 <= i <= |reply.toolCalls|
      invariant parts == head + MapSeq(CallPartOf, reply.toolCalls[..i])
    {
      var call := reply.toolCalls[i];
      CallPartsStep(reply.toolCalls, i);
      parts := parts + [CallPartOf(call)];
      i := i + 1;
    }
    WholePrefix(reply.toolCalls);
    assert parts == ReplyParts(reply);
    if parts == [] {
      parts := [TextPart("")];
    }
    c := Content(Some("assistant"), parts);
  }

  lemma CallPartsStep(calls: seq<ReplyCall>, i: nat)
    requires i < |calls|
    ensures MapSeq(CallPartOf, calls[..i + 1]) == MapSeq(CallPartOf, calls[..i]) + [CallPartOf(calls[i])]
  {
    assert calls[..i + 1] == calls[..i] + [calls[i]];
    MapSeqSnoc(CallPartOf, calls[..i], calls[i]);
  }

  /** The tool call a reply's tool call becomes on the way back in. */
  function AsToolCall(c: ReplyCall): ToolCall
  {
    ToolCall(Some(c.name), JObject(c.args), c.id)
  }

  /** Function-call parts built from tool calls hold no text and no response, and give the calls back. */
  lemma {:induction false} CallPartsBack(cs: seq<ReplyCall>, parse: Parser)
    ensures Texts(MapSeq(CallPartOf, cs)) == []
    ensures Responses(MapSeq(CallPartOf, cs)) == []
    ensures ToolCalls(MapSeq(CallPartOf, cs), parse) == MapSeq(AsToolCall, cs)
    decreases |cs|
  {
    if cs != [] {
      var init := cs[..|cs| - 1];
      var last := cs[|cs| - 1];
      assert cs == init + [last];
      CallPartsBack(init, parse);
      MapSeqSnoc(CallPartOf, init, last);
      MapSeqSnoc(AsToolCall, init, last);
      FilterMapSnoc(MapSeq(CallPartOf, init), CallPartOf(last), TextOfPart);
      FilterMapSnoc(MapSeq(CallPartOf, init), CallPartOf(last), ResponseOfPart);
      FilterMapSnoc(MapSeq(CallPartOf, init), CallPartOf(last), ToolCallOfPart(parse));
    }
  }

  /** The parts built from a reply give back its text, no response, and its tool calls. */
  lemma ReplyPartsBack(reply: Reply, parse: Parser)
    ensures Texts(ReplyParts(reply)) == (if reply.content != "" then [reply.content] else [])
    ensures Responses(ReplyParts(reply)) == []
    ensures ToolCalls(ReplyParts(reply), parse) == MapSeq(AsToolCall, reply.toolCalls)
  {
    var calls := MapSeq(CallPartOf, reply.toolCalls);
    CallPartsBack(reply.toolCalls, parse);
    var head: seq<Part> := if reply.content != "" then [TextPart(reply.content)] else [];
    TextHeadBack(reply.content, parse);
    FilterMapAppend(head, calls, TextOfPart);
    FilterMapAppend(head, calls, ResponseOfPart);
    FilterMapAppend(head, calls, ToolCallOfPart(parse));
  }

  /**
   * Round trip: the content built from a reply converts back to the AI
   * message with the reply's text and tool calls.
   */
  lemma ResponseRoundTrip(reply: Reply, host: Host)
    ensures MessageOf(ResponseContent(reply), host) == AIMessage(reply.content, MapSeq(AsToolCall, reply.toolCalls))
  {
    if ReplyParts(reply) == [] {
      EmptyReplyBack(host);
    } else {
      ReplyPartsBack(reply, host.parse);
    }
  }

  /** The text part a reply starts with gives its text back, and no response or call. */
  lemma TextHeadBack(content: string, parse: Parser)
    ensures var head: seq<Part> := if content != "" then [TextPart(content)] else [];
      && Texts(head) == (if content != "" then [content] else [])
      && Responses(head) == [] && ToolCalls(head, parse) == []
  {
    if content != "" {
      FilterMapSnoc([], TextPart(content), TextOfPart);
      FilterMapSnoc([], TextPart(content), ResponseOfPart);
      FilterMapSnoc([], TextPart(content), ToolCallOfPart(parse));
    }
  }

  /** The single empty text part of an empty reply gives an empty AI message back. */
  lemma EmptyReplyBack(host: Host)
    ensures MessageOf(Content(Some("assistant"), [TextPart("")]), host) == AIMessage("", [])
  {
    FilterMapSnoc([], TextPart(""), TextOfPart);
    FilterMapSnoc([], TextPart(""), ResponseOfPart);
    FilterMapSnoc([], TextPart(""), ToolCallOfPart(host.parse));
  }

  // ---------------------------------------------------------------------
  // generate_content_async

  /** The system message the request's instruction gives, when it has one. */
  function SystemMessages(request: LlmRequest): seq<Message>
  {
    var si := SystemInstruction(request);
    if si.Some? then [SystemMessage(si.value)] else []
  }

  /** The messages of the contents, one per content, in order. */
  function ContentMessages(contents: seq<Content>, host: Host): (r: seq<Message>)
    ensures |r| == |contents|
  {
    if contents == [] then [] else ContentMessages(contents[..|contents| - 1], host) + [MessageOf(contents[|contents| - 1], host)]
  }

  /** The messages sent to the chat model: the system instruction first, then one message per content. */
  function RequestMessages(request: LlmRequest, host: Host): seq<Message>
  {
    SystemMessages(request) + ContentMessages(request.contents, host)
  }

  /** LangChain refuses one of the messages. */
  predicate AnyRefused(ms: seq<Message>)
  {
    exists i :: 0 <= i < |ms| && Refused(ms[i])
  }

  /** The message list `generate_content_async` builds; `None` when building a message raises. */
  method AssembleMessages(request: LlmRequest, host: Host) returns (messages: Option<seq<Message>>)
    ensures messages.None? <==> AnyRefused(RequestMessages(request, host))
    ensures messages.Some? ==> messages.value == RequestMessages(request, host)
  {
    var system: seq<Message> := [];
    var si := SystemInstruction(request);
    if si.Some? {
      system := [SystemMessage(si.value)];
    }
    var contents := request.contents;
    var converted: seq<Message> := [];
    var i := 0;
    while i < |contents|
      invariant 0 <= i <= |contents|
      invariant converted == ContentMessages(contents[..i], host)
      invariant !AnyRefused(converted)
    {
      var m := ConvertContent(contents[i], host);
      ContentMessagesStep(contents, host, i);
      if m.None? {
        RefusedAmong(request, host, i);
        return None;
      }
      AnyRefusedAppend(converted, [m.value]);
      converted := converted + [m.value];
      i := i + 1;
    }
    WholePrefix(contents);
    AnyRefusedAppend(system, converted);
    messages := Some(system + converted);
  }

  lemma AnyRefusedAppend(xs: seq<Message>, ys: seq<Message>)
    ensures AnyRefused(xs + ys) <==> AnyRefused(xs) || AnyRefused(ys)
  {
    if AnyRefused(xs + ys) {
      var i :| 0 <= i < |xs + ys| && Refused((xs + ys)[i]);
      if i < |xs| { assert xs[i] == (xs + ys)[i]; } else { assert ys[i - |xs|] == (xs + ys)[i]; }
    }
    if AnyRefused(xs) {
      var i :| 0 <= i < |xs| && Refused(xs[i]);
      assert (xs + ys)[i] == xs[i];
    }
    if AnyRefused(ys) {
      var i :| 0 <= i < |ys| && Refused(ys[i]);
      assert (xs + ys)[|xs| + i] == ys[i];
    }
  }

  /** A refused content message makes the request's messages refused. */
  lemma RefusedAmong(request: LlmRequest, host: Host, i: nat)
    requires i < |request.contents| && Refused(MessageOf(request.contents[i], host))
    ensures AnyRefused(RequestMessages(request, host))
  {
    SystemFirst(request, host);
    var offset := if SystemInstruction(request).Some? then 1 else 0;
    assert RequestMessages(request, host)[i + offset] == MessageOf(request.contents[i], host);
  }

  lemma ContentMessagesStep(contents: seq<Content>, host: Host, i: nat)
    requires i < |contents|
    ensures ContentMessages(contents[..i + 1], host) == ContentMessages(contents[..i], host) + [MessageOf(contents[i], host)]
  {
    assert contents[..i + 1][..i] == contents[..i];
  }

  lemma {:induction false} ContentMessagesAt(contents: seq<Content>, host: Host, i: nat)
    requires i < |contents|
    ensures ContentMessages(contents, host)[i] == MessageOf(contents[i], host)
    decreases |contents|
  {
    if i < |contents| - 1 {
      ContentMessagesAt(contents[..|contents| - 1], host, i);
    }
  }

  /**
   * The system instruction, when the request has a non-empty one, is the
   * first message, and the contents follow it one message each, in order.
   */
  lemma SystemFirst(request: LlmRequest, host: Host)
    ensures var ms := RequestMessages(request, host);
      var offset := if SystemInstruction(request).Some? then 1 else 0;
      && |ms| == |request.contents| + offset
      && (SystemInstruction(request).Some? ==> ms[0] == SystemMessage(SystemInstruction(request).value))
      && forall i :: 0 <= i < |request.contents| ==> ms[i + offset] == MessageOf(request.contents[i], host)
  {
    forall i | 0 <= i < |request.contents|
      ensures ContentMessages(request.contents, host)[i] == MessageOf(request.contents[i], host)
    {
      ContentMessagesAt(request.contents, host, i);
    }
  }

  /** The chat model: its reply to the messages and the bound tools, or the exception's text. */
  type Invoke = (seq<Message>, seq<ToolSpec>) -> Result<Reply>

  /** The streamed chunks for the messages and the bound tools, and the exception that broke the stream off. */
  type Stream = (seq<Message>, seq<ToolSpec>) -> (seq<Reply>, Option<string>)

  /** The text content a streamed chunk yields, when it has text. */
  function ChunkContent(chunk: Reply): Option<Content>
  {
    if chunk.content != "" then Some(Content(Some("assistant"), [TextPart(chunk.content)])) else None
  }

  /**
   * What the streaming branch yields: one text content per chunk with text;
   * then the error reply when the stream raised; otherwise, when the last
   * chunk carries tool calls, the full content of that chunk. A stream
   * without chunks leaves the loop variable unbound, and the exception that
   * reading it raises (with the text `unbound`) gives the error reply.
   */
  function Streamed(chunks: seq<Reply>, failure: Option<string>, unbound: string): seq<Content>
  {
    FilterMap(chunks, ChunkContent) +
    (if failure.Some? then [ErrorContent(failure.value)]
     else if chunks == [] then [ErrorContent(unbound)]
     else if chunks[|chunks| - 1].toolCalls != [] then [ResponseContent(chunks[|chunks| - 1])]
     else [])
  }

  /** The streaming loop: the yielded contents, in order. */
  method StreamReplies(chunks: seq<Reply>, failure: Option<string>, unbound: string) returns (yielded: seq<Content>)
    ensures yielded == Streamed(chunks, failure, unbound)
  {
    yielded := [];
    var i := 0;
    while i < |chunks|
      invariant 0 <= i <= |chunks|
      invariant yielded == FilterMap(chunks[..i], ChunkContent)
    {
      FilterMapStep(chunks, ChunkContent, i);
      if chunks[i].content != "" {
        yielded := yielded + [Content(Some("assistant"), [TextPart(chunks[i].content)])];
      }
      i := i + 1;
    }
    WholePrefix(chunks);
    if failure.Some? {
      yielded := yielded + [ErrorContent(failure.value)];
    } else if chunks == [] {
      yielded := yielded + [ErrorContent(unbound)];
    } else if chunks[|chunks| - 1].toolCalls != [] {
      var last := CreateContentResponse(chunks[|chunks| - 1]);
      yielded := yielded + [last];
    }
  }

  /**
   * The responses `generate_content_async` yields; `None` when it raises
   * before its `try`, building a message or converting a declaration.
   */
  function Generated(request: LlmRequest, stream: bool, invoke: Invoke, astream: Stream, host: Host, unbound: string)
    : Option<seq<Content>>
  {
    var messages := RequestMessages(request, host);
    var tools := ToolSpecsOf(Declarations(request));
    if AnyRefused(messages) || tools.None? then None
    else if stream then
      var (chunks, failure) := astream(messages, tools.value);
      Some(Streamed(chunks, failure, unbound))
    else
      match invoke(messages, tools.value)
      case Ok(reply) => Some([ResponseContent(reply)])
      case Err(message) => Some([ErrorContent(message)])
  }

  /**
   * `generate_content_async`: the messages (system instruction first), the
   * declarations bound as tools, then the chat model's reply or stream.
   */
  method GenerateContent(request: LlmRequest, stream: bool, invoke: Invoke, astream: Stream, host: Host,
                         unbound: string) returns (responses: Option<seq<Content>>)
    ensures responses == Generated(request, stream, invoke, astream, host, unbound)
  {
    var messages := AssembleMessages(request, host);
    if messages.None? {
      return None;
    }
    var tools := ToolSpecsOf(Declarations(request));
    if tools.None? {
      return None;
    }
    if stream {
      var (chunks, failure) := astream(messages.value, tools.value);
      var yielded := StreamReplies(chunks, failure, unbound);
      responses := Some(yielded);
    } else {
      match invoke(messages.value, tools.value)
      case Ok(reply) =>
        var c := CreateContentResponse(reply);
        responses := Some([c]);
      case Err(message) =>
        responses := Some([ErrorContent(message)]);
    }
  }

  /**
   * Generation raises exactly when LangChain refuses a message or a
   * declaration has parameters without properties; otherwise every
   * response is an assistant content with at least one part, and without
   * streaming there is exactly one.
   */
  lemma GeneratedShape(request: LlmRequest, stream: bool, invoke: Invoke, astream: Stream, host: Host, unbound: string)
    ensures var rs := Generated(request, stream, invoke, astream, host, unbound);
      && (rs.None? <==> AnyRefused(RequestMessages(request, host)) ||
                        exists i :: 0 <= i < |Declarations(request)| && PropertiesUnset(Declarations(request)[i]))
      && (rs.Some? && !stream ==> |rs.value| == 1)
      && (rs.Some? ==> forall i :: 0 <= i < |rs.value| ==> rs.value[i].role == Some("assistant") && |rs.value[i].parts| >= 1)
  {
    var tools := ToolSpecsOf(Declarations(request));
    if stream && !AnyRefused(RequestMessages(request, host)) && tools.Some? {
      var (chunks, failure) := astream(RequestMessages(request, host), tools.value);
      FilterMapSpec(chunks, ChunkContent);
      var texts := FilterMap(chunks, ChunkContent);
      forall i | 0 <= i < |texts| ensures texts[i].role == Some("assistant") && |texts[i].parts| == 1 {
        assert texts[i] in texts;
      }
    }
  }
}
