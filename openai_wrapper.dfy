/**
 * `OpenAILiteLLMWrapper`: an ADK model backed by an OpenAI chat-completions
 * client. ADK contents become OpenAI message dictionaries, the request's
 * function declarations become OpenAI tools, and the completion (whole or
 * streamed in chunks) becomes ADK contents again.
 *
 * The client is an oracle: `complete` gives the reply message for the
 * request parameters, or the text of the exception it raised, and `create`
 * gives the streamed chunks and, when the stream breaks off, the text of
 * the exception. `json.loads`, `json.dumps` and `str()` are the host's.
 */
module OpenAiWrapper {
  import opened Wrappers
  import opened Json
  import opened Text
  import opened AdkTypes
  import LangChainWrapper

  /** A tool call on an OpenAI message; its `type` is always "function". */
  datatype ChatCall = ChatCall(id: Option<string>, name: Option<string>, arguments: string)

  /**
   * An OpenAI message dictionary: an assistant message with tool calls, a
   * tool message answering a call, or a plain message of a role.
   */
  datatype ChatMessage =
    | CallMessage(text: Option<string>, toolCalls: seq<ChatCall>)
    | ToolReply(content: string, toolCallId: Option<string>)
    | RoleText(role: Option<string>, content: string)

  /** The message's `role` entry. */
  function RoleOf(m: ChatMessage): Option<string>
  {
    match m
    case CallMessage(_, _) => Some("assistant")
    case ToolReply(_, _) => Some("tool")
    case RoleText(role, _) => role
  }

  /** `json.dumps`. */
  type Dumps = Json -> string

  /**
   * A call's arguments as an OpenAI tool call carries them: a dictionary is
   * serialised to JSON text, missing arguments become "{}", and a text is
   * passed on as it is.
   */
  function ArgumentsText(args: Args, dumps: Dumps): (r: string)
    ensures args.ArgsNone? ==> r == "{}"
    ensures args.ArgsDict? ==> r == dumps(JObject(args.fields))
    ensures args.ArgsText? ==> r == args.text
  {
    match args
    case ArgsNone => "{}"
    case ArgsText(t) => t
    case ArgsDict(f) => dumps(JObject(f))
  }

  function ChatCallOf(call: FunctionCall, dumps: Dumps): ChatCall
  {
    ChatCall(call.id, call.name, ArgumentsText(call.args, dumps))
  }

  /** The tool call a part contributes, when the part counts as a function call. */
  function ChatCallOfPart(dumps: Dumps): Part -> Option<ChatCall>
  {
    p => if KindOf(p).CallKind? then Some(ChatCallOf(KindOf(p).call, dumps)) else None
  }

  /** The tool calls of the function-call parts, in order. */
  function ChatCalls(parts: seq<Part>, dumps: Dumps): seq<ChatCall>
  {
    FilterMap(parts, ChatCallOfPart(dumps))
  }

  /**
   * `_convert_content_to_openai_message` stated without its loop: function
   * calls win (with the joined texts, if any, as content), then the first
   * function response, then the joined texts under the content's role; a
   * content with none of these, or with no parts, gives no message.
   */
  function ChatMessageOf(content: Content, host: Host, dumps: Dumps): Option<ChatMessage>
  {
    var parts := content.parts;
    var texts := Texts(parts);
    var calls := ChatCalls(parts, dumps);
    var responses := Responses(parts);
    if parts == [] then None
    else if calls != [] then Some(CallMessage(if texts != [] then Some(Join(texts, "\n")) else None, calls))
    else if responses != [] then Some(ToolReply(host.str(responses[0].response), responses[0].id))
    else if texts != [] then Some(RoleText(content.role, Join(texts, "\n")))
    else None
  }

  /** `_convert_content_to_openai_message`: the loop that sorts the parts into texts, calls and responses. */
  method ConvertContent(content: Content, host: Host, dumps: Dumps) returns (m: Option<ChatMessage>)
    ensures m == ChatMessageOf(content, host, dumps)
  {
    var parts := content.parts;
    if parts == [] {
      return None;
    }
    var texts: seq<string> := [];
    var calls: seq<ChatCall> := [];
    var responses: seq<FunctionResponse> := [];
    var i := 0;
    while i < |parts|
      invariant 0 <= i <= |parts|
      invariant texts == Texts(parts[..i])
      invariant calls == ChatCalls(parts[..i], dumps)
      invariant responses == Responses(parts[..i])
    {
      var part := parts[i];
      FilterMapStep(parts, TextOfPart, i);
      FilterMapStep(parts, ChatCallOfPart(dumps), i);
      FilterMapStep(parts, ResponseOfPart, i);
      if HasText(part) {
        texts := texts + [part.text.value];
      } else if part.functionCall.Some? {
        calls := calls + [ChatCallOf(part.functionCall.value, dumps)];
      } else if part.functionResponse.Some? {
        responses := responses + [part.functionResponse.value];
      }
      i := i + 1;
    }
    WholePrefix(parts);
    if calls != [] {
      m := Some(CallMessage(if texts != [] then Some(Join(texts, "\n")) else None, calls));
    } else if responses != [] {
      m := Some(ToolReply(host.str(responses[0].response), responses[0].id));
    } else if texts != [] {
      m := Some(RoleText(content.role, Join(texts, "\n")));
    } else {
      m := None;
    }
  }

  predicate HasKind(parts: seq<Part>, call: bool, response: bool)
  {
    exists i :: 0 <= i < |parts| &&
      (if call then KindOf(parts[i]).CallKind? else if response then KindOf(parts[i]).ResponseKind? else KindOf(parts[i]).TextKind?)
  }

  lemma KindsPresent(parts: seq<Part>, dumps: Dumps)
    ensures ChatCalls(parts, dumps) != [] <==> HasKind(parts, true, false)
    ensures Responses(parts) != [] <==> HasKind(parts, false, true)
    ensures Texts(parts) != [] <==> HasKind(parts, false, false)
  {
    FilterMapNonEmpty(parts, ChatCallOfPart(dumps));
    FilterMapNonEmpty(parts, ResponseOfPart);
    FilterMapNonEmpty(parts, TextOfPart);
    if HasKind(parts, true, false) {
      var i :| 0 <= i < |parts| && KindOf(parts[i]).CallKind?;
      assert ChatCallOfPart(dumps)(parts[i]).Some?;
    }
    if HasKind(parts, false, true) {
      var i :| 0 <= i < |parts| && KindOf(parts[i]).ResponseKind?;
      assert ResponseOfPart(parts[i]).Some?;
    }
    if HasKind(parts, false, false) {
      var i :| 0 <= i < |parts| && KindOf(parts[i]).TextKind?;
      assert TextOfPart(parts[i]).Some?;
    }
  }

  /**
   * The message's priority: any function-call part makes an assistant
   * message with tool calls; otherwise any function-response part a tool
   * message; otherwise any text part a message of the content's role;
   * otherwise there is no message.
   */
  lemma MessagePriority(content: Content, host: Host, dumps: Dumps)
    ensures var m := ChatMessageOf(content, host, dumps);
      var parts := content.parts;
      && (m.Some? && m.value.CallMessage? <==> HasKind(parts, true, false))
      && (m.Some? && m.value.ToolReply? <==> !HasKind(parts, true, false) && HasKind(parts, false, true))
      && (m.Some? && m.value.RoleText? <==>
            !HasKind(parts, true, false) && !HasKind(parts, false, true) && HasKind(parts, false, false))
      && (m.Some? && m.value.RoleText? ==> RoleOf(m.value) == content.role)
  {
    KindsPresent(content.parts, dumps);
  }

  /** The tool calls of an assistant message are exactly those of the function-call parts. */
  lemma ChatCallsFromParts(parts: seq<Part>, dumps: Dumps)
    ensures forall t :: t in ChatCalls(parts, dumps) ==>
      exists i :: 0 <= i < |parts| && KindOf(parts[i]).CallKind? && t == ChatCallOf(KindOf(parts[i]).call, dumps)
    ensures forall i :: 0 <= i < |parts| && KindOf(parts[i]).CallKind? ==>
      ChatCallOf(KindOf(parts[i]).call, dumps) in ChatCalls(parts, dumps)
  {
    FilterMapSpec(parts, ChatCallOfPart(dumps));
  }

  /**
   * The arguments of a function call in a completion: `{}` when there are
   * none or they do not parse, the object they parse to, or no arguments
   * when they parse to `null` (`FunctionCall.args` is optional); nothing
   * (the ADK function call refuses them and the generation fails) when they
   * parse to any other value.
   */
  function ReplyArgs(arguments: string, parse: Parser): (r: Option<Args>)
    ensures arguments == "" || parse(arguments).None? ==> r == Some(ArgsDict(map[]))
    ensures r.Some? && arguments != "" && parse(arguments).Some? ==>
      (r.value.ArgsDict? && parse(arguments) == Some(JObject(r.value.fields))) ||
      (r.value.ArgsNone? && parse(arguments) == Some(JNull))
    ensures r.Some? ==> !r.value.ArgsText?
    ensures r.None? <==>
      arguments != "" && parse(arguments).Some? && !parse(arguments).value.JObject? && !parse(arguments).value.JNull?
  {
    if arguments == "" then Some(ArgsDict(map[]))
    else match parse(arguments)
      case None => Some(ArgsDict(map[]))
      case Some(JObject(f)) => Some(ArgsDict(f))
      case Some(JNull) => Some(ArgsNone)
      case Some(_) => None
  }

  /**
   * Arguments survive the trip out and back: when `json.loads` reads back
   * what `json.dumps` wrote, the dictionary a call is sent with is the one
   * a completion's call with the same arguments text is read as.
   */
  lemma ArgsRoundTrip(fields: map<string, Json>, dumps: Dumps, parse: Parser)
    requires dumps(JObject(fields)) != "" && parse(dumps(JObject(fields))) == Some(JObject(fields))
    ensures ReplyArgs(ArgumentsText(ArgsDict(fields), dumps), parse) == Some(ArgsDict(fields))
  {
  }

  /**
   * The LangChain wrapper reads the OpenAI wrapper's argument text back into
   * the arguments it was made from, when `json.loads` reads back what
   * `json.dumps` wrote and reads "{}" as the empty object.
   */
  lemma ArgsAgreeAcrossWrappers(args: Args, dumps: Dumps, parse: Parser)
    requires args.ArgsDict? ==> parse(dumps(JObject(args.fields))) == Some(JObject(args.fields))
    requires parse("{}") == Some(JObject(map[]))
    requires args.ArgsText? ==> parse(args.text).Some?
    ensures LangChainWrapper.ArgsValue(ArgsText(ArgumentsText(args, dumps)), parse) ==
            LangChainWrapper.ArgsValue(args, parse)
  {
  }

  // ---------------------------------------------------------------------
  // The message list and the request parameters

  /** The message each content gives, skipping those that give none. */
  function MessageOfContent(host: Host, dumps: Dumps): Content -> Option<ChatMessage>
  {
    c => ChatMessageOf(c, host, dumps)
  }

  function Converted(contents: seq<Content>, host: Host, dumps: Dumps): seq<ChatMessage>
  {
    FilterMap(contents, MessageOfContent(host, dumps))
  }

  predicate IsSystem(m: ChatMessage)
  {
    RoleOf(m) == Some("system")
  }

  predicate HasSystem(ms: seq<ChatMessage>)
  {
    exists i :: 0 <= i < |ms| && IsSystem(ms[i])
  }

  /** `any(msg.get('role') == 'system' for msg in messages)`. */
  function AnySystem(ms: seq<ChatMessage>): (r: bool)
    ensures r <==> HasSystem(ms)
  {
    if ms == [] then false
    else
      var rest := AnySystem(ms[1..]);
      assert HasSystem(ms[1..]) ==> HasSystem(ms) by {
        if HasSystem(ms[1..]) {
          var i :| 0 <= i < |ms[1..]| && IsSystem(ms[1..][i]);
          assert ms[i + 1] == ms[1..][i];
        }
      }
      assert HasSystem(ms) && !IsSystem(ms[0]) ==> HasSystem(ms[1..]) by {
        if HasSystem(ms) && !IsSystem(ms[0]) {
          var i :| 0 <= i < |ms| && IsSystem(ms[i]);
          assert ms[1..][i - 1] == ms[i];
        }
      }
      IsSystem(ms[0]) || rest
  }

  const DefaultSystemPrompt := "You are a helpful assistant."

  /**
   * The system message insertion: the request's instruction goes first when
   * it has one; otherwise the default prompt goes first, but only when no
   * message is a system message already.
   */
  function WithSystem(ms: seq<ChatMessage>, si: Option<string>): seq<ChatMessage>
  {
    if si.Some? then [RoleText(Some("system"), si.value)] + ms
    else if !AnySystem(ms) then [RoleText(Some("system"), DefaultSystemPrompt)] + ms
    else ms
  }

  /** The messages `generate_content_async` sends. */
  function ChatMessages(request: LlmRequest, host: Host, dumps: Dumps): seq<ChatMessage>
  {
    WithSystem(Converted(request.contents, host, dumps), SystemInstruction(request))
  }

  /**
   * The messages always hold a system message. The request's instruction is
   * the first one when it has one; otherwise a default is put first only
   * when the contents gave no system message; the converted messages follow
   * unchanged.
   */
  lemma SystemInserted(request: LlmRequest, host: Host, dumps: Dumps)
    ensures var converted := Converted(request.contents, host, dumps);
      var ms := ChatMessages(request, host, dumps);
      var si := SystemInstruction(request);
      && HasSystem(ms)
      && (si.Some? ==> ms == [RoleText(Some("system"), si.value)] + converted)
      && (si.None? && !HasSystem(converted) ==> ms == [RoleText(Some("system"), DefaultSystemPrompt)] + converted)
      && (si.None? && HasSystem(converted) ==> ms == converted)
  {
    var ms := ChatMessages(request, host, dumps);
    if ms != Converted(request.contents, host, dumps) {
      assert IsSystem(ms[0]);
    }
  }

  /** The message list: the loop over the contents, then the system message insertion. */
  method AssembleChatMessages(request: LlmRequest, host: Host, dumps: Dumps) returns (messages: seq<ChatMessage>)
    ensures messages == ChatMessages(request, host, dumps)
  {
    messages := [];
    var contents := request.contents;
    var i := 0;
    while i < |contents|
      invariant 0 <= i <= |contents|
      invariant messages == Converted(contents[..i], host, dumps)
    {
      FilterMapStep(contents, MessageOfContent(host, dumps), i);
      var m := ConvertContent(contents[i], host, dumps);
      if m.Some? {
        messages := messages + [m.value];
      }
      i := i + 1;
    }
    WholePrefix(contents);
    var si := SystemInstruction(request);
    if si.Some? {
      messages := [RoleText(Some("system"), si.value)] + messages;
    } else if !AnySystem(messages) {
      messages := [RoleText(Some("system"), DefaultSystemPrompt)] + messages;
    }
  }

  /** The wrapper's own settings. */
  datatype Settings = Settings(model: string, temperature: real, maxTokens: int)

  /** The keyword arguments of the completion call; `stream` says whether the `stream` entry is present. */
  datatype GenerationParams = GenerationParams(
    model: string,
    messages: seq<ChatMessage>,
    temperature: real,
    maxTokens: int,
    tools: Option<seq<ToolSpec>>,
    stream: bool)

  /**
   * The request parameters: the settings and the messages always, the tools
   * (converted as `ToolSpecOf` states) only when the request declares some,
   * and the stream flag only when streaming; `None` when converting a
   * declaration raises, which happens before the `try`.
   */
  function Params(settings: Settings, request: LlmRequest, stream: bool, host: Host, dumps: Dumps)
    : (p: Option<GenerationParams>)
    ensures p.None? <==> exists i :: 0 <= i < |Declarations(request)| && PropertiesUnset(Declarations(request)[i])
    ensures p.Some? ==> p.value.model == settings.model && p.value.temperature == settings.temperature && p.value.maxTokens == settings.maxTokens
    ensures p.Some? ==> p.value.messages == ChatMessages(request, host, dumps) && HasSystem(p.value.messages)
    ensures p.Some? ==> (p.value.tools.Some? <==> Declarations(request) != [])
    ensures p.Some? && p.value.tools.Some? ==>
      var ts := p.value.tools.value;
      |ts| == |Declarations(request)| && forall i :: 0 <= i < |ts| ==> Some(ts[i]) == ToolSpecOf(Declarations(request)[i])
    ensures p.Some? ==> p.value.stream == stream
  {
    SystemInserted(request, host, dumps);
    match ToolSpecsOf(Declarations(request))
    case None => None
    case Some(tools) =>
      Some(GenerationParams(settings.model, ChatMessages(request, host, dumps), settings.temperature, settings.maxTokens,
                            if tools != [] then Some(tools) else None, stream))
  }

  // ---------------------------------------------------------------------
  // The completion as ADK contents

  /** A tool call of a completion; `isFunction` says whether its type is "function". */
  datatype ReplyCall = ReplyCall(isFunction: bool, id: Option<string>, name: Option<string>, arguments: string)

  /** The completion's message: its text (empty when there is none) and its tool calls. */
  datatype ReplyMessage = ReplyMessage(content: string, toolCalls: seq<ReplyCall>)

  /** The function-call parts of a completion's tool calls, or nothing when some call's arguments are refused. */
  function ReplyCallParts(calls: seq<ReplyCall>, parse: Parser): (r: Option<seq<Part>>)
    ensures r.Some? ==> |r.value| <= |calls|
    ensures r.Some? ==> forall k :: 0 <= k < |r.value| ==> KindOf(r.value[k]).CallKind?
  {
    if calls == [] then Some([])
    else
      var init := ReplyCallParts(calls[..|calls| - 1], parse);
      var c := calls[|calls| - 1];
      if init.None? then None
      else if !c.isFunction then init
      else
        var args := ReplyArgs(c.arguments, parse);
        if args.None? then None
        else Some(init.value + [CallPart(FunctionCall(c.name, args.value, c.id))])
  }

  /**
   * A completion as one assistant content: its text, then its function
   * calls, and a single empty text part when there are neither; nothing
   * when a call's arguments are refused.
   */
  function ReplyContent(m: ReplyMessage, parse: Parser): (r: Option<Content>)
    ensures r.Some? ==> r.value.role == Some("assistant") && |r.value.parts| >= 1
    ensures r.None? <==> ReplyCallParts(m.toolCalls, parse).None?
  {
    var calls := ReplyCallParts(m.toolCalls, parse);
    if calls.None? then None
    else
      var parts := (if m.content != "" then [TextPart(m.content)] else []) + calls.value;
      Some(Content(Some("assistant"), if parts == [] then [TextPart("")] else parts))
  }

  /** The non-streaming branch's loop over the completion's tool calls. */
  method ReplyToContent(m: ReplyMessage, parse: Parser) returns (r: Option<Content>)
    ensures r == ReplyContent(m, parse)
  {
    var head: seq<Part> := if m.content != "" then [TextPart(m.content)] else [];
    var parts := head;
    var calls := m.toolCalls;
    var i := 0;
    while i < |calls|
      invariant 0 <= i <= |calls|
      invariant ReplyCallParts(calls[..i], parse).Some?
      invariant parts == head + ReplyCallParts(calls[..i], parse).value
    {
      var c := calls[i];
      ReplyCallPartsNext(calls, parse, i);
      if c.isFunction {
        var args := ReplyArgs(c.arguments, parse);
        if args.None? {
          ReplyCallPartsRefused(calls, parse, i + 1);
          return None;
        }
        parts := parts + [CallPart(FunctionCall(c.name, args.value, c.id))];
      }
      i := i + 1;
    }
    WholePrefix(calls);
    if parts == [] {
      parts := [TextPart("")];
    }
    r := Some(Content(Some("assistant"), parts));
  }

  /** The parts of one more call: unchanged for a call that is not a function, refused or extended by its call part otherwise. */
  lemma ReplyCallPartsNext(calls: seq<ReplyCall>, parse: Parser, i: nat)
    requires i < |calls| && ReplyCallParts(calls[..i], parse).Some?
    ensures var c := calls[i];
      var args := ReplyArgs(c.arguments, parse);
      ReplyCallParts(calls[..i + 1], parse) ==
        if !c.isFunction then ReplyCallParts(calls[..i], parse)
        else if args.None? then None
        else Some(ReplyCallParts(calls[..i], parse).value + [CallPart(FunctionCall(c.name, args.value, c.id))])
  {
    assert calls[..i + 1][..i] == calls[..i];
  }

  /**
   * A function call whose arguments are JSON `null` is not refused: the
   * completion becomes that call with its arguments left unset.
   */
  lemma NullArgumentsUnset(c: ReplyCall, parse: Parser)
    requires c.isFunction && c.arguments != "" && parse(c.arguments) == Some(JNull)
    ensures ReplyContent(ReplyMessage("", [c]), parse) ==
            Some(Content(Some("assistant"), [CallPart(FunctionCall(c.name, ArgsNone, c.id))]))
  {
    var calls := [c];
    assert calls[..|calls| - 1] == [];
    var init := ReplyCallParts(calls[..|calls| - 1], parse);
    assert init == Some([]);
    var part := CallPart(FunctionCall(c.name, ArgsNone, c.id));
    assert ReplyCallParts(calls, parse) == Some(init.value + [part]);
    assert init.value + [part] == [part];
  }

  /** Once a prefix of the calls is refused, all of them are. */
  lemma {:induction false} ReplyCallPartsRefused(calls: seq<ReplyCall>, parse: Parser, n: nat)
    requires n <= |calls| && ReplyCallParts(calls[..n], parse).None?
    ensures ReplyCallParts(calls, parse).None?
    decreases |calls| - n
  {
    if n == |calls| {
      WholePrefix(calls);
    } else {
      assert calls[..n + 1][..n] == calls[..n];
      ReplyCallPartsRefused(calls, parse, n + 1);
    }
  }

  // ---------------------------------------------------------------------
  // Streaming: fragments of tool calls accumulated per call id

  /** A fragment of a tool call in a streamed chunk; empty strings stand for missing fragments. */
  datatype DeltaCall = DeltaCall(isFunction: bool, id: Option<string>, name: string, arguments: string)

  /** A streamed chunk's delta: its text (empty when none) and its tool-call fragments. */
  datatype Delta = Delta(content: string, toolCalls: seq<DeltaCall>)

  /** A call being accumulated: its name and arguments so far. */
  datatype Pending = Pending(name: string, arguments: string)

  /**
   * The streaming loop's variables: the full text, and the calls by id,
   * with the order in which their ids were first seen (the insertion order
   * of the source's dictionary).
   */
  datatype Accumulator = Accumulator(text: string, order: seq<Option<string>>, calls: map<Option<string>, Pending>)

  /** The ids in `order` are distinct and are exactly the keys of `calls`. */
  predicate Tracked(acc: Accumulator)
  {
    && (forall i, j :: 0 <= i < j < |acc.order| ==> acc.order[i] != acc.order[j])
    && (forall id :: id in acc.calls ==> id in acc.order)
    && (forall id :: id in acc.order ==> id in acc.calls)
  }

  /** The call so far under `id`, or a fresh one. */
  function PendingOf(acc: Accumulator, id: Option<string>): Pending
  {
    if id in acc.calls then acc.calls[id] else Pending("", "")
  }

  /** One fragment: a function fragment extends the call under its id, which is created when new. */
  function AddFragment(acc: Accumulator, c: DeltaCall): Accumulator
  {
    if !c.isFunction then acc
    else
      var p := PendingOf(acc, c.id);
      acc.(order := if c.id in acc.calls then acc.order else acc.order + [c.id],
           calls := acc.calls[c.id := Pending(p.name + c.name, p.arguments + c.arguments)])
  }

  /** The fragments, one after the other. */
  function AddFragments(acc: Accumulator, cs: seq<DeltaCall>): Accumulator
  {
    if cs == [] then acc else AddFragment(AddFragments(acc, cs[..|cs| - 1]), cs[|cs| - 1])
  }

  /** One chunk: its text is appended and its fragments added; a chunk without choices changes nothing. */
  function AddChunk(acc: Accumulator, chunk: Option<Delta>): Accumulator
  {
    if chunk.None? then acc else AddFragments(acc.(text := acc.text + chunk.value.content), chunk.value.toolCalls)
  }

  const Start := Accumulator("", [], map[])

  /** The loop's variables after the chunks. */
  function Accumulated(chunks: seq<Option<Delta>>): Accumulator
  {
    if chunks == [] then Start else AddChunk(Accumulated(chunks[..|chunks| - 1]), chunks[|chunks| - 1])
  }

  /** The name fragments of the function fragments with this id, concatenated. */
  function NamesFor(cs: seq<DeltaCall>, id: Option<string>): string
  {
    if cs == [] then ""
    else
      var c := cs[|cs| - 1];
      NamesFor(cs[..|cs| - 1], id) + (if c.isFunction && c.id == id then c.name else "")
  }

  /** The argument fragments of the function fragments with this id, concatenated. */
  function ArgumentsFor(cs: seq<DeltaCall>, id: Option<string>): string
  {
    if cs == [] then ""
    else
      var c := cs[|cs| - 1];
      ArgumentsFor(cs[..|cs| - 1], id) + (if c.isFunction && c.id == id then c.arguments else "")
  }

  /** Some function fragment has this id. */
  predicate Mentions(cs: seq<DeltaCall>, id: Option<string>)
  {
    exists i :: 0 <= i < |cs| && cs[i].isFunction && cs[i].id == id
  }

  /** A fragment keeps the ids tracked. */
  lemma AddFragmentTracked(acc: Accumulator, c: DeltaCall)
    requires Tracked(acc)
    ensures Tracked(AddFragment(acc, c))
  {
  }

  /** A fragment extends the call under its own id only. */
  lemma AddFragmentPending(acc: Accumulator, c: DeltaCall, id: Option<string>)
    ensures id in AddFragment(acc, c).calls <==> id in acc.calls || (c.isFunction && c.id == id)
    ensures PendingOf(AddFragment(acc, c), id) ==
      if c.isFunction && c.id == id then Pending(PendingOf(acc, id).name + c.name, PendingOf(acc, id).arguments + c.arguments)
      else PendingOf(acc, id)
  {
  }

  lemma MentionsSnoc(cs: seq<DeltaCall>, c: DeltaCall, id: Option<string>)
    ensures Mentions(cs + [c], id) <==> Mentions(cs, id) || (c.isFunction && c.id == id)
  {
    var all := cs + [c];
    if Mentions(all, id) && !(c.isFunction && c.id == id) {
      var i :| 0 <= i < |all| && all[i].isFunction && all[i].id == id;
      assert cs[i] == all[i];
    }
    if Mentions(cs, id) {
      var i :| 0 <= i < |cs| && cs[i].isFunction && cs[i].id == id;
      assert all[i] == cs[i];
    }
    if c.isFunction && c.id == id {
      assert all[|cs|] == c;
    }
  }

  /** Fragments keep the ids tracked and leave the text alone. */
  lemma {:induction false} FragmentsTracked(acc: Accumulator, cs: seq<DeltaCall>)
    requires Tracked(acc)
    ensures Tracked(AddFragments(acc, cs)) && AddFragments(acc, cs).text == acc.text
    decreases |cs|
  {
    if cs != [] {
      FragmentsTracked(acc, cs[..|cs| - 1]);
      AddFragmentTracked(AddFragments(acc, cs[..|cs| - 1]), cs[|cs| - 1]);
    }
  }

  /**
   * Fragments accumulate per id: an id is tracked when it was or when some
   * function fragment has it, and its call holds what it held followed by
   * the name and argument fragments with that id, in order.
   */
  lemma {:induction false} FragmentsSpec(acc: Accumulator, cs: seq<DeltaCall>, id: Option<string>)
    ensures id in AddFragments(acc, cs).calls <==> id in acc.calls || Mentions(cs, id)
    ensures PendingOf(AddFragments(acc, cs), id) ==
      Pending(PendingOf(acc, id).name + NamesFor(cs, id), PendingOf(acc, id).arguments + ArgumentsFor(cs, id))
    decreases |cs|
  {
    if cs != [] {
      var init := cs[..|cs| - 1];
      var c := cs[|cs| - 1];
      FragmentsSpec(acc, init, id);
      AddFragmentPending(AddFragments(acc, init), c, id);
      assert cs == init + [c];
      MentionsSnoc(init, c, id);
      var p := PendingOf(acc, id);
      var before := PendingOf(AddFragments(acc, init), id);
      if c.isFunction && c.id == id {
        assert p.name + NamesFor(cs, id) == (p.name + NamesFor(init, id)) + c.name;
        assert p.arguments + ArgumentsFor(cs, id) == (p.arguments + ArgumentsFor(init, id)) + c.arguments;
      } else {
        assert NamesFor(cs, id) == NamesFor(init, id);
        assert ArgumentsFor(cs, id) == ArgumentsFor(init, id);
      }
    }
  }

  /** Adding fragments in two batches is adding them all at once. */
  lemma {:induction false} AddFragmentsAppend(acc: Accumulator, xs: seq<DeltaCall>, ys: seq<DeltaCall>)
    ensures AddFragments(acc, xs + ys) == AddFragments(AddFragments(acc, xs), ys)
    decreases |ys|
  {
    if ys == [] {
      assert xs + ys == xs;
    } else {
      assert (xs + ys)[..|xs + ys| - 1] == xs + ys[..|ys| - 1];
      AddFragmentsAppend(acc, xs, ys[..|ys| - 1]);
    }
  }

  /** The text plays no part in the accumulation of calls. */
  lemma {:induction false} AddFragmentsText(acc: Accumulator, cs: seq<DeltaCall>, t: string)
    ensures AddFragments(acc.(text := t), cs) == AddFragments(acc, cs).(text := t)
    decreases |cs|
  {
    if cs != [] {
      AddFragmentsText(acc, cs[..|cs| - 1], t);
    }
  }

  /** The texts of the chunks, concatenated. */
  function AllText(chunks: seq<Option<Delta>>): string
  {
    if chunks == [] then ""
    else AllText(chunks[..|chunks| - 1]) + (if chunks[|chunks| - 1].Some? then chunks[|chunks| - 1].value.content else "")
  }

  /** The tool-call fragments of the chunks, in order. */
  function AllCalls(chunks: seq<Option<Delta>>): seq<DeltaCall>
  {
    if chunks == [] then []
    else AllCalls(chunks[..|chunks| - 1]) + (if chunks[|chunks| - 1].Some? then chunks[|chunks| - 1].value.toolCalls else [])
  }

  /** Chunk by chunk is the same as the whole text and all the fragments at once. */
  lemma {:induction false} AccumulatedFlat(chunks: seq<Option<Delta>>)
    ensures Accumulated(chunks) == AddFragments(Accumulator(AllText(chunks), [], map[]), AllCalls(chunks))
    decreases |chunks|
  {
    if chunks != [] {
      var init := chunks[..|chunks| - 1];
      var last := chunks[|chunks| - 1];
      AccumulatedFlat(init);
      var base := Accumulator(AllText(init), [], map[]);
      var before := Accumulated(init);
      assert before == AddFragments(base, AllCalls(init));
      if last.Some? {
        FragmentsTracked(base, AllCalls(init));
        assert before.text == AllText(init);
        var t := AllText(init) + last.value.content;
        assert AllText(chunks) == t;
        assert AllCalls(chunks) == AllCalls(init) + last.value.toolCalls;
        AddFragmentsText(base, AllCalls(init), t);
        assert base.(text := t) == Accumulator(t, [], map[]);
        assert before.(text := t) == AddFragments(Accumulator(t, [], map[]), AllCalls(init));
        AddFragmentsAppend(Accumulator(t, [], map[]), AllCalls(init), last.value.toolCalls);
        assert Accumulated(chunks) == AddFragments(before.(text := t), last.value.toolCalls);
      } else {
        assert AllCalls(chunks) == AllCalls(init);
        assert AllText(chunks) == AllText(init);
      }
    }
  }

  /**
   * After the stream, the text is all the chunks' texts, and each id of a
   * function fragment has the call whose name and arguments are that id's
   * fragments concatenated in order.
   */
  lemma StreamAccumulation(chunks: seq<Option<Delta>>, id: Option<string>)
    ensures var acc := Accumulated(chunks);
      && Tracked(acc)
      && acc.text == AllText(chunks)
      && (id in acc.calls <==> Mentions(AllCalls(chunks), id))
      && (id in acc.calls ==> acc.calls[id] == Pending(NamesFor(AllCalls(chunks), id), ArgumentsFor(AllCalls(chunks), id)))
  {
    AccumulatedFlat(chunks);
    FragmentsTracked(Accumulator(AllText(chunks), [], map[]), AllCalls(chunks));
    FragmentsSpec(Accumulator(AllText(chunks), [], map[]), AllCalls(chunks), id);
  }

  /** The inner loop over a chunk's tool-call fragments. */
  method AccumulateFragments(acc: Accumulator, cs: seq<DeltaCall>) returns (acc': Accumulator)
    ensures acc' == AddFragments(acc, cs)
  {
    acc' := acc;
    var i := 0;
    while i < |cs|
      invariant 0 <= i <= |cs|
      invariant acc' == AddFragments(acc, cs[..i])
    {
      var c := cs[i];
      assert cs[..i + 1][..i] == cs[..i];
      if c.isFunction {
        var p := PendingOf(acc', c.id);
        var order := if c.id in acc'.calls then acc'.order else acc'.order + [c.id];
        acc' := acc'.(order := order, calls := acc'.calls[c.id := Pending(p.name + c.name, p.arguments + c.arguments)]);
      }
      i := i + 1;
    }
    WholePrefix(cs);
  }

  /** The text content a chunk yields while streaming, when its delta has text. */
  function ChunkContent(chunk: Option<Delta>): Option<Content>
  {
    if chunk.Some? && chunk.value.content != "" then Some(Content(Some("assistant"), [TextPart(chunk.value.content)]))
    else None
  }

  /**
   * The function-call parts of the accumulated calls, in first-seen order:
   * only calls with a name, each with its arguments read back; nothing when
   * some call's arguments are refused.
   */
  function NamedCallParts(order: seq<Option<string>>, calls: map<Option<string>, Pending>, parse: Parser)
    : (r: Option<seq<Part>>)
    requires forall id :: id in order ==> id in calls
  {
    if order == [] then Some([])
    else
      var init := NamedCallParts(order[..|order| - 1], calls, parse);
      var id := order[|order| - 1];
      var p := calls[id];
      if init.None? then None
      else if p.name == "" then init
      else
        var args := ReplyArgs(p.arguments, parse);
        if args.None? then None
        else Some(init.value + [CallPart(FunctionCall(Some(p.name), args.value, id))])
  }

  /** The parts after one more id, in terms of the parts before it. */
  lemma NamedCallPartsStep(order: seq<Option<string>>, calls: map<Option<string>, Pending>, parse: Parser, i: nat)
    requires forall id :: id in order ==> id in calls
    requires i < |order|
    ensures forall id :: id in order[..i] ==> id in calls
    ensures forall id :: id in order[..i + 1] ==> id in calls
    ensures var init := NamedCallParts(order[..i], calls, parse);
      var p := calls[order[i]];
      NamedCallParts(order[..i + 1], calls, parse) ==
        if init.None? then None
        else if p.name == "" then init
        else if ReplyArgs(p.arguments, parse).None? then None
        else Some(init.value + [CallPart(FunctionCall(Some(p.name), ReplyArgs(p.arguments, parse).value, order[i]))])
  {
    assert forall id :: id in order[..i] ==> id in order;
    assert forall id :: id in order[..i + 1] ==> id in order;
    assert order[..i + 1][..i] == order[..i];
  }

  /** Only named calls are emitted: each part is a call with a non-empty name, that of a tracked id. */
  lemma {:induction false} NamedCallsOnly(order: seq<Option<string>>, calls: map<Option<string>, Pending>, parse: Parser)
    requires forall id :: id in order ==> id in calls
    requires NamedCallParts(order, calls, parse).Some?
    ensures var ps := NamedCallParts(order, calls, parse).value;
      forall k :: 0 <= k < |ps| ==>
        && ps[k].functionCall.Some? && ps[k].functionCall.value.name.Some?
        && ps[k].functionCall.value.name.value != ""
        && ps[k].functionCall.value.id in order
        && ps[k].functionCall.value.name.value == calls[ps[k].functionCall.value.id].name
    decreases |order|
  {
    if order != [] {
      var init := order[..|order| - 1];
      assert forall x :: x in init ==> x in order;
      NamedCallsOnly(init, calls, parse);
    }
  }

  /** Every named call is emitted: each tracked id with a name has a call part. */
  lemma {:induction false} NamedCallsAll(order: seq<Option<string>>, calls: map<Option<string>, Pending>, parse: Parser)
    requires forall id :: id in order ==> id in calls
    requires NamedCallParts(order, calls, parse).Some?
    ensures var ps := NamedCallParts(order, calls, parse).value;
      forall i :: 0 <= i < |order| && calls[order[i]].name != "" ==>
        exists k :: 0 <= k < |ps| && ps[k].functionCall.Some? && ps[k].functionCall.value.id == order[i]
    decreases |order|
  {
    if order != [] {
      var init := order[..|order| - 1];
      assert forall x :: x in init ==> x in order;
      NamedCallsAll(init, calls, parse);
      var ps0 := NamedCallParts(init, calls, parse).value;
      var ps := NamedCallParts(order, calls, parse).value;
      assert ps[..|ps0|] == ps0;
      forall i | 0 <= i < |order| && calls[order[i]].name != ""
        ensures exists k :: 0 <= k < |ps| && ps[k].functionCall.Some? && ps[k].functionCall.value.id == order[i]
      {
        if i < |init| {
          assert order[i] == init[i];
          var k :| 0 <= k < |ps0| && ps0[k].functionCall.Some? && ps0[k].functionCall.value.id == init[i];
          assert ps[k] == ps0[k];
        } else {
          assert ps[|ps| - 1].functionCall.value.id == order[i];
        }
      }
    }
  }

  /** The parts of the final streamed content: the full text, when any, then the named calls. */
  function FinalParts(acc: Accumulator, parse: Parser): Option<seq<Part>>
    requires Tracked(acc)
  {
    var calls := NamedCallParts(acc.order, acc.calls, parse);
    if calls.None? then None
    else Some((if acc.text != "" then [TextPart(acc.text)] else []) + calls.value)
  }

  /**
   * What the streaming branch yields: one text content per chunk with text;
   * then the error reply when the stream raised or a call's arguments were
   * refused (with the text `refused`); otherwise the final content with the
   * full text and the named calls, when it has any part.
   */
  function Streamed(chunks: seq<Option<Delta>>, failure: Option<string>, parse: Parser, refused: string)
    : seq<Content>
  {
    StreamAccumulation(chunks, None);
    FilterMap(chunks, ChunkContent) + Closing(Accumulated(chunks), failure, parse, refused)
  }

  /** What the stream yields after its chunks: the error reply, the final content, or nothing. */
  function Closing(acc: Accumulator, failure: Option<string>, parse: Parser, refused: string): seq<Content>
    requires Tracked(acc)
  {
    var final := FinalParts(acc, parse);
    if failure.Some? then [ErrorContent(failure.value)]
    else if final.None? then [ErrorContent(refused)]
    else if final.value == [] then []
    else [Content(Some("assistant"), final.value)]
  }

  /** The final loop over the accumulated calls. */
  method BuildFinalParts(acc: Accumulator, parse: Parser) returns (r: Option<seq<Part>>)
    requires Tracked(acc)
    ensures r == FinalParts(acc, parse)
  {
    var parts: seq<Part> := if acc.text != "" then [TextPart(acc.text)] else [];
    ghost var head := parts;
    var order := acc.order;
    var i := 0;
    while i < |order|
      invariant 0 <= i <= |order|
      invariant NamedCallParts(order[..i], acc.calls, parse).Some?
      invariant parts == head + NamedCallParts(order[..i], acc.calls, parse).value
    {
      var id := order[i];
      NamedCallPartsStep(order, acc.calls, parse, i);
      var p := acc.calls[id];
      if p.name != "" {
        var args := ReplyArgs(p.arguments, parse);
        if args.None? {
          NamedCallPartsRefused(order, acc.calls, parse, i + 1);
          return None;
        }
        parts := parts + [CallPart(FunctionCall(Some(p.name), args.value, id))];
      }
      i := i + 1;
    }
    WholePrefix(order);
    r := Some(parts);
  }

  lemma {:induction false} NamedCallPartsRefused(order: seq<Option<string>>, calls: map<Option<string>, Pending>,
                                                 parse: Parser, n: nat)
    requires forall id :: id in order ==> id in calls
    requires n <= |order| && NamedCallParts(order[..n], calls, parse).None?
    ensures NamedCallParts(order, calls, parse).None?
    decreases |order| - n
  {
    if n == |order| {
      WholePrefix(order);
    } else {
      assert order[..n + 1][..n] == order[..n];
      NamedCallPartsRefused(order, calls, parse, n + 1);
    }
  }

  /** The streaming branch: the loop over the chunks, then the final content. */
  method StreamResponses(chunks: seq<Option<Delta>>, failure: Option<string>, parse: Parser, refused: string)
    returns (yielded: seq<Content>)
    ensures yielded == Streamed(chunks, failure, parse, refused)
  {
    yielded := [];
    var acc := Start;
    var i := 0;
    while i < |chunks|
      invariant 0 <= i <= |chunks|
      invariant yielded == FilterMap(chunks[..i], ChunkContent)
      invariant acc == Accumulated(chunks[..i])
    {
      FilterMapStep(chunks, ChunkContent, i);
      assert chunks[..i + 1][..i] == chunks[..i];
      var chunk := chunks[i];
      if chunk.Some? {
        var delta := chunk.value;
        if delta.content != "" {
          yielded := yielded + [Content(Some("assistant"), [TextPart(delta.content)])];
        }
        acc := AccumulateFragments(acc.(text := acc.text + delta.content), delta.toolCalls);
      }
      i := i + 1;
    }
    WholePrefix(chunks);
    if failure.Some? {
      yielded := yielded + [ErrorContent(failure.value)];
      return;
    }
    StreamAccumulation(chunks, None);
    var final := BuildFinalParts(acc, parse);
    if final.None? {
      yielded := yielded + [ErrorContent(refused)];
    } else if final.value != [] {
      yielded := yielded + [Content(Some("assistant"), final.value)];
    }
  }

  // ---------------------------------------------------------------------
  // generate_content_async

  /** The completion call: the reply message for the parameters, or the exception's text. */
  type Complete = GenerationParams -> Result<ReplyMessage>

  /** The streaming completion call: the chunks (`None` for a chunk without choices) and the exception that broke the stream off. */
  type StreamCreate = GenerationParams -> (seq<Option<Delta>>, Option<string>)

  /** The responses `generate_content_async` yields; `None` when it raises before its `try`. */
  function Generated(settings: Settings, request: LlmRequest, stream: bool, complete: Complete, create: StreamCreate,
                     host: Host, dumps: Dumps, refused: string): Option<seq<Content>>
  {
    match Params(settings, request, stream, host, dumps)
    case None => None
    case Some(params) =>
      if stream then
        var (chunks, failure) := create(params);
        Some(Streamed(chunks, failure, host.parse, refused))
      else
        match complete(params)
        case Err(message) => Some([ErrorContent(message)])
        case Ok(m) =>
          var c := ReplyContent(m, host.parse);
          if c.Some? then Some([c.value]) else Some([ErrorContent(refused)])
  }

  /**
   * `generate_content_async`: the messages with the system message, the
   * request parameters, then the completion or the stream.
   */
  method GenerateContent(settings: Settings, request: LlmRequest, stream: bool, complete: Complete,
                         create: StreamCreate, host: Host, dumps: Dumps, refused: string)
    returns (responses: Option<seq<Content>>)
    ensures responses == Generated(settings, request, stream, complete, create, host, dumps, refused)
  {
    var messages := AssembleChatMessages(request, host, dumps);
    var tools := ToolSpecsOf(Declarations(request));
    if tools.None? {
      return None;
    }
    var params := GenerationParams(settings.model, messages, settings.temperature, settings.maxTokens,
                                   if tools.value != [] then Some(tools.value) else None, stream);
    assert Params(settings, request, stream, host, dumps) == Some(params);
    if stream {
      var (chunks, failure) := create(params);
      var yielded := StreamResponses(chunks, failure, host.parse, refused);
      responses := Some(yielded);
    } else {
      match complete(params)
      case Err(message) =>
        responses := Some([ErrorContent(message)]);
      case Ok(m) =>
        var c := ReplyToContent(m, host.parse);
        if c.Some? {
          responses := Some([c.value]);
        } else {
          responses := Some([ErrorContent(refused)]);
        }
    }
  }

  /** The text contents of the chunks each hold one text part. */
  lemma ChunkContentsShape(chunks: seq<Option<Delta>>)
    ensures var texts := FilterMap(chunks, ChunkContent);
      forall i :: 0 <= i < |texts| ==>
        texts[i].role == Some("assistant") && |texts[i].parts| == 1 && texts[i].parts[0].functionCall.None?
  {
    var texts := FilterMap(chunks, ChunkContent);
    FilterMapSpec(chunks, ChunkContent);
    forall i | 0 <= i < |texts|
      ensures texts[i].role == Some("assistant") && |texts[i].parts| == 1 && texts[i].parts[0].functionCall.None?
    {
      assert texts[i] in texts;
    }
  }

  /** One streamed text content: an assistant content with one text part. */
  lemma ChunkContentAt(chunks: seq<Option<Delta>>, i: int)
    requires 0 <= i < |FilterMap(chunks, ChunkContent)|
    ensures var t := FilterMap(chunks, ChunkContent)[i];
      t.role == Some("assistant") && |t.parts| == 1 && t.parts[0].functionCall.None?
  {
    ChunkContentsShape(chunks);
  }

  /** Every function call of the final content has a non-empty name. */
  lemma FinalPartsNamed(acc: Accumulator, parse: Parser)
    requires Tracked(acc) && FinalParts(acc, parse).Some?
    ensures var ps := FinalParts(acc, parse).value;
      forall k :: 0 <= k < |ps| && ps[k].functionCall.Some? ==>
        ps[k].functionCall.value.name.Some? && ps[k].functionCall.value.name.value != ""
  {
    NamedCallsOnly(acc.order, acc.calls, parse);
    var head: seq<Part> := if acc.text != "" then [TextPart(acc.text)] else [];
    var calls := NamedCallParts(acc.order, acc.calls, parse).value;
    var ps := FinalParts(acc, parse).value;
    forall k | 0 <= k < |ps| && ps[k].functionCall.Some?
      ensures ps[k].functionCall.value.name.Some? && ps[k].functionCall.value.name.value != ""
    {
      if k >= |head| {
        assert ps[k] == calls[k - |head|];
      }
    }
  }

  /** What closes the stream is assistant contents with parts, whose calls all have names. */
  lemma ClosingShape(acc: Accumulator, failure: Option<string>, parse: Parser, refused: string)
    requires Tracked(acc)
    ensures var tail := Closing(acc, failure, parse, refused);
      forall j :: 0 <= j < |tail| ==>
        && tail[j].role == Some("assistant") && |tail[j].parts| >= 1
        && forall k :: 0 <= k < |tail[j].parts| && tail[j].parts[k].functionCall.Some? ==>
             tail[j].parts[k].functionCall.value.name.Some? && tail[j].parts[k].functionCall.value.name.value != ""
  {
    if failure.None? && FinalParts(acc, parse).Some? {
      FinalPartsNamed(acc, parse);
    }
  }

  /**
   * Every streamed response is an assistant content with at least one part,
   * and every function call in them has a non-empty name.
   */
  lemma StreamedShape(chunks: seq<Option<Delta>>, failure: Option<string>, parse: Parser, refused: string)
    ensures var rs := Streamed(chunks, failure, parse, refused);
      && (forall i :: 0 <= i < |rs| ==> rs[i].role == Some("assistant") && |rs[i].parts| >= 1)
      && (forall i, k :: 0 <= i < |rs| && 0 <= k < |rs[i].parts| && rs[i].parts[k].functionCall.Some? ==>
            rs[i].parts[k].functionCall.value.name.Some? && rs[i].parts[k].functionCall.value.name.value != "")
  {
    ChunkContentsShape(chunks);
    var acc := Accumulated(chunks);
    StreamAccumulation(chunks, None);
    var texts := FilterMap(chunks, ChunkContent);
    var tail := Closing(acc, failure, parse, refused);
    var rs := texts + tail;
    ClosingShape(acc, failure, parse, refused);
    forall i | 0 <= i < |rs|
      ensures rs[i].role == Some("assistant") && |rs[i].parts| >= 1
      ensures forall k :: 0 <= k < |rs[i].parts| && rs[i].parts[k].functionCall.Some? ==>
        rs[i].parts[k].functionCall.value.name.Some? && rs[i].parts[k].functionCall.value.name.value != ""
    {
      if i < |texts| {
        assert rs[i] == texts[i];
        ChunkContentAt(chunks, i);
      } else {
        var j := i - |texts|;
        assert 0 <= j < |tail|;
        assert rs[i] == tail[j];
        assert tail[j].role == Some("assistant") && |tail[j].parts| >= 1;
      }
    }
    assert rs == Streamed(chunks, failure, parse, refused);
  }

  /**
   * Generation raises exactly when a declaration has parameters without
   * properties. Otherwise, without streaming there is exactly one response,
   * an assistant content with at least one part; with streaming every
   * response is an assistant content with at least one part, and every
   * function call in them has a non-empty name.
   */
  lemma GeneratedShape(settings: Settings, request: LlmRequest, stream: bool, complete: Complete,
                       create: StreamCreate, host: Host, dumps: Dumps, refused: string)
    ensures var g := Generated(settings, request, stream, complete, create, host, dumps, refused);
      && (g.None? <==> exists i :: 0 <= i < |Declarations(request)| && PropertiesUnset(Declarations(request)[i]))
      && (g.Some? ==>
            var rs := g.value;
            && (!stream ==> |rs| == 1)
            && (forall i :: 0 <= i < |rs| ==> rs[i].role == Some("assistant") && |rs[i].parts| >= 1)
            && (stream ==> forall i, k :: 0 <= i < |rs| && 0 <= k < |rs[i].parts| && rs[i].parts[k].functionCall.Some? ==>
                  rs[i].parts[k].functionCall.value.name.Some? && rs[i].parts[k].functionCall.value.name.value != ""))
  {
    var params := Params(settings, request, stream, host, dumps);
    if stream && params.Some? {
      var (chunks, failure) := create(params.value);
      StreamedShape(chunks, failure, host.parse, refused);
    }
  }
}
