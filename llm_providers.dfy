/**
 * The OpenAI chat-completion provider: validation of the message list, the
 * provider's configuration, the request it sends and the reply it extracts.
 * The HTTP exchange itself is a parameter (`Transport`): the outcome the
 * HTTP client reports for the one POST the provider makes.
 */
module LlmProviders {
  import opened Wrappers
  import opened Json
  import opened Text

  const DefaultBaseUrl: string := "https://api.openai.com/v1"
  const CompletionsPath: string := "/chat/completions"
  const DefaultModel: string := "gpt-4.1-mini"

  /** The `LLMProviderError`s the provider raises, tagged by their cause. */
  datatype ProviderError =
    | NotASequence                  // `messages` is not a Sequence
    | NotAMapping(index: nat)       // element `index` is not a dict
    | MissingRole(index: nat)       // element `index` has no usable `role`
    | MissingContent(index: nat)    // element `index` has no usable `content`
    | HttpStatus(status: int)       // the server answered with a non-2xx status
    | HttpFailure                   // the request did not complete
    | InvalidJson                   // the reply body is not JSON
    | UnexpectedPayload(body: JValue) // the reply has no `choices[0].message.content`

  /** The `ValueError` the constructor raises. */
  datatype ConfigError = EmptyApiKey

  /** A validated message: the two fields the provider keeps, verbatim. */
  datatype Message = Message(role: string, content: string)

  // ---------------------------------------------------------------------
  // Message normalization (`_normalize_messages`)
  // ---------------------------------------------------------------------

  /**
   * What `for message in messages` visits once `messages` has passed the
   * `isinstance(messages, Sequence)` test: a list's elements, or a string's
   * one-character strings (a `str` is a Sequence too). `None` when the value
   * is not a Sequence (a dict, a number, a bool or `None`).
   */
  function Elements(messages: JValue): (r: Option<seq<JValue>>)
    ensures r.None? <==> !messages.JArr? && !messages.JStr?
    ensures messages.JArr? ==> r == Some(messages.items)
    ensures messages.JStr? ==> r.Some? && |r.value| == |messages.str|
                               && forall i :: 0 <= i < |r.value| ==> r.value[i] == JStr([messages.str[i]])
  {
    match messages
    case JArr(items) => Some(items)
    case JStr(s) => Some(seq(|s|, i requires 0 <= i < |s| => JStr([s[i]])))
    case _ => None
  }

  /** `fields[key]` is a string that is not all whitespace. */
  predicate HasText(fields: map<string, JValue>, key: string) {
    key in fields && fields[key].JStr? && !AllSpace(fields[key].str)
  }

  /** An element that passes every check of the loop body. */
  predicate IsValidMessage(v: JValue) {
    v.JObj? && HasText(v.fields, "role") && HasText(v.fields, "content")
  }

  /** The kept fields of a valid element, copied without trimming. */
  function MessageOf(v: JValue): Message
    requires IsValidMessage(v)
  {
    Message(v.fields["role"].str, v.fields["content"].str)
  }

  /**
   * What the loop body decides for the element at `index`: the checks in the
   * order the Python code makes them (a dict, then `role`, then `content`).
   */
  function Check(index: nat, message: JValue): (r: Result<Message, ProviderError>)
    ensures r.Success? <==> IsValidMessage(message)
  {
    if !message.JObj? then Failure(NotAMapping(index))
    else if !HasText(message.fields, "role") then Failure(MissingRole(index))
    else if !HasText(message.fields, "content") then Failure(MissingContent(index))
    else Success(MessageOf(message))
  }

  /** The outcome of the loop over `items`, element by element from the front. */
  function NormalizedItems(items: seq<JValue>): Result<seq<Message>, ProviderError>
    decreases |items|
  {
    if items == [] then Success([])
    else
      match NormalizedItems(items[..|items| - 1])
      case Failure(e) => Failure(e)
      case Success(prefix) =>
        match Check(|items| - 1, items[|items| - 1])
        case Failure(e) => Failure(e)
        case Success(m) => Success(prefix + [m])
  }

  /** The outcome of `_normalize_messages(messages)`. */
  function Normalized(messages: JValue): Result<seq<Message>, ProviderError> {
    match Elements(messages)
    case None => Failure(NotASequence)
    case Some(items) => NormalizedItems(items)
  }

  /** The loop succeeds exactly when every element is valid. */
  lemma {:induction false} NormalizedSucceedsIff(items: seq<JValue>)
    ensures NormalizedItems(items).Success? <==> forall i :: 0 <= i < |items| ==> IsValidMessage(items[i])
    decreases |items|
  {
    if items != [] {
      var init := items[..|items| - 1];
      NormalizedSucceedsIff(init);
      assert forall i :: 0 <= i < |init| ==> init[i] == items[i];
    }
  }

  /**
   * On success the output has one message per element, in order, holding
   * that element's `role` and `content` unchanged.
   */
  lemma {:induction false} NormalizedContents(items: seq<JValue>)
    requires NormalizedItems(items).Success?
    ensures var out := NormalizedItems(items).value;
            |out| == |items|
            && forall i :: 0 <= i < |items| ==> IsValidMessage(items[i]) && out[i] == MessageOf(items[i])
    decreases |items|
  {
    if items != [] {
      var init := items[..|items| - 1];
      NormalizedContents(init);
      assert forall i :: 0 <= i < |init| ==> init[i] == items[i];
    }
  }

  /**
   * On failure the error names the first element that fails a check: every
   * element before it is valid, and the error is the one that element's
   * checks produce.
   */
  lemma {:induction false} NormalizedFailsAtFirst(items: seq<JValue>)
    requires NormalizedItems(items).Failure?
    ensures var e := NormalizedItems(items).error;
            && (e.NotAMapping? || e.MissingRole? || e.MissingContent?)
            && e.index < |items|
            && !IsValidMessage(items[e.index])
            && (forall j :: 0 <= j < e.index ==> IsValidMessage(items[j]))
            && var m := items[e.index];
            && (!m.JObj? ==> e == NotAMapping(e.index))
            && (m.JObj? && !HasText(m.fields, "role") ==> e == MissingRole(e.index))
            && (m.JObj? && HasText(m.fields, "role") && !HasText(m.fields, "content") ==> e == MissingContent(e.index))
    decreases |items|
  {
    var init := items[..|items| - 1];
    assert forall i :: 0 <= i < |init| ==> init[i] == items[i];
    if NormalizedItems(init).Failure? {
      NormalizedFailsAtFirst(init);
    } else {
      NormalizedSucceedsIff(init);
    }
  }

  /** A failure in a prefix is the failure of the whole list. */
  lemma {:induction false} PrefixFailure(items: seq<JValue>, k: nat)
    requires k <= |items| && NormalizedItems(items[..k]).Failure?
    ensures NormalizedItems(items) == NormalizedItems(items[..k])
    decreases |items| - k
  {
    if k < |items| {
      assert items[..k + 1][..k] == items[..k];
      PrefixFailure(items, k + 1);
    } else {
      assert items[..k] == items;
    }
  }

  /** The loop of `_normalize_messages`, with its early exits. */
  method NormalizeMessages(messages: JValue) returns (r: Result<seq<Message>, ProviderError>)
    ensures r == Normalized(messages)
  {
    var elements := Elements(messages);
    if elements.None? {
      return Failure(NotASequence);
    }
    var items := elements.value;
    var normalized: seq<Message> := [];
    var index := 0;
    while index < |items|
      invariant 0 <= index <= |items|
      invariant NormalizedItems(items[..index]) == Success(normalized)
    {
      var message := items[index];
      assert items[..index + 1][..index] == items[..index];
      if !message.JObj? {
        PrefixFailure(items, index + 1);
        return Failure(NotAMapping(index));
      }
      var role := Get(message.fields, "role");
      var content := Get(message.fields, "content");
      if !(role.Some? && role.value.JStr?) || Strip(role.value.str) == [] {
        PrefixFailure(items, index + 1);
        return Failure(MissingRole(index));
      }
      if !(content.Some? && content.value.JStr?) || Strip(content.value.str) == [] {
        PrefixFailure(items, index + 1);
        return Failure(MissingContent(index));
      }
      normalized := normalized + [Message(role.value.str, content.value.str)];
      index := index + 1;
    }
    assert items[..index] == items;
    return Success(normalized);
  }

  /** A string is iterated one character at a time, so only the empty string passes. */
  lemma StringMessages(s: string)
    ensures Normalized(JStr(s)) == if s == [] then Success([]) else Failure(NotAMapping(0))
  {
    var items := Elements(JStr(s)).value;
    if s != [] {
      NormalizedSucceedsIff(items);
      assert !IsValidMessage(items[0]);
      NormalizedFailsAtFirst(items);
    }
  }

  // ---------------------------------------------------------------------
  // Configuration (`OpenAILLMProvider.__init__`)
  // ---------------------------------------------------------------------

  /** The fields a constructed provider holds (the timeout is not modelled). */
  datatype Config = Config(apiKey: string, baseUrl: string, model: string)

  /** Python's `value or default` for an optional string: `None` and `""` are falsy. */
  function OrDefault(value: Option<string>, default: string): (r: string)
    ensures value.Some? && value.value != [] ==> r == value.value
    ensures value.None? || value.value == [] ==> r == default
  {
    if value.Some? && value.value != [] then value.value else default
  }

  /** `OpenAILLMProvider(api_key=..., base_url=..., model=...)`. */
  function NewConfig(apiKey: string, baseUrl: Option<string>, model: Option<string>): (r: Result<Config, ConfigError>)
    ensures r.Failure? <==> AllSpace(apiKey)
    ensures r.Failure? ==> r.error == EmptyApiKey
    ensures r.Success? ==> r.value.apiKey == Strip(apiKey) && r.value.apiKey != []
                           && !IsSpace(r.value.apiKey[0]) && !IsSpace(r.value.apiKey[|r.value.apiKey| - 1])
    ensures r.Success? ==>
              var given := OrDefault(baseUrl, DefaultBaseUrl);
              var stored := r.value.baseUrl;
              && |stored| <= |given| && given[..|stored|] == stored
              && (forall i :: |stored| <= i < |given| ==> given[i] == '/')
              && (stored == [] || stored[|stored| - 1] != '/')
    ensures r.Success? ==> r.value.model == OrDefault(model, DefaultModel) && r.value.model != []
  {
    if apiKey == [] || Strip(apiKey) == [] then Failure(EmptyApiKey)
    else
      Success(Config(
        Strip(apiKey),
        TrimEndChar(OrDefault(baseUrl, DefaultBaseUrl), '/'),
        OrDefault(model, DefaultModel)))
  }

  /** Without a base URL or a model the provider targets the vendor's defaults. */
  lemma DefaultsApplied(apiKey: string, baseUrl: Option<string>, model: Option<string>)
    requires !AllSpace(apiKey)
    requires baseUrl.None? || baseUrl.value == []
    requires model.None? || model.value == []
    ensures NewConfig(apiKey, baseUrl, model).Success?
    ensures NewConfig(apiKey, baseUrl, model).value.baseUrl == "https://api.openai.com/v1"
    ensures NewConfig(apiKey, baseUrl, model).value.model == "gpt-4.1-mini"
  {
  }

  // ---------------------------------------------------------------------
  // The request (`generate`, before the POST)
  // ---------------------------------------------------------------------

  /** The dict `{"role": role, "content": content}` built for one message. */
  function MessageJson(m: Message): (r: JValue)
    ensures r.JObj? && r.fields.Keys == {"role", "content"}
    ensures r.fields["role"] == JStr(m.role) && r.fields["content"] == JStr(m.content)
  {
    JObj(map["role" := JStr(m.role), "content" := JStr(m.content)])
  }

  /**
   * Each dict the provider sends for a normalized list has exactly the keys
   * `role` and `content`, holding the input element's values; any other key
   * of the element is dropped.
   */
  lemma NormalizedDropsOtherKeys(items: seq<JValue>)
    requires NormalizedItems(items).Success?
    ensures var out := NormalizedItems(items).value;
            |out| == |items|
            && forall i :: 0 <= i < |items| ==>
                 && items[i].JObj? && "role" in items[i].fields && "content" in items[i].fields
                 && MessageJson(out[i]).fields.Keys == {"role", "content"}
                 && MessageJson(out[i]).fields
                    == map["role" := items[i].fields["role"], "content" := items[i].fields["content"]]
  {
  }

  /** The value of `response_format`: the provider asks for a JSON object. */
  const JsonObjectFormat: JValue := JObj(map["type" := JStr("json_object")])

  /** The request body `{model, messages, response_format}`. */
  function BuildPayload(model: string, messages: seq<Message>): (r: JValue)
    ensures r.JObj? && r.fields.Keys == {"model", "messages", "response_format"}
    ensures r.fields["response_format"] == JsonObjectFormat
  {
    JObj(map[
      "model" := JStr(model),
      "messages" := JArr(seq(|messages|, i requires 0 <= i < |messages| => MessageJson(messages[i]))),
      "response_format" := JsonObjectFormat])
  }

  /** Reads one message back from its dict; it must have exactly the two keys. */
  function MessageFromJson(v: JValue): Option<Message> {
    if v.JObj? && v.fields.Keys == {"role", "content"} && v.fields["role"].JStr? && v.fields["content"].JStr?
    then Some(Message(v.fields["role"].str, v.fields["content"].str))
    else None
  }

  /** Reads a message list back from its JSON form. */
  function MessagesFromJson(vs: seq<JValue>): Option<seq<Message>>
    decreases |vs|
  {
    if vs == [] then Some([])
    else
      match (MessageFromJson(vs[0]), MessagesFromJson(vs[1..]))
      case (Some(m), Some(ms)) => Some([m] + ms)
      case _ => None
  }

  /** What the server reads from a request body: the model and the messages. */
  function ReadPayload(body: JValue): Option<(string, seq<Message>)> {
    if body.JObj? && body.fields.Keys == {"model", "messages", "response_format"}
       && body.fields["model"].JStr? && body.fields["messages"].JArr?
       && body.fields["response_format"] == JsonObjectFormat
    then
      match MessagesFromJson(body.fields["messages"].items)
      case Some(ms) => Some((body.fields["model"].str, ms))
      case None => None
    else None
  }

  lemma {:induction false} MessagesRoundTrip(messages: seq<Message>)
    ensures MessagesFromJson(seq(|messages|, i requires 0 <= i < |messages| => MessageJson(messages[i])))
            == Some(messages)
    decreases |messages|
  {
    var vs := seq(|messages|, i requires 0 <= i < |messages| => MessageJson(messages[i]));
    if messages != [] {
      var rest := messages[1..];
      MessagesRoundTrip(rest);
      assert vs[1..] == seq(|rest|, i requires 0 <= i < |rest| => MessageJson(rest[i]));
      assert MessageFromJson(vs[0]) == Some(messages[0]);
      assert [messages[0]] + rest == messages;
    }
  }

  /** The body carries the configured model and exactly the given messages. */
  lemma PayloadRoundTrip(model: string, messages: seq<Message>)
    ensures ReadPayload(BuildPayload(model, messages)) == Some((model, messages))
  {
    MessagesRoundTrip(messages);
  }

  /** The value of the `Authorization` header. */
  function Bearer(apiKey: string): (r: string)
    ensures |r| == 7 + |apiKey| && r[..7] == "Bearer " && r[7..] == apiKey
  {
    "Bearer " + apiKey
  }

  /** The one POST request: URL, headers and JSON body (the timeout is not modelled). */
  datatype Request = Request(url: string, headers: map<string, string>, body: JValue)

  function BuildRequest(config: Config, messages: seq<Message>): Request {
    Request(
      config.baseUrl + CompletionsPath,
      map["Authorization" := Bearer(config.apiKey), "Content-Type" := "application/json"],
      BuildPayload(config.model, messages))
  }

  /**
   * The request goes to the stored base URL followed by a single `/` and
   * `chat/completions`, carries the stored key after `Bearer `, and its body
   * holds the configured model and the messages.
   */
  lemma RequestShape(apiKey: string, baseUrl: Option<string>, model: Option<string>, messages: seq<Message>)
    requires NewConfig(apiKey, baseUrl, model).Success?
    ensures var config := NewConfig(apiKey, baseUrl, model).value;
            var req := BuildRequest(config, messages);
            var n := |config.baseUrl|;
            && req.url[..n] == config.baseUrl
            && req.url[n..] == "/chat/completions"
            && (n > 0 ==> req.url[n - 1] != '/')
            && req.headers == map["Authorization" := "Bearer " + Strip(apiKey), "Content-Type" := "application/json"]
            && ReadPayload(req.body) == Some((config.model, messages))
  {
    PayloadRoundTrip(NewConfig(apiKey, baseUrl, model).value.model, messages);
  }

  // ---------------------------------------------------------------------
  // The reply (`generate`, after the POST)
  // ---------------------------------------------------------------------

  /** The decoded reply body, or a body `response.json()` fails to parse. */
  datatype Body = Decoded(data: JValue) | NotJson

  /** What the HTTP client reports for the POST. */
  datatype Transport = Responded(status: int, body: Body) | TransportError

  /** The subscripts of `data["choices"][0]["message"]["content"]`. */
  const ReplyPath: seq<Key> := [Field("choices"), Index(0), Field("message"), Field("content")]

  /**
   * `data["choices"][0]["message"]["content"]`, or the provider error that
   * carries the whole body when any subscript raises.
   */
  function ExtractReply(data: JValue): (r: Result<JValue, ProviderError>)
    ensures r.Failure? ==> r.error == UnexpectedPayload(data)
    ensures r.Success? <==>
              && data.JObj? && "choices" in data.fields
              && data.fields["choices"].JArr? && |data.fields["choices"].items| > 0
              && data.fields["choices"].items[0].JObj? && "message" in data.fields["choices"].items[0].fields
              && data.fields["choices"].items[0].fields["message"].JObj?
              && "content" in data.fields["choices"].items[0].fields["message"].fields
    ensures r.Success? ==> r.value == data.fields["choices"].items[0].fields["message"].fields["content"]
  {
    assert ReplyPath[1..] == [Index(0), Field("message"), Field("content")];
    assert ReplyPath[1..][1..] == [Field("message"), Field("content")];
    assert ReplyPath[1..][1..][1..] == [Field("content")];
    assert ReplyPath[1..][1..][1..][1..] == [];
    match Lookup(data, ReplyPath)
    case Some(content) => Success(content)
    case None => Failure(UnexpectedPayload(data))
  }

  /** The outcome of the POST turned into the reply or a provider error. */
  function Receive(transport: Transport): Result<JValue, ProviderError> {
    match transport
    case TransportError => Failure(HttpFailure)
    case Responded(status, body) =>
      if !(200 <= status < 300) then Failure(HttpStatus(status))
      else
        match body
        case NotJson => Failure(InvalidJson)
        case Decoded(data) => ExtractReply(data)
  }

  /**
   * A reply is returned exactly when the server answered 2xx with JSON that
   * has `choices[0].message.content`, and it is that value, of whatever type.
   * Every other outcome is a provider error naming its cause.
   */
  lemma ReceiveOutcomes(transport: Transport)
    ensures transport.TransportError? ==> Receive(transport) == Failure(HttpFailure)
    ensures transport.Responded? && !(200 <= transport.status < 300)
            ==> Receive(transport) == Failure(HttpStatus(transport.status))
    ensures transport.Responded? && 200 <= transport.status < 300 && transport.body.NotJson?
            ==> Receive(transport) == Failure(InvalidJson)
    ensures Receive(transport).Success? <==>
              transport.Responded? && 200 <= transport.status < 300 && transport.body.Decoded?
              && Lookup(transport.body.data, ReplyPath).Some?
    ensures Receive(transport).Success? ==> Receive(transport).value == Lookup(transport.body.data, ReplyPath).value
  {
  }

  /**
   * `generate(messages=...)`: the reply or the error it raises, and the
   * request it sends (`None` when it fails before sending). `transport` is
   * what the HTTP client reports for that request.
   */
  method Generate(config: Config, messages: JValue, transport: Transport)
    returns (reply: Result<JValue, ProviderError>, sent: Option<Request>)
    ensures Normalized(messages).Failure? ==> sent == None && reply == Failure(Normalized(messages).error)
    ensures Normalized(messages).Success? ==>
              sent == Some(BuildRequest(config, Normalized(messages).value)) && reply == Receive(transport)
  {
    var normalized := NormalizeMessages(messages);
    if normalized.Failure? {
      return Failure(normalized.error), None;
    }
    var request := BuildRequest(config, normalized.value);
    sent := Some(request);
    reply := Receive(transport);
  }

  /** Three fixed exchanges: a reply, an HTTP 401, and a body without choices. */
  lemma ExampleExchanges()
    ensures Normalized(JArr([JObj(map["role" := JStr("user"), "content" := JStr("hi")])]))
            == Success([Message("user", "hi")])
    ensures Receive(Responded(200, Decoded(JObj(map["choices" := JArr([
              JObj(map["message" := JObj(map["content" := JStr("hello")])])])]))))
            == Success(JStr("hello"))
    ensures Receive(Responded(401, Decoded(JNull))) == Failure(HttpStatus(401))
    ensures Receive(Responded(200, Decoded(JObj(map["choices" := JArr([])]))))
            == Failure(UnexpectedPayload(JObj(map["choices" := JArr([])])))
  {
    var items := [JObj(map["role" := JStr("user"), "content" := JStr("hi")])];
    assert !AllSpace("user") by { assert !IsSpace("user"[0]); }
    assert !AllSpace("hi") by { assert !IsSpace("hi"[0]); }
    assert IsValidMessage(items[0]);
    NormalizedSucceedsIff(items);
    NormalizedContents(items);
    var out := NormalizedItems(items).value;
    assert out[0] == Message("user", "hi");
    assert out == [Message("user", "hi")];
  }
}
