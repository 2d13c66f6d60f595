/**
 * The client of the chat-completion AI service: configuration defaults and URL
 * normalisation, the request `chatCompletion` sends, how its reply is read,
 * and the defaults the JSON helpers fall back to when a call fails.
 */
module AiService {
  import opened Wrappers
  import opened JsStrings
  import opened Json

  const DefaultModel := "gpt-3.5-turbo"
  const DefaultTimeout := "120"
  const ApiVersion := "/v1"
  const CompletionsPath := "/chat/completions"
  const ChunkSize := 1000

  // ---------------------------------------------------------------------------
  // Configuration

  /** The AI_SERVICE_URL, AI_SERVICE_TOKEN, AI_SERVICE_MODEL and AI_SERVICE_TIMEOUT environment variables. */
  datatype Env = Env(serviceUrl: Option<string>, token: Option<string>, model: Option<string>, timeout: Option<string>)

  /** The two configuration errors the constructor throws. */
  datatype ConfigError = MissingServiceUrl | MissingToken

  /** The resolved settings, before the URL is normalised; a `None` timeout is NaN. */
  datatype Config = Config(serviceUrl: string, token: string, model: string, timeout: Option<int>)

  /** How many decimal digits `s` starts with. */
  function LeadingDigits(s: string): (n: nat)
    ensures n <= |s|
    ensures forall i :: 0 <= i < n ==> '0' <= s[i] <= '9'
    ensures n < |s| ==> !('0' <= s[n] <= '9')
  {
    if s != [] && '0' <= s[0] <= '9' then 1 + LeadingDigits(s[1..]) else 0
  }

  /** `parseInt(s)` on a decimal string: an optional sign, then the leading digits; NaN (`None`) when there are none. */
  function ParseInt(s: string): (r: Option<int>)
    ensures r.None? <==> LeadingDigits(if s != [] && (s[0] == '-' || s[0] == '+') then s[1..] else s) == 0
  {
    var negative := s != [] && s[0] == '-';
    var body := if s != [] && (s[0] == '-' || s[0] == '+') then s[1..] else s;
    var n := LeadingDigits(body);
    if n == 0 then None
    else
      var v: int := DigitsValue(body[..n]);
      Some(if negative then -v else v)
  }

  /** A string of digits is all leading digits. */
  lemma {:induction false} AllDigitsLead(s: string)
    requires forall i :: 0 <= i < |s| ==> '0' <= s[i] <= '9'
    ensures LeadingDigits(s) == |s|
    decreases |s|
  {
    if s != [] {
      AllDigitsLead(s[1..]);
    }
  }

  /** `parseInt` reads back the decimal printing of every non-negative integer. */
  lemma ParseIntOfNatToString(n: nat)
    ensures ParseInt(NatToString(n)) == Some(n)
  {
    var s := NatToString(n);
    AllDigitsLead(s);
    assert s[..|s|] == s;
  }

  /** The default timeout string reads as 120 seconds. */
  lemma DefaultTimeoutParses()
    ensures ParseInt(DefaultTimeout) == Some(120)
  {
    assert LeadingDigits(DefaultTimeout) == 3;
    assert DefaultTimeout[..3] == DefaultTimeout;
    assert DefaultTimeout[..3][..2] == DefaultTimeout[..2];
    assert DefaultTimeout[..2][..1] == DefaultTimeout[..1];
    assert DigitsValue(DefaultTimeout[..1]) == 1;
    assert DigitsValue(DefaultTimeout[..2]) == 12;
  }

  /**
   * The constructor's resolution of its settings: each argument, else its
   * environment variable; a missing URL or token is an error (the URL is
   * checked first); the model defaults to gpt-3.5-turbo and the timeout to
   * `parseInt('120')` seconds.
   */
  function ResolveConfig(serviceUrl: Option<string>, token: Option<string>, model: Option<string>,
                         timeout: Option<int>, env: Env): (r: Result<Config, ConfigError>)
    ensures r.Failure? <==> !Truthy(Or(serviceUrl, env.serviceUrl)) || !Truthy(Or(token, env.token))
    ensures r == Failure(MissingServiceUrl) <==> !Truthy(Or(serviceUrl, env.serviceUrl))
    ensures r.Success? ==> r.value.serviceUrl != "" && r.value.token != "" && r.value.model != ""
    ensures r.Success? && !Truthy(model) && !Truthy(env.model) ==> r.value.model == DefaultModel
    ensures r.Success? && (timeout.None? || timeout == Some(0)) && env.timeout.None? ==> r.value.timeout == Some(120)
    ensures r.Success? && Truthy(serviceUrl) ==> r.value.serviceUrl == serviceUrl.value
    ensures r.Success? && !Truthy(serviceUrl) ==> r.value.serviceUrl == env.serviceUrl.value
    ensures r.Success? && Truthy(token) ==> r.value.token == token.value
    ensures r.Success? && !Truthy(token) ==> r.value.token == env.token.value
    ensures r.Success? && Truthy(model) ==> r.value.model == model.value
    ensures r.Success? && !Truthy(model) && Truthy(env.model) ==> r.value.model == env.model.value
    ensures r.Success? && timeout.Some? && timeout.value != 0 ==> r.value.timeout == timeout
    ensures r.Success? && (timeout.None? || timeout == Some(0)) && Truthy(env.timeout) ==> r.value.timeout == ParseInt(env.timeout.value)
    ensures r.Success? && (timeout.None? || timeout == Some(0)) && !Truthy(env.timeout) ==> r.value.timeout == Some(120)
  {
    var url := OrElse(Or(serviceUrl, env.serviceUrl), "");
    var tok := OrElse(Or(token, env.token), "");
    if url == "" then Failure(MissingServiceUrl)
    else if tok == "" then Failure(MissingToken)
    else
      var m := OrElse(Or(model, env.model), DefaultModel);
      var t := if timeout.Some? && timeout.value != 0 then timeout else ParseInt(OrElse(env.timeout, DefaultTimeout));
      DefaultTimeoutParses();
      Success(Config(url, tok, m, t))
  }

  // ---------------------------------------------------------------------------
  // URL normalisation

  /** `u.replace(/\/+$/, '')`: the URL without its trailing slashes. */
  function StripTrailingSlashes(u: string): (r: string)
    ensures |r| <= |u| && u[..|r|] == r
    ensures forall i :: |r| <= i < |u| ==> u[i] == '/'
    ensures r == "" || r[|r| - 1] != '/'
  {
    if u != "" && u[|u| - 1] == '/' then StripTrailingSlashes(u[..|u| - 1]) else u
  }

  /** The service URL the constructor keeps: trailing slashes removed, then "/v1" appended unless already there. */
  function NormalizeUrl(u: string): (r: string)
    ensures EndsWith(r, ApiVersion)
    ensures r == StripTrailingSlashes(u) || r == StripTrailingSlashes(u) + ApiVersion
    ensures r == StripTrailingSlashes(u) <==> EndsWith(StripTrailingSlashes(u), ApiVersion)
  {
    var s := StripTrailingSlashes(u);
    if EndsWith(s, ApiVersion) then s else s + ApiVersion
  }

  /** Normalising a normalised URL changes nothing. */
  lemma NormalizeUrlIdempotent(u: string)
    ensures NormalizeUrl(NormalizeUrl(u)) == NormalizeUrl(u)
  {
    var r := NormalizeUrl(u);
    assert r[|r| - 1] == '1';
    assert StripTrailingSlashes(r) == r;
  }

  // ---------------------------------------------------------------------------
  // Requests and replies

  datatype Role = System | User

  datatype ChatMessage = ChatMessage(role: Role, content: string)

  /** The options of `chatCompletion` (the temperature is not modelled). */
  datatype ChatOptions = ChatOptions(model: Option<string>, maxTokens: Option<int>, formatJson: bool)

  /** The POST `chatCompletion` sends: where, with which token, and the body fields. */
  datatype ChatRequest = ChatRequest(
    url: string,
    authorization: string,
    model: string,
    messages: seq<ChatMessage>,
    maxTokens: Option<int>,      // `max_tokens`, present only when set
    jsonResponse: bool,          // `response_format: {type: 'json_object'}` present
    timeoutMs: Option<int>)      // the axios timeout; `None` is NaN

  /** `response.data.choices[i]`: `{message: {content}}`. */
  datatype Choice = Choice(message: Option<Option<string>>)

  /**
   * What axios does with the request: resolve with a 2xx response (axios rejects
   * other statuses), reject with an error response, time out, or fail without a
   * response.
   */
  datatype HttpReply =
    | Resolved(status: int, choices: Option<seq<Choice>>)
    | Rejected(status: int)
    | TimedOut
    | NoResponse

  /** The three errors `chatCompletion` rethrows. */
  datatype ChatError = Timeout | HttpError(status: int) | CallFailed

  /** How `chatCompletion` reads a reply: the first choice's content or '' on 200; any other outcome throws. */
  function ReadReply(reply: HttpReply): (r: Result<string, ChatError>)
    ensures r.Success? <==> reply.Resolved? && reply.status == 200 && reply.choices.Some?
    ensures r.Success? && reply.choices.value == [] ==> r.value == ""
    ensures r.Success? && reply.choices.value != [] ==>
              var m := reply.choices.value[0].message;
              r.value == (if m.Some? && Truthy(m.value) then m.value.value else "")
    ensures reply.Rejected? ==> r == Failure(HttpError(reply.status))
    ensures reply.TimedOut? ==> r == Failure(Timeout)
  {
    match reply
    case Resolved(status, choices) =>
      if status != 200 then Failure(CallFailed)
      else if choices.None? then Failure(CallFailed)
      else if choices.value == [] then Success("")
      else
        var message := choices.value[0].message;
        Success(if message.Some? then OrElse(message.value, "") else "")
    case Rejected(status) => Failure(HttpError(status))
    case TimedOut => Failure(Timeout)
    case NoResponse => Failure(CallFailed)
  }

  // ---------------------------------------------------------------------------
  // The service object

  class AIService {
    var serviceUrl: string
    var token: string
    var model: string
    var timeout: Option<int>

    /** Stores the resolved settings and rewrites the URL into its normalised form. */
    constructor (config: Config)
      ensures serviceUrl == NormalizeUrl(config.serviceUrl)
      ensures token == config.token && model == config.model && timeout == config.timeout
    {
      serviceUrl := config.serviceUrl;
      token := config.token;
      model := config.model;
      timeout := config.timeout;
      new;
      serviceUrl := StripTrailingSlashes(serviceUrl);
      if !EndsWith(serviceUrl, ApiVersion) {
        serviceUrl := serviceUrl + ApiVersion;
      }
    }

    /** `new AIService(...)`: throws a configuration error, or builds the service. */
    static method Create(serviceUrl: Option<string>, token: Option<string>, model: Option<string>,
                         timeout: Option<int>, env: Env) returns (r: Result<AIService, ConfigError>)
      ensures var c := ResolveConfig(serviceUrl, token, model, timeout, env);
              (r.Failure? <==> c.Failure?) && (c.Failure? ==> r.error == c.error)
      ensures var c := ResolveConfig(serviceUrl, token, model, timeout, env);
              r.Success? ==> fresh(r.value) && r.value.serviceUrl == NormalizeUrl(c.value.serviceUrl)
                             && r.value.token == c.value.token && r.value.model == c.value.model
                             && r.value.timeout == c.value.timeout
    {
      var c := ResolveConfig(serviceUrl, token, model, timeout, env);
      if c.Failure? {
        return Failure(c.error);
      }
      var service := new AIService(c.value);
      return Success(service);
    }

    /**
     * The request `chatCompletion` sends: the system prompt followed by one user
     * message per input, in order; `max_tokens` only when set; the JSON response
     * format only when asked for; the timeout in milliseconds.
     */
    method BuildRequest(systemPrompt: string, userMessages: seq<string>, options: ChatOptions)
      returns (req: ChatRequest)
      ensures req.url == serviceUrl + CompletionsPath
      ensures req.authorization == "Bearer " + token
      ensures req.model == OrElse(options.model, model)
      ensures |req.messages| == 1 + |userMessages|
      ensures req.messages[0] == ChatMessage(System, systemPrompt)
      ensures forall i :: 0 <= i < |userMessages| ==> req.messages[i + 1] == ChatMessage(User, userMessages[i])
      ensures req.maxTokens.Some? <==> options.maxTokens.Some? && options.maxTokens.value != 0
      ensures req.maxTokens.Some? ==> req.maxTokens == options.maxTokens
      ensures req.jsonResponse == options.formatJson
      ensures timeout.Some? ==> req.timeoutMs == Some(timeout.value * 1000)
      ensures timeout.None? ==> req.timeoutMs.None?
    {
      var messages := [ChatMessage(System, systemPrompt)];
      var i := 0;
      while i < |userMessages|
        invariant 0 <= i <= |userMessages|
        invariant |messages| == 1 + i
        invariant messages[0] == ChatMessage(System, systemPrompt)
        invariant forall j :: 0 <= j < i ==> messages[j + 1] == ChatMessage(User, userMessages[j])
      {
        messages := messages + [ChatMessage(User, userMessages[i])];
        i := i + 1;
      }
      var maxTokens := if options.maxTokens.Some? && options.maxTokens.value != 0 then options.maxTokens else None;
      var timeoutMs := if timeout.Some? then Some(timeout.value * 1000) else None;
      req := ChatRequest(serviceUrl + CompletionsPath, "Bearer " + token, OrElse(options.model, model),
                         messages, maxTokens, options.formatJson, timeoutMs);
    }

    /** `chatCompletion`: send the request (the server's answer is `server(req)`) and read the reply. */
    method ChatCompletion(systemPrompt: string, userMessages: seq<string>, options: ChatOptions,
                          server: ChatRequest -> HttpReply) returns (r: Result<string, ChatError>, req: ChatRequest)
      ensures req.url == serviceUrl + CompletionsPath && req.jsonResponse == options.formatJson
      ensures |req.messages| == 1 + |userMessages| && req.messages[0] == ChatMessage(System, systemPrompt)
      ensures forall i :: 0 <= i < |userMessages| ==> req.messages[i + 1] == ChatMessage(User, userMessages[i])
      ensures r == ReadReply(server(req))
    {
      req := BuildRequest(systemPrompt, userMessages, options);
      r := ReadReply(server(req));
    }

    /**
     * `attemptGetJsonResult`: one user message, JSON response format; the reply
     * text parsed by `parse` (`JSON.parse`, `None` when it throws); `None` (null)
     * on any failure.
     */
    method AttemptGetJsonResult(systemPrompt: string, content: string,
                                server: ChatRequest -> HttpReply, parse: string -> Option<Json>)
      returns (r: Option<Json>, req: ChatRequest)
      ensures req.url == serviceUrl + CompletionsPath && req.jsonResponse
      ensures req.messages == [ChatMessage(System, systemPrompt), ChatMessage(User, content)]
      ensures r == (if ReadReply(server(req)).Success? then parse(ReadReply(server(req)).value) else None)
    {
      var reply;
      reply, req := ChatCompletion(systemPrompt, [content], ChatOptions(None, None, true), server);
      assert req.messages[1] == ChatMessage(User, [content][0]);
      if reply.Success? {
        r := parse(reply.value);
      } else {
        r := None;
      }
    }
  }

  // ---------------------------------------------------------------------------
  // What the helpers make of an attempt's result

  /** The object `contentTypeAnalysis` returns when the attempt failed. */
  const DefaultAnalysis := JObj(map["content_type" := JStr("unknown"),
                                   "analysis_reason" := JStr("分析失败"),
                                   "content_type_score" := JNum(0)])

  /** `contentTypeAnalysis`: the parsed result when truthy, else the default analysis. */
  function ContentTypeAnalysis(attempt: Option<Json>): (r: Json)
    ensures TruthyJson(attempt) ==> r == attempt.value
    ensures !TruthyJson(attempt) ==> r == DefaultAnalysis
    ensures !TruthyJson(attempt) ==>
              Get(Some(r), "content_type") == Some(JStr("unknown")) && Get(Some(r), "content_type_score") == Some(JNum(0))
              && Get(Some(r), "analysis_reason") == Some(JStr("分析失败"))
  {
    if TruthyJson(attempt) then attempt.value else DefaultAnalysis
  }

  /** `generateTitleByContent`: `result?.title || ''`. */
  function GenerateTitleByContent(attempt: Option<Json>): (r: Json)
    ensures TruthyJson(Get(attempt, "title")) ==> Some(r) == Get(attempt, "title")
    ensures !TruthyJson(Get(attempt, "title")) ==> r == JStr("")
    ensures attempt.None? ==> r == JStr("")
  {
    GetOr(attempt, "title", JStr(""))
  }

  /** `generateTagsByContent`: `result?.tags || []`. */
  function GenerateTagsByContent(attempt: Option<Json>): (r: Json)
    ensures TruthyJson(Get(attempt, "tags")) ==> Some(r) == Get(attempt, "tags")
    ensures !TruthyJson(Get(attempt, "tags")) ==> r == JArr([])
    ensures attempt.None? ==> r == JArr([])
  {
    GetOr(attempt, "tags", JArr([]))
  }

  // ---------------------------------------------------------------------------
  // The fallback chunker of splitLongText

  /** The strings of `cs`, joined. */
  function Concat(cs: seq<string>): string {
    if cs == [] then "" else cs[0] + Concat(cs[1..])
  }

  /** The pieces `text.substring(i, i + 1000)` for i = 0, 1000, 2000, ... below the length. */
  function Chunks(text: string): (cs: seq<string>)
    ensures Concat(cs) == text
    ensures cs == [] <==> text == ""
    ensures forall k :: 0 <= k < |cs| ==> 0 < |cs[k]| <= ChunkSize
    ensures forall k :: 0 <= k < |cs| - 1 ==> |cs[k]| == ChunkSize
    decreases |text|
  {
    if text == "" then []
    else if |text| <= ChunkSize then [text]
    else
      var rest := Chunks(text[ChunkSize..]);
      var cs := [text[..ChunkSize]] + rest;
      assert cs[1..] == rest;
      assert text[..ChunkSize] + text[ChunkSize..] == text;
      cs
  }

  /** A JSON array of strings. */
  function Strings(cs: seq<string>): (r: seq<Json>)
    ensures |r| == |cs| && forall k :: 0 <= k < |cs| ==> r[k] == JStr(cs[k])
  {
    seq(|cs|, k requires 0 <= k < |cs| => JStr(cs[k]))
  }

  function Min(a: int, b: int): int {
    if a <= b then a else b
  }

  /** One turn of the chunking loop: the piece at `i`, then the pieces after it. */
  lemma ChunksStep(text: string, i: nat)
    requires i < |text|
    ensures Chunks(text[i..]) == [text[i..Min(i + ChunkSize, |text|)]] + Chunks(text[Min(i + ChunkSize, |text|)..])
  {
    if |text| - i <= ChunkSize {
      assert text[i..Min(i + ChunkSize, |text|)] == text[i..];
      assert text[|text|..] == "";
    } else {
      assert text[i..][ChunkSize..] == text[i + ChunkSize..];
      assert text[i..][..ChunkSize] == text[i..i + ChunkSize];
    }
  }

  /** The chunking loop's invariant survives one turn. */
  lemma ChunksLoopStep(text: string, chunks: seq<string>, i: nat)
    requires i < |text|
    requires chunks + Chunks(text[Min(i, |text|)..]) == Chunks(text)
    ensures (chunks + [text[i..Min(i + ChunkSize, |text|)]]) + Chunks(text[Min(i + ChunkSize, |text|)..]) == Chunks(text)
  {
    var end := Min(i + ChunkSize, |text|);
    ChunksStep(text, i);
    assert Min(i, |text|) == i;
    AppendAssoc(chunks, [text[i..end]], Chunks(text[end..]));
  }

  lemma AppendAssoc(a: seq<string>, b: seq<string>, c: seq<string>)
    ensures (a + b) + c == a + (b + c)
  {
  }

  /** The fallback loop of `splitLongText`: `text.substring(i, i + 1000)` for i = 0, 1000, ... below the length. */
  method CutIntoChunks(text: string) returns (chunks: seq<string>)
    ensures chunks == Chunks(text)
  {
    chunks := [];
    var i := 0;
    assert text[Min(i, |text|)..] == text;
    while i < |text|
      invariant 0 <= i
      invariant chunks + Chunks(text[Min(i, |text|)..]) == Chunks(text)
    {
      var end := Min(i + ChunkSize, |text|);
      ChunksLoopStep(text, chunks, i);
      chunks := chunks + [text[i..end]];
      i := i + ChunkSize;
    }
    ChunksLoopExit(text, chunks, i);
  }

  lemma ChunksLoopExit(text: string, chunks: seq<string>, i: nat)
    requires i >= |text| && chunks + Chunks(text[Min(i, |text|)..]) == Chunks(text)
    ensures chunks == Chunks(text)
  {
    assert text[Min(i, |text|)..] == "";
    assert chunks + [] == chunks;
  }

  /** `splitLongText`: the service's `text` field when truthy, else the text cut into 1000-character pieces. */
  method SplitLongText(text: string, attempt: Option<Json>) returns (r: Json)
    ensures TruthyJson(Get(attempt, "text")) ==> Some(r) == Get(attempt, "text")
    ensures !TruthyJson(Get(attempt, "text")) ==> r == JArr(Strings(Chunks(text)))
  {
    if TruthyJson(Get(attempt, "text")) {
      r := Get(attempt, "text").value;
    } else {
      var chunks := CutIntoChunks(text);
      r := JArr(Strings(chunks));
    }
  }
}
