/**
 * The YandexGPT provider: a stateless client that checks its
 * configuration, sends one completion request and reads the first
 * alternative. The HTTP endpoint is a parameter.
 */
module YandexGPT {
  import opened Wrappers
  import opened Models
  import opened AIService

  const PlaceholderKey := "your_yandex_api_key_here"

  predicate KeyConfigured(apiKey: string)
  {
    apiKey != "" && apiKey != PlaceholderKey
  }

  const CompletionURL := "https://llm.api.cloud.yandex.net/foundationModels/v1/completion"

  datatype YandexGPTService = YandexGPTService(apiKey: string, folderId: string)

  datatype CompletionOptions = CompletionOptions(stream: bool, temperature: real, maxTokens: int)

  datatype YandexRequest = YandexRequest(modelUri: string, completionOptions: CompletionOptions, messages: seq<Message>)

  /** A completion call: the URL, the Authorization header and the body. */
  datatype YandexCall = YandexCall(url: string, authorization: string, request: YandexRequest)

  /** The decoded response: the message text of each alternative, in order. */
  datatype YandexBody = YandexBody(alternatives: seq<string>)

  datatype YandexError =
    | KeyNotConfigured | FolderNotConfigured
    | Transport | BadStatus(code: int) | Undecodable | NoAlternatives

  /** The model addressed in the given cloud folder. */
  function ModelUri(folderId: string): (uri: string)
    ensures |uri| == |folderId| + 28
    // the folder can be read back from between the scheme and the model name
    ensures uri[..6] == "gpt://" && uri[6..|uri| - 22] == folderId
  {
    "gpt://" + folderId + "/yandexgpt-lite/latest"
  }

  /** The call sendRequest makes, or why it makes none. */
  function PrepareCall(svc: YandexGPTService, messages: seq<Message>): (r: Result<YandexCall, YandexError>)
    // the key is checked before the folder
    ensures !KeyConfigured(svc.apiKey) ==> r == Failure(KeyNotConfigured)
    ensures KeyConfigured(svc.apiKey) && svc.folderId == "" ==> r == Failure(FolderNotConfigured)
    ensures r.Success? <==> KeyConfigured(svc.apiKey) && svc.folderId != ""
    // the messages go out unchanged, to the folder's model, with the key as credential
    ensures r.Success? ==>
      && r.value.request.messages == messages
      && r.value.request.modelUri == ModelUri(svc.folderId)
      && r.value.request.completionOptions == CompletionOptions(false, 0.7, 1000)
      && r.value.authorization == "Api-Key " + svc.apiKey
  {
    if !KeyConfigured(svc.apiKey) then Failure(KeyNotConfigured)
    else if svc.folderId == "" then Failure(FolderNotConfigured)
    else
      var request := YandexRequest(ModelUri(svc.folderId), CompletionOptions(false, 0.7, 1000), messages);
      Success(YandexCall(CompletionURL, "Api-Key " + svc.apiKey, request))
  }

  /** Reading a completion response: the first alternative's text, or why there is none. */
  function ReadResponse(resp: HttpResult<YandexBody>): (r: Result<string, YandexError>)
    ensures r.Success? <==>
      resp.Response? && resp.status == 200 && resp.body.Some? && |resp.body.value.alternatives| > 0
    ensures r.Success? ==> r.value == resp.body.value.alternatives[0]
  {
    match resp
    case TransportError => Failure(Transport)
    case Response(status, body) =>
      if status != 200 then Failure(BadStatus(status))
      else if body.None? then Failure(Undecodable)
      else if |body.value.alternatives| == 0 then Failure(NoAlternatives)
      else Success(body.value.alternatives[0])
  }

  /** sendRequest. */
  function SendRequest(svc: YandexGPTService, messages: seq<Message>,
                       server: YandexCall -> HttpResult<YandexBody>): (r: Result<string, YandexError>)
    // a configuration error is returned as it is
    ensures PrepareCall(svc, messages).Failure? ==> r == Failure(PrepareCall(svc, messages).error)
    // a prepared call is sent once, and its answer is read
    ensures PrepareCall(svc, messages).Success? ==> r == ReadResponse(server(PrepareCall(svc, messages).value))
  {
    match PrepareCall(svc, messages)
    case Failure(e) => Failure(e)
    case Success(call) => ReadResponse(server(call))
  }

  /**
   * The endpoint is asked at most once, and only with the prepared call:
   * two endpoints that answer that one call alike (or any two, when no
   * call can be prepared) give the same result.
   */
  lemma OnlyThePreparedCallIsSent(svc: YandexGPTService, messages: seq<Message>,
                                  s1: YandexCall -> HttpResult<YandexBody>,
                                  s2: YandexCall -> HttpResult<YandexBody>)
    requires PrepareCall(svc, messages).Success? ==>
      s1(PrepareCall(svc, messages).value) == s2(PrepareCall(svc, messages).value)
    ensures SendRequest(svc, messages, s1) == SendRequest(svc, messages, s2)
  {
  }

  /**
   * For a prepared call the result is the first alternative of a 200
   * answer that holds one, and a failure for any other answer.
   */
  lemma PreparedCallAnswer(svc: YandexGPTService, messages: seq<Message>,
                           server: YandexCall -> HttpResult<YandexBody>)
    requires PrepareCall(svc, messages).Success?
    ensures var resp := server(PrepareCall(svc, messages).value);
      if resp.Response? && resp.status == 200 && resp.body.Some? && |resp.body.value.alternatives| > 0
      then SendRequest(svc, messages, server) == Success(resp.body.value.alternatives[0])
      else SendRequest(svc, messages, server).Failure?
  {
  }

  /** The three advice operations. */
  function Recommendation(svc: YandexGPTService, req: Request, user: User, fmt: Formatter,
                          server: YandexCall -> HttpResult<YandexBody>): (r: Reply)
    ensures !KeyConfigured(svc.apiKey) ==> r == NotConfigured
    ensures KeyConfigured(svc.apiKey) ==>
      r == (match SendRequest(svc, Messages(req, user, fmt), server)
            case Success(text) => Advice(text)
            case Failure(_) => Failed)
  {
    if !KeyConfigured(svc.apiKey) then NotConfigured
    else
      match SendRequest(svc, Messages(req, user, fmt), server)
      case Success(text) => Advice(text)
      case Failure(_) => Failed
  }

  /**
   * A configured key without a folder is reported as a failed request,
   * not as a missing key, whatever the endpoint would have said.
   */
  lemma MissingFolderIsFailure(svc: YandexGPTService, req: Request, user: User, fmt: Formatter,
                               server: YandexCall -> HttpResult<YandexBody>)
    requires KeyConfigured(svc.apiKey) && svc.folderId == ""
    ensures Recommendation(svc, req, user, fmt, server) == Failed
  {
    assert PrepareCall(svc, Messages(req, user, fmt)) == Failure(FolderNotConfigured);
  }

  /**
   * Advice is only ever the first alternative the endpoint returned for a
   * call carrying exactly this request's messages.
   */
  lemma AdviceComesFromServer(svc: YandexGPTService, req: Request, user: User, fmt: Formatter,
                              server: YandexCall -> HttpResult<YandexBody>)
    requires Recommendation(svc, req, user, fmt, server).Advice?
    ensures exists call: YandexCall ::
      && call.request.messages == Messages(req, user, fmt)
      && call.request.modelUri == ModelUri(svc.folderId)
      && ReadResponse(server(call)) == Success(Recommendation(svc, req, user, fmt, server).text)
  {
    var call := PrepareCall(svc, Messages(req, user, fmt)).value;
    assert ReadResponse(server(call)) == Success(Recommendation(svc, req, user, fmt, server).text);
  }

  /** Without a usable configuration the endpoint plays no part in the reply. */
  lemma UnconfiguredIgnoresServer(svc: YandexGPTService, req: Request, user: User, fmt: Formatter,
                                  s1: YandexCall -> HttpResult<YandexBody>,
                                  s2: YandexCall -> HttpResult<YandexBody>)
    requires !KeyConfigured(svc.apiKey) || svc.folderId == ""
    ensures Recommendation(svc, req, user, fmt, s1) == Recommendation(svc, req, user, fmt, s2)
  {
    assert PrepareCall(svc, Messages(req, user, fmt)).Failure?;
  }

  /** The model URI names the folder and the model it addresses, and nothing else varies. */
  lemma ModelUriInjective(f1: string, f2: string)
    requires ModelUri(f1) == ModelUri(f2)
    ensures f1 == f2
  {
    var head, tail := "gpt://", "/yandexgpt-lite/latest";
    assert |f1| == |ModelUri(f1)| - |head| - |tail| == |f2|;
    assert f1 == ModelUri(f1)[|head|..|head| + |f1|];
    assert f2 == ModelUri(f2)[|head|..|head| + |f2|];
  }
}
