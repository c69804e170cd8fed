/**
 * The GigaChat provider: an OAuth bearer token cached in the service
 * object, a chat-completion call per request, and fixed fallback texts.
 * The token endpoint's answer, the chat endpoint and the clock are
 * parameters of each operation.
 */
module GigaChat {
  import opened Wrappers
  import opened Models
  import opened AIService
  import Utf8

  const PlaceholderKey := "your_gigachat_api_key_here"

  /** The API key is set and is not the sample configuration's placeholder. */
  predicate KeyConfigured(apiKey: string)
  {
    apiKey != "" && apiKey != PlaceholderKey
  }

  const NanosPerSecond: int := 1_000_000_000

  /** Go's zero time.Time (1 January of year 1, UTC) in Unix nanoseconds. */
  const ZeroTime: Instant := -62135596800 * NanosPerSecond

  /** A fresh token is treated as expired this many seconds early. */
  const RefreshMarginSeconds: int := 60

  /** The part of the API key the authentication step logs. */
  const LoggedKeyBytes: nat := 20

  /** The decoded token response. */
  datatype AuthBody = AuthBody(accessToken: string, expiresIn: int)

  /** The chat-completion request body. */
  datatype ChatRequest = ChatRequest(
    model: string,
    messages: seq<Message>,
    temperature: real,
    topP: real,
    n: int,
    stream: bool,
    maxTokens: int,
    repetitionPenalty: real)

  /** A chat call: the URL, the bearer token sent in the Authorization header, and the body. */
  datatype ChatCall = ChatCall(url: string, bearer: string, request: ChatRequest)

  /** The decoded chat response: the message content of each choice, in order. */
  datatype ChatBody = ChatBody(choices: seq<string>)

  datatype GigaError =
    | AuthTransport | AuthStatus(code: int) | AuthUndecodable
    | ChatTransport | ChatStatus(code: int) | ChatUndecodable | NoChoices

  /** The cached token and the instant from which it is no longer used. */
  datatype Credential = Credential(token: string, expiry: Instant)

  const NoCredential := Credential("", ZeroTime)

  /** The cached token may be sent without authenticating again. */
  predicate Reusable(c: Credential, now: Instant): (reusable: bool)
    // a service that never fetched a token always authenticates
    ensures reusable ==> c != NoCredential
    // a token is not reused once its (already shortened) expiry is reached
    ensures reusable ==> now < c.expiry
  {
    now < c.expiry && c.token != ""
  }

  /** What the authentication step did. */
  datatype AuthOutcome = Reused | Refreshed(cred: Credential) | AuthFailed(err: GigaError) | Panicked

  /** Asking the token endpoint and reading its answer. */
  function Refresh(now: Instant, resp: HttpResult<AuthBody>): (o: AuthOutcome)
    ensures o.Refreshed? || o.AuthFailed?
    ensures o.Refreshed? <==> resp.Response? && resp.status == 200 && resp.body.Some?
    // the new token expires one minute before the server says it does
    ensures o.Refreshed? ==>
      && o.cred.token == resp.body.value.accessToken
      && o.cred.expiry + RefreshMarginSeconds * NanosPerSecond == now + resp.body.value.expiresIn * NanosPerSecond
  {
    match resp
    case TransportError => AuthFailed(AuthTransport)
    case Response(status, body) =>
      if status != 200 then AuthFailed(AuthStatus(status))
      else if body.None? then AuthFailed(AuthUndecodable)
      else Refreshed(Credential(body.value.accessToken,
        now + (body.value.expiresIn - RefreshMarginSeconds) * NanosPerSecond))
  }

  /**
   * The authentication step as the code is written: before asking for a
   * token it logs the first 20 bytes of the API key, which stops the
   * program when the key is shorter.
   */
  function AuthStepAsWritten(apiKey: string, c: Credential, now: Instant, resp: HttpResult<AuthBody>): (o: AuthOutcome)
    ensures o.Panicked? <==> !Reusable(c, now) && Utf8.ByteLen(apiKey) < LoggedKeyBytes
  {
    if Reusable(c, now) then Reused
    else if Utf8.ByteLen(apiKey) < LoggedKeyBytes then Panicked
    else Refresh(now, resp)
  }

  /** The authentication step with the key logged only as far as it goes. */
  function AuthStep(c: Credential, now: Instant, resp: HttpResult<AuthBody>): (o: AuthOutcome)
    ensures !o.Panicked?
    ensures o.Reused? <==> Reusable(c, now)
    ensures !o.Reused? ==> o == Refresh(now, resp)
  {
    if Reusable(c, now) then Reused else Refresh(now, resp)
  }

  /** The short key of the service's own unit test stops the program on its first request. */
  lemma ShortKeyPanics(now: Instant, resp: HttpResult<AuthBody>)
    ensures KeyConfigured("test_key")
    ensures AuthStepAsWritten("test_key", NoCredential, now, resp) == Panicked
    ensures !AuthStep(NoCredential, now, resp).Panicked?
  {
    Utf8.EncodeAscii("test_key");
  }

  /** With a key of 20 bytes or more the code as written and the corrected step agree. */
  lemma LongKeyAgrees(apiKey: string, c: Credential, now: Instant, resp: HttpResult<AuthBody>)
    requires Utf8.ByteLen(apiKey) >= LoggedKeyBytes
    ensures AuthStepAsWritten(apiKey, c, now, resp) == AuthStep(c, now, resp)
  {
  }

  /** The credential kept after an authentication step. */
  function After(c: Credential, o: AuthOutcome): Credential
  {
    if o.Refreshed? then o.cred else c
  }

  /**
   * A token obtained at `now` with a lifetime above the margin is reused
   * for every later instant before its expiry, and never after it.
   */
  lemma TokenWindow(now: Instant, resp: HttpResult<AuthBody>, later: Instant)
    requires Refresh(now, resp).Refreshed?
    requires resp.body.value.accessToken != ""
    requires now <= later
    ensures Reusable(Refresh(now, resp).cred, later)
      <==> later < now + (resp.body.value.expiresIn - RefreshMarginSeconds) * NanosPerSecond
  {
  }

  /** A token whose lifetime is one minute or less is never reused: every request authenticates. */
  lemma ShortLivedTokenNeverReused(now: Instant, resp: HttpResult<AuthBody>, later: Instant)
    requires Refresh(now, resp).Refreshed?
    requires resp.body.value.expiresIn <= RefreshMarginSeconds
    requires now <= later
    ensures !Reusable(Refresh(now, resp).cred, later)
  {
    var e := resp.body.value.expiresIn;
    assert (e - RefreshMarginSeconds) * NanosPerSecond <= 0;
  }

  function ChatURL(baseURL: string): string
  {
    baseURL + "/api/v2/chat/completions"
  }

  /** The request body: the given messages with the fixed sampling options. */
  function BuildChatRequest(messages: seq<Message>): (r: ChatRequest)
    ensures r.messages == messages
    ensures r.model == "GigaChat:latest" && !r.stream && r.n == 1
  {
    ChatRequest("GigaChat:latest", messages, 0.7, 0.9, 1, false, 1000, 1.0)
  }

  /** Reading a chat response: the first choice's content, or why there is none. */
  function ChatResult(resp: HttpResult<ChatBody>): (r: Result<string, GigaError>)
    ensures r.Success? <==>
      resp.Response? && resp.status == 200 && resp.body.Some? && |resp.body.value.choices| > 0
    ensures r.Success? ==> r.value == resp.body.value.choices[0]
  {
    match resp
    case TransportError => Failure(ChatTransport)
    case Response(status, body) =>
      if status != 200 then Failure(ChatStatus(status))
      else if body.None? then Failure(ChatUndecodable)
      else if |body.value.choices| == 0 then Failure(NoChoices)
      else Success(body.value.choices[0])
  }

  /** One chat exchange: the answer, the credential afterwards and the chat call sent, if any. */
  datatype Exchange = Exchange(result: Result<string, GigaError>, cred: Credential, call: Option<ChatCall>)

  /** sendChatRequest: authenticate when needed, then one chat call with the current token. */
  function SendChat(baseURL: string, c: Credential, now: Instant, authResp: HttpResult<AuthBody>,
                    chat: ChatCall -> HttpResult<ChatBody>, messages: seq<Message>): (x: Exchange)
    // a chat call is made exactly when a usable token is at hand
    ensures x.call.Some? <==> !AuthStep(c, now, authResp).AuthFailed?
    ensures x.cred == After(c, AuthStep(c, now, authResp))
    ensures x.call.Some? ==>
      x.call.value == ChatCall(ChatURL(baseURL), "Bearer " + x.cred.token, BuildChatRequest(messages))
      && x.result == ChatResult(chat(x.call.value))
    ensures x.call.None? ==> x.result == Failure(AuthStep(c, now, authResp).err)
  {
    var o := AuthStep(c, now, authResp);
    if o.AuthFailed? then Exchange(Failure(o.err), c, None)
    else
      var cred := After(c, o);
      var call := ChatCall(ChatURL(baseURL), "Bearer " + cred.token, BuildChatRequest(messages));
      Exchange(ChatResult(chat(call)), cred, Some(call))
  }

  /** The reply to one advice request, with the exchange behind it. */
  datatype Answer = Answer(reply: Reply, exchange: Option<Exchange>)

  function Recommend(apiKey: string, baseURL: string, c: Credential, now: Instant,
                     authResp: HttpResult<AuthBody>, chat: ChatCall -> HttpResult<ChatBody>,
                     req: Request, user: User, fmt: Formatter): (a: Answer)
    // without a key nothing is sent and the fixed text is returned
    ensures !KeyConfigured(apiKey) <==> a.exchange.None?
    ensures !KeyConfigured(apiKey) ==> a.reply == NotConfigured
    // otherwise the request's messages are sent, and any failure gives the failure text
    ensures a.exchange.Some? ==>
      a.exchange.value == SendChat(baseURL, c, now, authResp, chat, Messages(req, user, fmt))
      && a.reply == (if a.exchange.value.result.Success? then Advice(a.exchange.value.result.value) else Failed)
  {
    if !KeyConfigured(apiKey) then Answer(NotConfigured, None)
    else
      var x := SendChat(baseURL, c, now, authResp, chat, Messages(req, user, fmt));
      Answer(if x.result.Success? then Advice(x.result.value) else Failed, Some(x))
  }

  /**
   * Advice is only ever the first choice the chat endpoint returned for
   * exactly this request's messages, sent with a bearer token.
   */
  lemma AdviceComesFromChat(apiKey: string, baseURL: string, c: Credential, now: Instant,
                            authResp: HttpResult<AuthBody>, chat: ChatCall -> HttpResult<ChatBody>,
                            req: Request, user: User, fmt: Formatter)
    requires Recommend(apiKey, baseURL, c, now, authResp, chat, req, user, fmt).reply.Advice?
    ensures exists call: ChatCall ::
      && call.request == BuildChatRequest(Messages(req, user, fmt))
      && ChatResult(chat(call)) == Success(Recommend(apiKey, baseURL, c, now, authResp, chat, req, user, fmt).reply.text)
  {
    var a := Recommend(apiKey, baseURL, c, now, authResp, chat, req, user, fmt);
    var call := a.exchange.value.call.value;
    assert ChatResult(chat(call)) == Success(a.reply.text);
  }

  /** While the cached token is valid, the token endpoint's answer plays no part. */
  lemma ReusedTokenIgnoresAuth(apiKey: string, baseURL: string, c: Credential, now: Instant,
                               auth1: HttpResult<AuthBody>, auth2: HttpResult<AuthBody>,
                               chat: ChatCall -> HttpResult<ChatBody>,
                               req: Request, user: User, fmt: Formatter)
    requires Reusable(c, now)
    ensures Recommend(apiKey, baseURL, c, now, auth1, chat, req, user, fmt)
         == Recommend(apiKey, baseURL, c, now, auth2, chat, req, user, fmt)
  {
  }

  /**
   * The GigaChat client. `authToken` and `tokenExp` are the cached
   * credential; `authRequests` and `chatCalls` record the traffic sent.
   */
  class GigaChatService {
    const apiKey: string
    const baseURL: string
    var authToken: string
    var tokenExp: Instant
    ghost var authRequests: nat
    ghost var chatCalls: seq<ChatCall>

    function Cred(): Credential
      reads this
    {
      Credential(authToken, tokenExp)
    }

    constructor(apiKey: string, baseURL: string)
      ensures this.apiKey == apiKey && this.baseURL == baseURL
      ensures Cred() == NoCredential && authRequests == 0 && chatCalls == []
    {
      this.apiKey := apiKey;
      this.baseURL := baseURL;
      authToken := "";
      tokenExp := ZeroTime;
      authRequests := 0;
      chatCalls := [];
    }

    /** Makes sure a usable token is cached, asking the token endpoint only when needed. */
    method Authenticate(now: Instant, resp: HttpResult<AuthBody>) returns (err: Option<GigaError>)
      modifies this
      ensures var o := AuthStep(old(Cred()), now, resp);
        err == (if o.AuthFailed? then Some(o.err) else None)
        && Cred() == After(old(Cred()), o)
        && authRequests == old(authRequests) + (if o.Reused? then 0 else 1)
      ensures chatCalls == old(chatCalls)
    {
      if now < tokenExp && authToken != "" {
        return None;
      }
      authRequests := authRequests + 1;
      match resp {
        case TransportError =>
          return Some(AuthTransport);
        case Response(status, body) =>
          if status != 200 {
            return Some(AuthStatus(status));
          }
          if body.None? {
            return Some(AuthUndecodable);
          }
          authToken := body.value.accessToken;
          tokenExp := now + (body.value.expiresIn - RefreshMarginSeconds) * NanosPerSecond;
          return None;
      }
    }

    /** sendChatRequest: one chat completion with the cached or a fresh token. */
    method SendChatRequest(messages: seq<Message>, now: Instant, authResp: HttpResult<AuthBody>,
                           chat: ChatCall -> HttpResult<ChatBody>)
      returns (content: Result<string, GigaError>)
      modifies this
      ensures var x := SendChat(baseURL, old(Cred()), now, authResp, chat, messages);
        content == x.result && Cred() == x.cred
        && chatCalls == old(chatCalls) + (if x.call.Some? then [x.call.value] else [])
      ensures authRequests == old(authRequests) + (if Reusable(old(Cred()), now) then 0 else 1)
    {
      var err := Authenticate(now, authResp);
      if err.Some? {
        return Failure(err.value);
      }
      var call := ChatCall(ChatURL(baseURL), "Bearer " + authToken, BuildChatRequest(messages));
      chatCalls := chatCalls + [call];
      content := ChatResult(chat(call));
    }

    /** The advice for one request (the three operations of the service). */
    method GetRecommendation(req: Request, user: User, fmt: Formatter, now: Instant,
                             authResp: HttpResult<AuthBody>, chat: ChatCall -> HttpResult<ChatBody>)
      returns (reply: Reply)
      modifies this
      ensures var a := Recommend(apiKey, baseURL, old(Cred()), now, authResp, chat, req, user, fmt);
        reply == a.reply
        && Cred() == (if a.exchange.Some? then a.exchange.value.cred else old(Cred()))
        && chatCalls == old(chatCalls)
             + (if a.exchange.Some? && a.exchange.value.call.Some? then [a.exchange.value.call.value] else [])
      ensures !KeyConfigured(apiKey) ==> unchanged(this)
    {
      if apiKey == "" || apiKey == PlaceholderKey {
        return NotConfigured;
      }
      var response := SendChatRequest(Messages(req, user, fmt), now, authResp, chat);
      if response.Failure? {
        return Failed;
      }
      return Advice(response.value);
    }
  }
}
