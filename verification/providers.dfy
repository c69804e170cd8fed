/**
 * The AI service interface: whichever provider the application chose,
 * answering the three advice operations. The outside world a request
 * meets (clock, formatting, the providers' endpoints) is an `Env`.
 */
module Providers {
  import opened Models
  import opened AIService
  import GigaChat
  import YandexGPT

  datatype AIProvider = Yandex(yandex: YandexGPT.YandexGPTService) | Giga(giga: GigaChat.GigaChatService)

  datatype Env = Env(
    now: Instant,
    fmt: Formatter,
    gigaAuth: HttpResult<GigaChat.AuthBody>,
    gigaChat: GigaChat.ChatCall -> HttpResult<GigaChat.ChatBody>,
    yandex: YandexGPT.YandexCall -> HttpResult<YandexGPT.YandexBody>)

  /** The objects a provider may update: the GigaChat client's token cache. */
  function Footprint(p: AIProvider): set<object>
  {
    if p.Giga? then {p.giga} else {}
  }

  /** The provider's cached credential (none for the stateless YandexGPT client). */
  function Cred(p: AIProvider): GigaChat.Credential
    reads Footprint(p)
  {
    if p.Giga? then p.giga.Cred() else GigaChat.NoCredential
  }

  /** What the provider answers to a request, given its cached credential. */
  function Answer(p: AIProvider, cred: GigaChat.Credential, req: Request, user: User, env: Env): Reply
  {
    match p
    case Yandex(svc) => YandexGPT.Recommendation(svc, req, user, env.fmt, env.yandex)
    case Giga(g) => GigaChat.Recommend(g.apiKey, g.baseURL, cred, env.now, env.gigaAuth, env.gigaChat, req, user, env.fmt).reply
  }

  /** One call of the interface. */
  method Ask(p: AIProvider, req: Request, user: User, env: Env) returns (reply: Reply)
    modifies Footprint(p)
    ensures reply == Answer(p, old(Cred(p)), req, user, env)
  {
    match p
    case Yandex(svc) =>
      reply := YandexGPT.Recommendation(svc, req, user, env.fmt, env.yandex);
    case Giga(g) =>
      reply := g.GetRecommendation(req, user, env.fmt, env.now, env.gigaAuth, env.gigaChat);
  }

  /** A provider without an API key answers every request with its not-configured text. */
  lemma UnconfiguredAnswers(p: AIProvider, cred: GigaChat.Credential, req: Request, user: User, env: Env)
    requires p.Giga? ==> !GigaChat.KeyConfigured(p.giga.apiKey)
    requires p.Yandex? ==> !YandexGPT.KeyConfigured(p.yandex.apiKey)
    ensures Answer(p, cred, req, user, env) == NotConfigured
  {
  }
}
