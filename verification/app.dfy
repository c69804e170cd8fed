/**
 * Application start-up, as far as the AI gateway goes: which provider is
 * chosen and how it is wrapped by the rate limiter.
 */
module App {
  import opened Models
  import opened AIService
  import opened AiUsage
  import opened Providers
  import opened LimitedAI
  import GigaChat
  import YandexGPT

  datatype Choice = UseYandex | UseGigaChat | UseStub

  /** YandexGPT first, then GigaChat, then the unconfigured GigaChat client as a stub. */
  function SelectProvider(yandexKey: string, gigaKey: string): (c: Choice)
    ensures c == UseYandex <==> YandexGPT.KeyConfigured(yandexKey)
    ensures c == UseGigaChat <==> !YandexGPT.KeyConfigured(yandexKey) && GigaChat.KeyConfigured(gigaKey)
    ensures c == UseStub <==> !YandexGPT.KeyConfigured(yandexKey) && !GigaChat.KeyConfigured(gigaKey)
  {
    if yandexKey != "" && yandexKey != YandexGPT.PlaceholderKey then UseYandex
    else if gigaKey != "" && gigaKey != GigaChat.PlaceholderKey then UseGigaChat
    else UseStub
  }

  /** The provider settings start-up reads. */
  datatype AIConfig = AIConfig(yandexKey: string, folderId: string, gigaKey: string, gigaBaseURL: string)

  /**
   * Builds both clients, picks one and wraps it, once, in the rate-limited
   * gateway over the existing usage rows.
   */
  method Wire(cfg: AIConfig, rows: map<Key, int>) returns (gateway: LimitedAIService)
    requires Bounded(rows)
    ensures fresh(gateway) && fresh(gateway.ledger)
    ensures gateway.ledger.Valid() && gateway.ledger.table == rows && gateway.trace == []
    ensures var c := SelectProvider(cfg.yandexKey, cfg.gigaKey);
      && (c == UseYandex ==> gateway.provider == Yandex(YandexGPT.YandexGPTService(cfg.yandexKey, cfg.folderId)))
      && (c != UseYandex ==>
            && gateway.provider.Giga?
            && fresh(gateway.provider.giga)
            && gateway.provider.giga.apiKey == cfg.gigaKey
            && gateway.provider.giga.baseURL == cfg.gigaBaseURL
            && Cred(gateway.provider) == GigaChat.NoCredential)
  {
    var yandex := YandexGPT.YandexGPTService(cfg.yandexKey, cfg.folderId);
    var giga := new GigaChat.GigaChatService(cfg.gigaKey, cfg.gigaBaseURL);
    var aiService: AIProvider;
    if cfg.yandexKey != "" && cfg.yandexKey != YandexGPT.PlaceholderKey {
      aiService := Yandex(yandex);
    } else if cfg.gigaKey != "" && cfg.gigaKey != GigaChat.PlaceholderKey {
      aiService := Giga(giga);
    } else {
      aiService := Giga(giga);
    }
    gateway := new LimitedAIService(aiService, rows);
  }

  /** With neither key set, the stub answers every request with the not-configured text. */
  lemma StubNeverAdvises(cfg: AIConfig, p: AIProvider, cred: GigaChat.Credential, req: Request, user: User, env: Env)
    requires SelectProvider(cfg.yandexKey, cfg.gigaKey) == UseStub
    requires p.Giga? && p.giga.apiKey == cfg.gigaKey
    ensures Answer(p, cred, req, user, env) == NotConfigured
  {
    UnconfiguredAnswers(p, cred, req, user, env);
  }

  /**
   * Even the stub is metered: an admitted non-VIP request spends one unit of
   * the daily quota and gets the not-configured text plus the remaining line.
   */
  lemma StubStillSpendsQuota(cfg: AIConfig, p: AIProvider, cred: GigaChat.Credential, req: Request,
                             user: User, env: Env, t: map<Key, int>, today: Day)
    requires SelectProvider(cfg.yandexKey, cfg.gigaKey) == UseStub
    requires p.Giga? && p.giga.apiKey == cfg.gigaKey
    requires !IsVIPUser(user) && Bounded(t) && CountOf(t, (user.id, today)) < DailyAIRequestLimit
    ensures var (v, t2) := Check(t, (user.id, today), NoFaults);
      && Decide(false, v, Answer(p, cred, req, user, env)) == Metered(NotConfigured, v.remaining)
      && CountOf(t2, (user.id, today)) == CountOf(t, (user.id, today)) + 1
  {
    StubNeverAdvises(cfg, p, cred, req, user, env);
  }
}
