/**
 * The rate-limited AI gateway: it wraps the chosen provider and the usage
 * ledger. VIP users go straight to the provider; everybody else is counted
 * by the ledger first and reaches the provider only when admitted, the
 * answer then carrying a line about the requests left for the day.
 *
 * The three advice operations share one decision, `Decide`, which does not
 * depend on the topic; only the rendered texts (`GatedText`) do.
 */
module LimitedAI {
  import opened Wrappers
  import opened Models
  import opened Strconv
  import opened Seqs
  import opened AIService
  import opened AiUsage
  import opened Providers
  import GigaChat

  /** The exact names that bypass the daily limit (compared case-sensitively). */
  predicate IsVIPUser(u: User): (vip: bool)
    // two spellings of one first name, one last name, compared byte for byte
    ensures vip ==> u.lastName == "Dmitriev" && (u.firstName == "Sergio" || u.firstName == "Serjio")
    ensures u.lastName == "Dmitriev" && u.firstName in {"Sergio", "Serjio"} ==> vip
  {
    (u.firstName == "Sergio" && u.lastName == "Dmitriev")
    || (u.firstName == "Serjio" && u.lastName == "Dmitriev")
  }

  /** What the gateway answered, before it is rendered as text. */
  datatype Gated =
    | Unmetered(reply: Reply)            // a VIP user: the provider's answer as it is
    | LedgerUnavailable                  // the ledger failed: a fixed error text
    | LimitReached                       // the ledger refused: the daily-limit text
    | Metered(reply: Reply, remaining: int)  // admitted: the answer plus the remaining-count line

  /** The observable calls a gateway makes, in order. */
  datatype Event = LedgerCall(user: UserId, day: Day) | ProviderCall(req: Request)

  /** The gateway's answer for a user, given the ledger's verdict and what the provider would answer. */
  function Decide(vip: bool, v: Verdict, answer: Reply): (g: Gated)
    ensures vip <==> g.Unmetered?
    ensures g.Unmetered? ==> g.reply == answer
    ensures g.LedgerUnavailable? <==> !vip && v.err.Some?
    ensures g.LimitReached? <==> !vip && v.err.None? && !v.allowed
    ensures g.Metered? ==> g.reply == answer && g.remaining == v.remaining
  {
    if vip then Unmetered(answer)
    else if v.err.Some? then LedgerUnavailable
    else if !v.allowed then LimitReached
    else Metered(answer, v.remaining)
  }

  /** The event trace of one gateway call. */
  function Calls(vip: bool, v: Verdict, user: UserId, day: Day, req: Request): (es: seq<Event>)
    ensures vip ==> es == [ProviderCall(req)]
    ensures !vip ==> |es| >= 1 && es[0] == LedgerCall(user, day)
    ensures ProviderCall(req) in es <==> vip || v.allowed
    ensures |es| <= 2
  {
    if vip then [ProviderCall(req)]
    else if v.allowed then [LedgerCall(user, day), ProviderCall(req)]
    else [LedgerCall(user, day)]
  }

  const LedgerErrorLead := "Ошибка проверки лимита запросов. "
  const LimitLead := "🚫 Достигнут дневной лимит AI запросов ("
  const LimitMiddle := " в день). Лимит обновится завтра. "
  const RemainingLead := "\n\n📊 Осталось AI запросов на сегодня: "
  const LastRequestLine := "\n\n⚠️ Это был последний AI запрос на сегодня"

  /** The advice closing the ledger-error text. */
  function LedgerErrorAdvice(t: Topic): string
  {
    match t
    case Glucose => "Обратитесь к врачу для консультации."
    case Food => "Следите за углеводами в рационе."
    case General => "Обратитесь к лечащему врачу за консультацией."
  }

  /** The advice closing the daily-limit text. */
  function LimitAdvice(t: Topic): string
  {
    match t
    case Glucose => "Обратитесь к врачу для консультации."
    case Food => "Контролируйте количество углеводов в рационе."
    case General => "Рекомендую обратиться к лечащему врачу за консультацией."
  }

  function LimitText(t: Topic): string
  {
    LimitLead + FormatInt(DailyAIRequestLimit) + LimitMiddle + LimitAdvice(t)
  }

  /** The line appended to an admitted answer. */
  function RemainingLine(remaining: int): string
  {
    if remaining > 0 then RemainingLead + FormatInt(remaining) else LastRequestLine
  }

  /** The text the gateway returns for a topic. */
  function GatedText(t: Topic, g: Gated): string
  {
    match g
    case Unmetered(r) => ReplyText(t, r)
    case LedgerUnavailable => LedgerErrorLead + LedgerErrorAdvice(t)
    case LimitReached => LimitText(t)
    case Metered(r, n) => ReplyText(t, r) + RemainingLine(n)
  }

  lemma LimitInDecimal()
    ensures FormatInt(DailyAIRequestLimit) == "10"
  {
    assert FormatNat(10) == FormatNat(1) + [DigitChar(0)];
  }

  /** The daily-limit text states the limit in decimal. */
  lemma LimitTextNamesLimit(t: Topic)
    ensures IsSubstring(FormatInt(DailyAIRequestLimit), LimitText(t))
    ensures FormatInt(DailyAIRequestLimit) == "10"
  {
    LimitInDecimal();
    var d := FormatInt(DailyAIRequestLimit);
    InMiddle(LimitLead, d, LimitMiddle);
    OccursAppend(d, LimitLead + d + LimitMiddle, LimitAdvice(t));
  }

  /** An admitted answer begins with the provider's text, unchanged. */
  lemma MeteredKeepsAnswer(t: Topic, r: Reply, n: int)
    ensures |ReplyText(t, r)| <= |GatedText(t, Metered(r, n))|
    ensures GatedText(t, Metered(r, n))[..|ReplyText(t, r)|] == ReplyText(t, r)
  {
    var a, b := ReplyText(t, r), RemainingLine(n);
    assert GatedText(t, Metered(r, n)) == a + b;
    assert (a + b)[..|a|] == a;
  }

  /** Different remaining counts give different lines: the line reports the count exactly. */
  lemma RemainingLineInjective(a: int, b: int)
    requires a >= 0 && b >= 0
    requires RemainingLine(a) == RemainingLine(b)
    ensures a == b
  {
    if a > 0 && b > 0 {
      var k := |RemainingLead|;
      assert FormatInt(a) == RemainingLine(a)[k..] == RemainingLine(b)[k..] == FormatInt(b);
      FormatIntInjective(a, b);
    } else if a > 0 {
      CountLineIsNotLast(a);
    } else if b > 0 {
      CountLineIsNotLast(b);
    }
  }

  lemma CountLineIsNotLast(n: int)
    requires n > 0
    ensures RemainingLine(n) != LastRequestLine
  {
    assert RemainingLine(n)[2] == '📊';
    assert LastRequestLine[2] == '⚠';
  }

  /**
   * The gateway around one provider. The ledger is created together with
   * the gateway over the rows the usage table already holds.
   */
  class LimitedAIService {
    const provider: AIProvider
    const ledger: AIUsageService
    /** Every ledger and provider call this gateway has made. */
    ghost var trace: seq<Event>

    constructor(aiService: AIProvider, rows: map<Key, int>)
      requires Bounded(rows)
      ensures provider == aiService && fresh(ledger)
      ensures ledger.Valid() && ledger.table == rows
      ensures trace == []
    {
      provider := aiService;
      ledger := new AIUsageService(rows);
      trace := [];
    }

    /**
     * One advice request on `today`. The ledger is consulted (once) for
     * every non-VIP user, and the provider only after an admission.
     */
    method Recommend(user: User, req: Request, today: Day, faults: StoreFaults, env: Env)
      returns (g: Gated)
      requires ledger.Valid()
      modifies this, ledger, Footprint(provider)
      ensures ledger.Valid()
      ensures var (v, t) := Check(old(ledger.table), (user.id, today), faults);
        var answer := Answer(provider, old(Cred(provider)), req, user, env);
        var vip := IsVIPUser(user);
        && g == Decide(vip, v, answer)
        && trace == old(trace) + Calls(vip, v, user.id, today, req)
        && ledger.table == (if vip then old(ledger.table) else t)
        && (!vip && !v.allowed ==> Cred(provider) == old(Cred(provider)))
    {
      if IsVIPUser(user) {
        var reply := Ask(provider, req, user, env);
        trace := trace + [ProviderCall(req)];
        return Unmetered(reply);
      }
      var allowed, remaining, err := ledger.CheckAndIncrementUsage(user.id, today, faults);
      trace := trace + [LedgerCall(user.id, today)];
      if err.Some? {
        return LedgerUnavailable;
      }
      if !allowed {
        return LimitReached;
      }
      var reply := Ask(provider, req, user, env);
      trace := trace + [ProviderCall(req)];
      return Metered(reply, remaining);
    }

    /** The glucose-advice operation; its text is `GatedText(Glucose, g)`. */
    method GetGlucoseRecommendation(user: User, record: GlucoseRecord, today: Day, faults: StoreFaults, env: Env)
      returns (g: Gated)
      requires ledger.Valid()
      modifies this, ledger, Footprint(provider)
      ensures ledger.Valid()
      ensures var (v, t) := Check(old(ledger.table), (user.id, today), faults);
        var req := GlucoseAdvice(record);
        var vip := IsVIPUser(user);
        && g == Decide(vip, v, Answer(provider, old(Cred(provider)), req, user, env))
        && trace == old(trace) + Calls(vip, v, user.id, today, req)
        && ledger.table == (if vip then old(ledger.table) else t)
    {
      g := Recommend(user, GlucoseAdvice(record), today, faults, env);
    }

    /** The food-advice operation; its text is `GatedText(Food, g)`. */
    method GetFoodRecommendation(user: User, foodDescription: string, today: Day, faults: StoreFaults, env: Env)
      returns (g: Gated)
      requires ledger.Valid()
      modifies this, ledger, Footprint(provider)
      ensures ledger.Valid()
      ensures var (v, t) := Check(old(ledger.table), (user.id, today), faults);
        var req := FoodAdvice(foodDescription);
        var vip := IsVIPUser(user);
        && g == Decide(vip, v, Answer(provider, old(Cred(provider)), req, user, env))
        && trace == old(trace) + Calls(vip, v, user.id, today, req)
        && ledger.table == (if vip then old(ledger.table) else t)
    {
      g := Recommend(user, FoodAdvice(foodDescription), today, faults, env);
    }

    /** The general-question operation; its text is `GatedText(General, g)`. */
    method GetGeneralRecommendation(user: User, question: string, today: Day, faults: StoreFaults, env: Env)
      returns (g: Gated)
      requires ledger.Valid()
      modifies this, ledger, Footprint(provider)
      ensures ledger.Valid()
      ensures var (v, t) := Check(old(ledger.table), (user.id, today), faults);
        var req := GeneralAdvice(question);
        var vip := IsVIPUser(user);
        && g == Decide(vip, v, Answer(provider, old(Cred(provider)), req, user, env))
        && trace == old(trace) + Calls(vip, v, user.id, today, req)
        && ledger.table == (if vip then old(ledger.table) else t)
    {
      g := Recommend(user, GeneralAdvice(question), today, faults, env);
    }
  }

  /**
   * A non-VIP user with nine requests counted today: the tenth is answered
   * with the last-request line, the eleventh is refused without reaching
   * the provider.
   */
  lemma TenthAndEleventh(t: map<Key, int>, u: User, today: Day, answer: Reply)
    requires Bounded(t) && !IsVIPUser(u)
    requires CountOf(t, (u.id, today)) == 9
    ensures var (v10, t10) := Check(t, (u.id, today), NoFaults);
      var (v11, t11) := Check(t10, (u.id, today), NoFaults);
      && Decide(false, v10, answer) == Metered(answer, 0)
      && Decide(false, v11, answer) == LimitReached
      && ProviderCall(GeneralAdvice("")) !in Calls(false, v11, u.id, today, GeneralAdvice(""))
      && t11 == t10 && CountOf(t10, (u.id, today)) == DailyAIRequestLimit
  {
  }

  /** VIP users never touch the ledger, whatever their history. */
  lemma VIPNeverCounted(u: User, v: Verdict, day: Day, req: Request)
    requires IsVIPUser(u)
    ensures forall e :: e in Calls(true, v, u.id, day, req) ==> !e.LedgerCall?
  {
  }

  /** The VIP check is exact: other spellings and letter cases are counted. */
  lemma VIPIsCaseSensitive(u: User)
    requires u.firstName == "sergio" && u.lastName == "Dmitriev"
    ensures !IsVIPUser(u)
  {
    assert u.firstName[0] == 's';
  }
}
