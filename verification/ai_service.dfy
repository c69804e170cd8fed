/**
 * What every AI provider shares: the three kinds of advice request, the
 * chat messages sent for each, and the fixed texts shown instead of advice
 * when the provider is not configured or its request fails.
 */
module AIService {
  import opened Wrappers
  import opened Models
  import Strconv
  import opened Seqs

  /** The three operations of the AI service interface. */
  datatype Request =
    | GlucoseAdvice(record: GlucoseRecord)
    | FoodAdvice(description: string)
    | GeneralAdvice(question: string)

  /** Which of the three operations a request is for. */
  datatype Topic = Glucose | Food | General

  function TopicOf(req: Request): Topic
  {
    match req
    case GlucoseAdvice(_) => Glucose
    case FoodAdvice(_) => Food
    case GeneralAdvice(_) => General
  }

  datatype Message = Message(role: string, content: Content)

  /** An HTTP exchange as the client sees it; `body` is None when it does not decode. */
  datatype HttpResult<T> = Response(status: int, body: Option<T>) | TransportError

  /**
   * Value formatting the model takes as given: `fixed1` is "%.1f" and
   * `stamp` renders an instant as "15:04 02.01.2006" in local time.
   */
  datatype Formatter = Formatter(fixed1: real -> string, stamp: Instant -> string)

  /**
   * A message's content, held as the template and the values it is
   * printed from: an operation's fixed system prompt, or the patient's
   * turn for a request. `Words` prints it.
   */
  datatype Content = Instructions(topic: Topic) | PatientTurn(req: Request, user: User, fmt: Formatter)

  const Unknown := "не указан"
  const Unset := "не указана"
  const TypeSuffix := " типа"

  /** How the prompt names the patient's diabetes type. */
  function DiabetesTypeText(t: Option<int>): (r: string)
    ensures t.None? ==> r == Unknown
    ensures t.Some? ==> |r| > |TypeSuffix| && r[|r| - |TypeSuffix|..] == TypeSuffix
  {
    match t
    case None => Unknown
    case Some(n) => Strconv.FormatInt(n) + TypeSuffix
  }

  /** How the prompt names the patient's target glucose. */
  function TargetText(t: Option<real>, fmt: Formatter): (r: string)
    ensures t.None? ==> r == Unset
    ensures t.Some? ==> r == fmt.fixed1(t.value) + " ммоль/л"
  {
    match t
    case None => Unset
    case Some(x) => fmt.fixed1(x) + " ммоль/л"
  }

  /**
   * The diabetes type can be read back from the prompt: different stored
   * values (including "not set") never give the same text.
   */
  lemma DiabetesTypeTextInjective(a: Option<int>, b: Option<int>)
    requires DiabetesTypeText(a) == DiabetesTypeText(b)
    ensures a == b
  {
    var ra, rb := DiabetesTypeText(a), DiabetesTypeText(b);
    if a.Some? && b.Some? {
      var fa, fb := Strconv.FormatInt(a.value), Strconv.FormatInt(b.value);
      assert ra == fa + TypeSuffix && rb == fb + TypeSuffix;
      assert fa == ra[..|fa|] == rb[..|fb|] == fb;
      Strconv.FormatIntInjective(a.value, b.value);
    }
  }

  /** Every system prompt asks for the answer in Russian. */
  const InRussian := "Отвечай по-русски"

  /** The system prompt of each operation. */
  function SystemPrompt(t: Topic): (p: string)
    ensures IsSubstring(InRussian, p)
  {
    match t
    case Glucose =>
      var before := "Ты медицинский консультант-диабетолог. Дай короткую рекомендацию (до 150 слов) по показателю глюкозы крови. \nУчитывай: норма натощак 3.9-5.5 ммоль/л, через 2 часа после еды до 7.8 ммоль/л. \nНе ставь диагнозы, рекомендуй обращение к врачу при критических значениях.\n";
      var after := ", дружелюбно и профессионально.";
      InMiddle(before, InRussian, after);
      before + InRussian + after
    case Food =>
      var before := "Ты диетолог, специализирующийся на диабете. Дай короткую рекомендацию (до 150 слов) по питанию.\nОцени углеводность продуктов, влияние на сахар крови, дай советы по порциям или сочетанию с другими продуктами.\n";
      var after := ", дружелюбно и практично.";
      InMiddle(before, InRussian, after);
      before + InRussian + after
    case General =>
      var before := "Ты медицинский консультант по диабету. Отвечай на вопросы о диабете, питании, физической активности.\nДавай практические советы (до 200 слов). Не ставь диагнозы, при серьезных симптомах рекомендуй врача.\n";
      var after := ", понятно и дружелюбно.";
      InMiddle(before, InRussian, after);
      before + InRussian + after
  }

  /** The patient's own words, quoted, with the lead-in and the closing instruction. */
  function Quoted(lead: string, text: string, closing: string): string
  {
    lead + "\n" + ("\"" + text + "\"") + "\n\n" + closing
  }

  /** Whatever occurs in the lead-in occurs in the quoted turn. */
  lemma QuotedKeepsLead(part: string, lead: string, text: string, closing: string)
    requires IsSubstring(part, lead)
    ensures IsSubstring(part, Quoted(lead, text, closing))
  {
    var q := "\"" + text + "\"";
    OccursAppend(part, lead, "\n");
    OccursAppend(part, lead + "\n", q);
    OccursAppend(part, lead + "\n" + q, "\n\n");
    OccursAppend(part, lead + "\n" + q + "\n\n", closing);
  }

  /** The patient's turn; whatever the request, it states the diabetes type. */
  function UserPrompt(req: Request, user: User, fmt: Formatter): (p: string)
    ensures IsSubstring(DiabetesTypeText(user.diabetesType), p)
  {
    var diabetes := DiabetesTypeText(user.diabetesType);
    match req
    case GlucoseAdvice(r) =>
      var rest := "\n- Целевая глюкоза: " + TargetText(user.targetGlucose, fmt)
        + "\n- Текущий показатель: " + fmt.fixed1(r.value)
        + " ммоль/л\n- Время измерения: " + fmt.stamp(r.measuredAt)
        + "\n\nДай рекомендацию по этому показателю.";
      InMiddle("Пациент:\n- Диабет: ", diabetes, rest);
      "Пациент:\n- Диабет: " + diabetes + rest
    case FoodAdvice(d) =>
      var lead := "Пациент с диабетом " + diabetes + " описал прием пищи:";
      var closing := "Дай рекомендацию по этой еде для контроля сахара в крови.";
      InMiddle("Пациент с диабетом ", diabetes, " описал прием пищи:");
      QuotedKeepsLead(diabetes, lead, d, closing);
      Quoted(lead, d, closing)
    case GeneralAdvice(q) =>
      var lead := "Пациент с диабетом " + diabetes + " спрашивает:";
      var closing := "Дай полезный ответ по этому вопросу.";
      InMiddle("Пациент с диабетом ", diabetes, " спрашивает:");
      QuotedKeepsLead(diabetes, lead, q, closing);
      Quoted(lead, q, closing)
  }

  function Words(c: Content): string
  {
    match c
    case Instructions(t) => SystemPrompt(t)
    case PatientTurn(req, user, fmt) => UserPrompt(req, user, fmt)
  }

  /** The conversation sent for a request: the operation's system prompt, then the patient's turn. */
  function Messages(req: Request, user: User, fmt: Formatter): (m: seq<Message>)
    // the operation's instructions first, then the patient's turn for exactly this request
    ensures |m| == 2 && m[0].role == "system" && m[1].role == "user"
    ensures m[0].content == Instructions(TopicOf(req))
    ensures m[1].content.PatientTurn? && m[1].content.req == req && m[1].content.user == user
  {
    [Message("system", Instructions(TopicOf(req))), Message("user", PatientTurn(req, user, fmt))]
  }

  /** The food description or question reaches the model verbatim, in quotes. */
  lemma UserTextQuoted(req: Request, user: User, fmt: Formatter)
    requires !req.GlucoseAdvice?
    ensures IsSubstring("\"" + (if req.FoodAdvice? then req.description else req.question) + "\"",
                        UserPrompt(req, user, fmt))
  {
    var text := if req.FoodAdvice? then req.description else req.question;
    var diabetes := DiabetesTypeText(user.diabetesType);
    var lead := "Пациент с диабетом " + diabetes + (if req.FoodAdvice? then " описал прием пищи:" else " спрашивает:");
    var closing := if req.FoodAdvice? then "Дай рекомендацию по этой еде для контроля сахара в крови." else "Дай полезный ответ по этому вопросу.";
    var q := "\"" + text + "\"";
    assert UserPrompt(req, user, fmt) == Quoted(lead, text, closing);
    InMiddle(lead + "\n", q, "\n\n");
    OccursAppend(q, lead + "\n" + q + "\n\n", closing);
  }

  /** The reading's value and its measurement time both appear in the glucose prompt. */
  lemma GlucosePromptCarriesReading(r: GlucoseRecord, user: User, fmt: Formatter)
    ensures IsSubstring(fmt.fixed1(r.value), UserPrompt(GlucoseAdvice(r), user, fmt))
    ensures IsSubstring(fmt.stamp(r.measuredAt), UserPrompt(GlucoseAdvice(r), user, fmt))
  {
    var v, t := fmt.fixed1(r.value), fmt.stamp(r.measuredAt);
    var lead := "Пациент:\n- Диабет: " + DiabetesTypeText(user.diabetesType);
    var x := "\n- Целевая глюкоза: " + TargetText(user.targetGlucose, fmt) + "\n- Текущий показатель: ";
    var b := " ммоль/л\n- Время измерения: ";
    var c := "\n\nДай рекомендацию по этому показателю.";
    assert UserPrompt(GlucoseAdvice(r), user, fmt) == lead + (x + v + b + t + c);
    InMiddle(x, v, b);
    OccursAppend(v, x + v + b, t);
    OccursAppend(v, x + v + b + t, c);
    OccursPrepend(v, x + v + b + t + c, lead);
    InMiddle(x + v + b, t, c);
    OccursPrepend(t, x + v + b + t + c, lead);
  }

  /** Shown instead of advice when the provider has no API key. */
  function NotConfiguredText(t: Topic): string
  {
    match t
    case Glucose => "Рекомендации ИИ временно недоступны (не настроен API ключ). Обратитесь к врачу для консультации."
    case Food => "Рекомендации ИИ временно недоступны (не настроен API ключ). Следите за углеводами в рационе."
    case General => "Рекомендации ИИ временно недоступны (не настроен API ключ). Обратитесь к лечащему врачу за консультацией."
  }

  /** Shown instead of advice when the provider request fails. */
  function FailureText(t: Topic): string
  {
    match t
    case Glucose => "Не удалось получить рекомендацию от ИИ. Обратитесь к врачу для консультации."
    case Food => "Не удалось получить рекомендацию от ИИ. Контролируйте количество углеводов в рационе."
    case General => "Не удалось получить ответ от ИИ. Рекомендую обратиться к лечащему врачу за консультацией."
  }

  /**
   * What a provider answers: the model's own text, or which fixed text
   * stands in for it. `ReplyText` is the string the provider returns.
   */
  datatype Reply = Advice(text: string) | NotConfigured | Failed

  function ReplyText(t: Topic, r: Reply): string
  {
    match r
    case Advice(text) => text
    case NotConfigured => NotConfiguredText(t)
    case Failed => FailureText(t)
  }
}
