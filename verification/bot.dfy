/**
 * The message classification of the Telegram bot. Go's `len` and slicing
 * work on bytes, so texts here are byte sequences; the literals of the
 * source enter through `Encode`.
 */
module Bot {
  import opened Wrappers
  import opened Utf8
  import opened Seqs
  import opened Strconv

  type Bytes = seq<byte>

  // ---------------------------------------------------------------------
  // Substring search

  /** Whether `substr` occurs at an offset strictly after 0 (and at most |text| - |substr|). */
  method ContainsMiddle(text: Bytes, substr: Bytes) returns (found: bool)
    ensures found <==> exists i | 1 <= i <= |text| - |substr| :: OccursAt(text, substr, i)
  {
    var i := 1;
    while i <= |text| - |substr|
      invariant 1 <= i
      invariant i <= |text| - |substr| + 1 || i == 1
      invariant forall j | 1 <= j < i :: !OccursAt(text, substr, j)
    {
      if text[i..i + |substr|] == substr {
        assert OccursAt(text, substr, i);
        return true;
      }
      i := i + 1;
    }
    return false;
  }

  /**
   * The bot's own substring test: the whole text, then the prefix, the
   * suffix and the middle offsets. Together they cover every offset.
   */
  method Contains(text: Bytes, substr: Bytes) returns (found: bool)
    ensures found <==> IsSubstring(substr, text)
  {
    if |text| < |substr| {
      return false;
    }
    if text == substr {
      assert OccursAt(text, substr, 0);
      return true;
    }
    if |text| == |substr| {
      return false;
    }
    if text[..|substr|] == substr {
      assert OccursAt(text, substr, 0);
      return true;
    }
    if text[|text| - |substr|..] == substr {
      assert OccursAt(text, substr, |text| - |substr|);
      return true;
    }
    found := ContainsMiddle(text, substr);
    assert !OccursAt(text, substr, 0);
  }

  // ---------------------------------------------------------------------
  // Food detection

  /** The UTF-8 bytes of the food keywords, in the order they are tried. */
  const FoodKeywords: seq<Bytes> := [
    [0xD1, 0x81, 0xD1, 0x8A, 0xD0, 0xB5, 0xD0, 0xBB],  // съел
    [0xD0, 0xBF, 0xD0, 0xBE, 0xD0, 0xB5, 0xD0, 0xBB],  // поел
    [0xD0, 0xB5, 0xD0, 0xBB],  // ел
    [0xD0, 0xB7, 0xD0, 0xB0, 0xD0, 0xB2, 0xD1, 0x82, 0xD1, 0x80, 0xD0, 0xB0, 0xD0, 0xBA],  // завтрак
    [0xD0, 0xBE, 0xD0, 0xB1, 0xD0, 0xB5, 0xD0, 0xB4],  // обед
    [0xD1, 0x83, 0xD0, 0xB6, 0xD0, 0xB8, 0xD0, 0xBD],  // ужин
    [0xD0, 0xBF, 0xD0, 0xB5, 0xD1, 0x80, 0xD0, 0xB5, 0xD0, 0xBA, 0xD1, 0x83, 0xD1, 0x81],  // перекус
    [0xD0, 0xBA, 0xD0, 0xB0, 0xD1, 0x88, 0xD0, 0xB0],  // каша
    [0xD1, 0x85, 0xD0, 0xBB, 0xD0, 0xB5, 0xD0, 0xB1],  // хлеб
    [0xD0, 0xBC, 0xD1, 0x8F, 0xD1, 0x81, 0xD0, 0xBE],  // мясо
    [0xD1, 0x80, 0xD1, 0x8B, 0xD0, 0xB1, 0xD0, 0xB0],  // рыба
    [0xD0, 0xBE, 0xD0, 0xB2, 0xD0, 0xBE, 0xD1, 0x89, 0xD0, 0xB8],  // овощи
    [0xD1, 0x84, 0xD1, 0x80, 0xD1, 0x83, 0xD0, 0xBA, 0xD1, 0x82, 0xD1, 0x8B],  // фрукты
    [0xD0, 0xBC, 0xD0, 0xBE, 0xD0, 0xBB, 0xD0, 0xBE, 0xD0, 0xBA, 0xD0, 0xBE],  // молоко
    [0xD0, 0xBA, 0xD0, 0xBE, 0xD1, 0x84, 0xD0, 0xB5],  // кофе
    [0xD1, 0x87, 0xD0, 0xB0, 0xD0, 0xB9]  // чай
  ]

  /** Some food keyword occurs in the text. */
  predicate IsFood(text: Bytes)
  {
    exists k | 0 <= k < |FoodKeywords| :: IsSubstring(FoodKeywords[k], text)
  }

  /** isFoodDescription: the keywords are tried in order, the first hit answers. */
  method IsFoodDescription(text: Bytes) returns (food: bool)
    ensures food <==> IsFood(text)
  {
    var k := 0;
    while k < |FoodKeywords|
      invariant 0 <= k <= |FoodKeywords|
      invariant forall j | 0 <= j < k :: !IsSubstring(FoodKeywords[j], text)
    {
      var hit := Contains(text, FoodKeywords[k]);
      if hit {
        return true;
      }
      k := k + 1;
    }
    return false;
  }

  /** A part of an occurring sequence occurs as well. */
  lemma OccursInside(text: Bytes, whole: Bytes, at: nat, part: Bytes)
    requires IsSubstring(whole, text)
    requires at + |part| <= |whole| && whole[at..at + |part|] == part
    ensures IsSubstring(part, text)
  {
    var i :| 0 <= i <= |text| && OccursAt(text, whole, i);
    forall j | 0 <= j < |part|
      ensures text[i + at + j] == part[j]
    {
      assert text[i..i + |whole|][at + j] == whole[at + j];
    }
    assert OccursAt(text, part, i + at);
  }

  /**
   * "ел" is a keyword of its own and ends "съел" and "поел", so those two
   * keywords never decide anything: the list without them classifies every
   * text the same.
   */
  lemma ElSubsumesLongerKeywords(text: Bytes)
    ensures IsFood(text) <==>
      exists k | 2 <= k < |FoodKeywords| :: IsSubstring(FoodKeywords[k], text)
  {
    var el := FoodKeywords[2];
    assert FoodKeywords[0] == FoodKeywords[0][..4] + el;
    assert FoodKeywords[1] == FoodKeywords[1][..4] + el;
    if IsSubstring(FoodKeywords[0], text) {
      OccursInside(text, FoodKeywords[0], 4, el);
    }
    if IsSubstring(FoodKeywords[1], text) {
      OccursInside(text, FoodKeywords[1], 4, el);
    }
  }

  /** Text made only of ASCII bytes (digits, Latin letters, punctuation) is never food. */
  lemma AsciiIsNotFood(text: Bytes)
    requires forall i :: 0 <= i < |text| ==> text[i] < 0x80
    ensures !IsFood(text)
  {
    forall k, i | 0 <= k < |FoodKeywords| && 0 <= i <= |text|
      ensures !OccursAt(text, FoodKeywords[k], i)
    {
      var w := FoodKeywords[k];
      assert w[0] >= 0xC0;
      if i + |w| <= |text| {
        assert text[i..i + |w|][0] == text[i];
      }
    }
  }

  /** "съел овсянку" (I ate oatmeal). */
  const AteOatmeal: Bytes := FoodKeywords[0] + [0x20, 0xD0, 0xBE, 0xD0, 0xB2, 0xD1, 0x81, 0xD1, 0x8F, 0xD0, 0xBD, 0xD0, 0xBA, 0xD1, 0x83]
  /** "выпил кофе" (I drank coffee). */
  const DrankCoffee: Bytes := [0xD0, 0xB2, 0xD1, 0x8B, 0xD0, 0xBF, 0xD0, 0xB8, 0xD0, 0xBB, 0x20] + FoodKeywords[14]
  /** "как дела?" (how are you?): "д", then "ел", then "а?". */
  const HowAreYou: Bytes := [0xD0, 0xBA, 0xD0, 0xB0, 0xD0, 0xBA, 0x20, 0xD0, 0xB4] + FoodKeywords[2] + [0xD0, 0xB0, 0x3F]

  /** A text with a keyword inside it is food. */
  lemma FoundIn(before: Bytes, k: nat, after: Bytes)
    requires k < |FoodKeywords|
    ensures IsFood(before + FoodKeywords[k] + after)
  {
    var text := before + FoodKeywords[k] + after;
    assert text[|before|..|before| + |FoodKeywords[k]|] == FoodKeywords[k];
    assert OccursAt(text, FoodKeywords[k], |before|);
  }

  /**
   * The classification the keyword list gives some everyday phrases;
   * "как дела?" counts as food because "дела" contains "ел".
   */
  lemma FoodExamples()
    ensures IsFood(AteOatmeal) && IsFood(DrankCoffee) && IsFood(HowAreYou)
    ensures !IsFood(Ascii("123"))
    ensures !IsFood([])
  {
    FoundIn([], 0, AteOatmeal[|FoodKeywords[0]|..]);
    assert [] + FoodKeywords[0] + AteOatmeal[|FoodKeywords[0]|..] == AteOatmeal;
    FoundIn(DrankCoffee[..11], 14, []);
    assert DrankCoffee[..11] + FoodKeywords[14] + [] == DrankCoffee;
    FoundIn(HowAreYou[..9], 2, HowAreYou[13..]);
    assert HowAreYou[..9] + FoodKeywords[2] + HowAreYou[13..] == HowAreYou;
    AsciiIsNotFood(Ascii("123"));
    AsciiIsNotFood([]);
  }

  // ---------------------------------------------------------------------
  // Keyboard labels

  /** The UTF-8 bytes of the reply-keyboard labels. */
  const KeyboardButtons: seq<Bytes> := [
    [0xF0, 0x9F, 0xA9, 0xB8, 0x20, 0xD0, 0x97, 0xD0, 0xB0, 0xD0, 0xBF, 0xD0, 0xB8, 0xD1, 0x81, 0xD0, 0xB0, 0xD1, 0x82, 0xD1, 0x8C, 0x20, 0xD0, 0xB3, 0xD0, 0xBB, 0xD1, 0x8E, 0xD0, 0xBA, 0xD0, 0xBE, 0xD0, 0xB7, 0xD1, 0x83],  // 🩸 Записать глюкозу
    [0xF0, 0x9F, 0x8D, 0xBD, 0x20, 0xD0, 0x97, 0xD0, 0xB0, 0xD0, 0xBF, 0xD0, 0xB8, 0xD1, 0x81, 0xD0, 0xB0, 0xD1, 0x82, 0xD1, 0x8C, 0x20, 0xD0, 0xB5, 0xD0, 0xB4, 0xD1, 0x83],  // 🍽 Записать еду
    [0xF0, 0x9F, 0x93, 0x8A, 0x20, 0xD0, 0xA1, 0xD1, 0x82, 0xD0, 0xB0, 0xD1, 0x82, 0xD0, 0xB8, 0xD1, 0x81, 0xD1, 0x82, 0xD0, 0xB8, 0xD0, 0xBA, 0xD0, 0xB0],  // 📊 Статистика
    [0xF0, 0x9F, 0x93, 0xB1, 0x20, 0xD0, 0x92, 0xD0, 0xB5, 0xD0, 0xB1, 0x2D, 0xD0, 0xBF, 0xD1, 0x80, 0xD0, 0xB8, 0xD0, 0xBB, 0xD0, 0xBE, 0xD0, 0xB6, 0xD0, 0xB5, 0xD0, 0xBD, 0xD0, 0xB8, 0xD0, 0xB5],  // 📱 Веб-приложение
    [0xE2, 0x9D, 0x93, 0x20, 0xD0, 0x9F, 0xD0, 0xBE, 0xD0, 0xBC, 0xD0, 0xBE, 0xD1, 0x89, 0xD1, 0x8C],  // ❓ Помощь
    [0xF0, 0x9F, 0x94, 0x84, 0x20, 0xD0, 0x93, 0xD0, 0xBB, 0xD0, 0xB0, 0xD0, 0xB2, 0xD0, 0xBD, 0xD0, 0xBE, 0xD0, 0xB5, 0x20, 0xD0, 0xBC, 0xD0, 0xB5, 0xD0, 0xBD, 0xD1, 0x8E]  // 🔄 Главное меню
  ]

  predicate IsButtonLabel(text: Bytes)
  {
    exists k | 0 <= k < |KeyboardButtons| :: text == KeyboardButtons[k]
  }

  /** isKeyboardButton: exact comparison with each label of the reply keyboard. */
  method IsKeyboardButton(text: Bytes) returns (button: bool)
    ensures button <==> IsButtonLabel(text)
  {
    var k := 0;
    while k < |KeyboardButtons|
      invariant 0 <= k <= |KeyboardButtons|
      invariant forall j | 0 <= j < k :: text != KeyboardButtons[j]
    {
      if text == KeyboardButtons[k] {
        return true;
      }
      k := k + 1;
    }
    return false;
  }

  // ---------------------------------------------------------------------
  // Routing of an incoming message

  /** The result of strconv.ParseFloat: a finite number, NaN or an infinity. */
  datatype Float64 = Finite(value: real) | NaN | Inf(negative: bool)

  /** IEEE-754 `<` against a number: false whenever NaN is involved. */
  predicate Below(v: Float64, bound: real)
  {
    match v
    case Finite(x) => x < bound
    case NaN => false
    case Inf(negative) => negative
  }

  /** IEEE-754 `>` against a number: false whenever NaN is involved. */
  predicate Above(v: Float64, bound: real)
  {
    match v
    case Finite(x) => x > bound
    case NaN => false
    case Inf(negative) => !negative
  }

  /** The range check of handleGlucoseInput as written: reject below 1.0 or above 30.0. */
  predicate ReadingRejectedAsWritten(v: Float64): (rejected: bool)
    ensures v.Finite? ==> (rejected <==> !(1.0 <= v.value <= 30.0))
    ensures v.Inf? ==> rejected
    ensures v == NaN ==> !rejected
  {
    Below(v, 1.0) || Above(v, 30.0)
  }

  /** The intended range check: a number between 1.0 and 30.0 mmol/L. */
  predicate ReadingAccepted(v: Float64): (accepted: bool)
    // never accepts what the written check rejects
    ensures accepted ==> !ReadingRejectedAsWritten(v)
  {
    v.Finite? && 1.0 <= v.value <= 30.0
  }

  /** "NaN" parses as a float and passes the written check, though it is no reading. */
  lemma NaNPassesWrittenCheck()
    ensures !ReadingRejectedAsWritten(NaN)
    ensures !ReadingAccepted(NaN)
  {
  }

  /** Apart from NaN the written check and the intended one agree. */
  lemma ReadingChecksAgree(v: Float64)
    requires v != NaN
    ensures ReadingAccepted(v) <==> !ReadingRejectedAsWritten(v)
  {
  }

  /** What the bot does with a message. */
  datatype Action =
    | Dropped                // the user could not be fetched or created: nothing is routed
    | RunCommand
    | RejectReading
    | SaveReading(value: real)
    | PressButton
    | NotUnderstood
    | LogFood
    | AskQuestion

  /** The routing of handleMessage, with handleGlucoseInput and handleTextMessage. */
  function Route(text: Bytes, isCommand: bool, parsed: Option<Float64>): (a: Action)
    ensures a != Dropped
    // a command wins over everything; a parsed number is always a reading
    ensures a == RunCommand <==> isCommand
    ensures !isCommand ==> (parsed.Some? <==> a == RejectReading || a.SaveReading?)
    ensures a.SaveReading? ==> parsed == Some(Finite(a.value))
    // a keyboard label, then the 3-byte cut, come before the food test
    ensures a == PressButton ==> IsButtonLabel(text)
    ensures a == NotUnderstood <==> !isCommand && parsed.None? && !IsButtonLabel(text) && |text| < 3
  {
    if isCommand then RunCommand
    else if parsed.Some? then
      (if ReadingAccepted(parsed.value) then SaveReading(parsed.value.value) else RejectReading)
    else if IsButtonLabel(text) then PressButton
    else if |text| < 3 then NotUnderstood
    else if IsFood(text) then LogFood
    else AskQuestion
  }

  /**
   * handleMessage: `userFails` says GetOrCreateUser failed, which ends the
   * handler before any routing; `parsed` is strconv.ParseFloat's answer for
   * the text (None on a parse error).
   */
  method Classify(userFails: bool, text: Bytes, isCommand: bool, parsed: Option<Float64>) returns (a: Action)
    ensures a == Dropped <==> userFails
    ensures !userFails ==> a == Route(text, isCommand, parsed)
  {
    if userFails {
      return Dropped;
    }
    if isCommand {
      return RunCommand;
    }
    if parsed.Some? {
      if !ReadingAccepted(parsed.value) {
        return RejectReading;
      }
      return SaveReading(parsed.value.value);
    }
    var button := IsKeyboardButton(text);
    if button {
      return PressButton;
    }
    if |text| < 3 {
      return NotUnderstood;
    }
    var food := IsFoodDescription(text);
    if food {
      return LogFood;
    }
    return AskQuestion;
  }

  /**
   * A number is never taken for food or a question; only an accepted
   * reading is stored, and it lies within 1.0..30.0.
   */
  lemma NumbersAreReadings(text: Bytes, parsed: Float64)
    ensures Route(text, false, Some(parsed)) in {RejectReading, SaveReading(if parsed.Finite? then parsed.value else 0.0)}
    ensures Route(text, false, Some(parsed)).SaveReading? <==> ReadingAccepted(parsed)
    ensures Route(text, false, Some(parsed)).SaveReading? ==>
      1.0 <= Route(text, false, Some(parsed)).value <= 30.0
  {
  }

  /** Only free text of at least 3 bytes reaches the food log or the AI. */
  lemma ShortTextIsNotSent(text: Bytes, isCommand: bool, parsed: Option<Float64>)
    requires Route(text, isCommand, parsed) in {LogFood, AskQuestion}
    ensures !isCommand && parsed.None? && !IsButtonLabel(text) && |text| >= 3
    ensures Route(text, isCommand, parsed) == LogFood <==> IsFood(text)
  {
  }

  // ---------------------------------------------------------------------
  // Inline-keyboard callbacks

  datatype Callback = FoodType(arg: Bytes) | GlucosePeriod(arg: Bytes) | StatsPeriod(arg: Bytes) | Ignored

  /** Whether `data` begins with `prefix`. */
  predicate StartsWith(data: Bytes, prefix: Bytes)
  {
    |data| >= |prefix| && data[..|prefix|] == prefix
  }

  /** The argument after a prefix and one separator byte; None when Go's slice would panic. */
  function After(data: Bytes, prefix: Bytes): Option<Bytes>
  {
    if |data| >= |prefix| + 1 then Some(data[|prefix| + 1..]) else None
  }

  /**
   * handleCallbackQuery's dispatch as written: the prefix test allows data
   * that is exactly the prefix, and then `data[len(prefix)+1:]` panics (None).
   */
  function CallbackAsWritten(data: Bytes): (cb: Option<Callback>)
    ensures cb.None? <==> data == Ascii("food") || data == Ascii("glucose") || data == Ascii("stats")
  {
    assert Ascii("glucose")[0] != Ascii("food")[0];
    assert Ascii("stats")[0] != Ascii("food")[0] && Ascii("stats")[0] != Ascii("glucose")[0];
    if StartsWith(data, Ascii("food")) then
      (match After(data, Ascii("food")) case None => None case Some(arg) => Some(FoodType(arg)))
    else if StartsWith(data, Ascii("glucose")) then
      (match After(data, Ascii("glucose")) case None => None case Some(arg) => Some(GlucosePeriod(arg)))
    else if StartsWith(data, Ascii("stats")) then
      (match After(data, Ascii("stats")) case None => None case Some(arg) => Some(StatsPeriod(arg)))
    else Some(Ignored)
  }

  /** Callback data that is exactly a prefix makes the handler panic. */
  lemma BarePrefixPanics()
    ensures CallbackAsWritten(Ascii("food")) == None
    ensures CallbackAsWritten(Ascii("glucose")) == None
    ensures CallbackAsWritten(Ascii("stats")) == None
  {
    assert Ascii("glucose")[0] != Ascii("food")[0];
    assert Ascii("stats")[0] != Ascii("food")[0] && Ascii("stats")[0] != Ascii("glucose")[0];
  }

  /**
   * The intended dispatch: a prefix selects its handler only when a
   * separator follows it, and the handler gets the bytes after the separator.
   */
  function RouteCallback(data: Bytes): (cb: Callback)
    ensures cb.FoodType? ==> StartsWith(data, Ascii("food")) && |data| > 4 && cb.arg == data[5..]
    ensures cb.GlucosePeriod? ==> StartsWith(data, Ascii("glucose")) && |data| > 7 && cb.arg == data[8..]
    ensures cb.StatsPeriod? ==> StartsWith(data, Ascii("stats")) && |data| > 5 && cb.arg == data[6..]
    ensures cb.Ignored? <==>
      && !(StartsWith(data, Ascii("food")) && |data| > 4)
      && !(StartsWith(data, Ascii("glucose")) && |data| > 7)
      && !(StartsWith(data, Ascii("stats")) && |data| > 5)
  {
    if StartsWith(data, Ascii("food")) && |data| > 4 then FoodType(data[5..])
    else if StartsWith(data, Ascii("glucose")) && |data| > 7 then GlucosePeriod(data[8..])
    else if StartsWith(data, Ascii("stats")) && |data| > 5 then StatsPeriod(data[6..])
    else Ignored
  }

  /** Wherever the written dispatch does not panic, the intended one agrees with it. */
  lemma CallbackAgreesWhenNoPanic(data: Bytes)
    requires CallbackAsWritten(data).Some?
    ensures CallbackAsWritten(data).value == RouteCallback(data)
  {
    if StartsWith(data, Ascii("food")) {
      assert data[0] == Ascii("food")[0];
    }
  }

  /**
   * handleCallbackQuery as written: when the user cannot be fetched
   * (`lookupFails`) nothing is dispatched; otherwise the written dispatch.
   */
  function CallbackQueryAsWritten(data: Bytes, lookupFails: bool): (cb: Option<Callback>)
    ensures lookupFails ==> cb == Some(Ignored)
    ensures cb.None? <==> !lookupFails && (data == Ascii("food") || data == Ascii("glucose") || data == Ascii("stats"))
  {
    if lookupFails then Some(Ignored) else CallbackAsWritten(data)
  }

  /** handleCallbackQuery with the intended dispatch. */
  function CallbackQuery(data: Bytes, lookupFails: bool): (cb: Callback)
    ensures lookupFails ==> cb.Ignored?
    ensures !cb.Ignored? ==> cb == RouteCallback(data)
  {
    if lookupFails then Ignored else RouteCallback(data)
  }

  /** The bare-prefix panic is reachable only for a user the store returns. */
  lemma BarePrefixNeedsStoredUser(lookupFails: bool)
    ensures CallbackQueryAsWritten(Ascii("food"), lookupFails).None? <==> !lookupFails
    ensures CallbackQueryAsWritten(Ascii("stats"), lookupFails).None? <==> !lookupFails
  {
    BarePrefixPanics();
  }

  /** Wherever the written handler does not panic, the intended one agrees with it. */
  lemma CallbackQueryAgrees(data: Bytes, lookupFails: bool)
    requires CallbackQueryAsWritten(data, lookupFails).Some?
    ensures CallbackQueryAsWritten(data, lookupFails).value == CallbackQuery(data, lookupFails)
  {
    if !lookupFails {
      CallbackAgreesWhenNoPanic(data);
    }
  }

  /** The label of a meal type; empty for an unknown type. */
  function FoodTypeLabel(arg: Bytes): (name: string)
    ensures name == "" <==>
      arg !in {Ascii("breakfast"), Ascii("lunch"), Ascii("dinner"), Ascii("snack")}
  {
    if arg == Ascii("breakfast") then "завтрак"
    else if arg == Ascii("lunch") then "обед"
    else if arg == Ascii("dinner") then "ужин"
    else if arg == Ascii("snack") then "перекус"
    else ""
  }

  const GeneralMeasurement := "общее измерение"

  /** The label of a measurement period; the general one for an unknown period. */
  function GlucosePeriodLabel(arg: Bytes): (name: string)
    ensures name == GeneralMeasurement <==>
      arg !in {Ascii("before"), Ascii("after"), Ascii("morning"), Ascii("night")}
  {
    if arg == Ascii("before") then "до еды"
    else if arg == Ascii("after") then "после еды"
    else if arg == Ascii("morning") then "утром натощак"
    else if arg == Ascii("night") then "перед сном"
    else GeneralMeasurement
  }

  /** The inline buttons of the food menu reach a named meal type. */
  lemma FoodButtonsHaveLabels()
    ensures FoodTypeLabel(RouteCallback(Ascii("food_breakfast")).arg) == "завтрак"
    ensures FoodTypeLabel(RouteCallback(Ascii("food_snack")).arg) == "перекус"
  {
    assert RouteCallback(Ascii("food_breakfast")) == FoodType(Ascii("breakfast"));
    assert RouteCallback(Ascii("food_snack")) == FoodType(Ascii("snack"));
    assert Ascii("snack")[0] != Ascii("lunch")[0];
  }

  // ---------------------------------------------------------------------
  // Statistics selection

  /** The aggregate the glucose service answers for a period. */
  datatype GlucoseStats = GlucoseStats(count: int, average: real, min: real, max: real)

  /** The verdict on the period's average. */
  datatype Control = Excellent | Fair | Attention

  function ControlFor(average: real): (c: Control)
    ensures c == Excellent <==> average <= 5.5
    ensures c == Fair <==> 5.5 < average <= 7.0
    ensures c == Attention <==> average > 7.0
  {
    if average <= 5.5 then Excellent
    else if average <= 7.0 then Fair
    else Attention
  }

  /** How the period is named in the statistics message. */
  function StatsPeriodLabel(days: int): (name: string)
    ensures days !in {1, 7, 30, 90} ==> name == "за " + FormatInt(days) + " дней"
  {
    if days == 1 then "сегодня"
    else if days == 7 then "за неделю"
    else if days == 30 then "за месяц"
    else if days == 90 then "за 3 месяца"
    else "за " + FormatInt(days) + " дней"
  }

  datatype StatsReply =
    | BadPeriod
    | StatsUnavailable
    | NoData(days: int)
    | Summary(periodName: string, control: Control, stats: GlucoseStats)

  /**
   * handleStatsSelection: `lookup` is the glucose service's answer for a
   * number of days (None when the query fails).
   */
  function StatsSelection(period: Bytes, lookup: int -> Option<GlucoseStats>): (r: StatsReply)
    ensures r == BadPeriod <==> Atoi(period).None?
    ensures r == StatsUnavailable <==> Atoi(period).Some? && lookup(Atoi(period).value).None?
    ensures r.NoData? ==> r.days == Atoi(period).value && lookup(r.days).value.count == 0
    ensures r.Summary? ==>
      var days := Atoi(period).value;
      && lookup(days) == Some(r.stats) && r.stats.count != 0
      && r.periodName == StatsPeriodLabel(days) && r.control == ControlFor(r.stats.average)
  {
    match Atoi(period)
    case None => BadPeriod
    case Some(days) =>
      match lookup(days)
      case None => StatsUnavailable
      case Some(stats) =>
        if stats.count == 0 then NoData(days)
        else Summary(StatsPeriodLabel(days), ControlFor(stats.average), stats)
  }

  /** A stats button "stats_<n>" hands exactly the digits of n to the statistics handler. */
  lemma StatsButtonCarriesDays(n: nat)
    ensures RouteCallback(Ascii("stats_") + Encode(FormatInt(n))) == StatsPeriod(Encode(FormatInt(n)))
  {
    var d := Ascii("stats_") + Encode(FormatInt(n));
    assert d[..5] == Ascii("stats");
    assert d[0] != Ascii("food")[0] && d[0] != Ascii("glucose")[0];
    assert d[6..] == Encode(FormatInt(n));
  }

  /** ... and the handler reads the same n back and summarises exactly n days. */
  lemma StatsButtonAsksForItsDays(n: nat, lookup: int -> Option<GlucoseStats>)
    requires n < Pow2(63)
    requires lookup(n).Some? && lookup(n).value.count != 0
    ensures StatsSelection(Encode(FormatInt(n)), lookup).Summary?
    ensures StatsSelection(Encode(FormatInt(n)), lookup).periodName == StatsPeriodLabel(n)
  {
    AtoiFormatInt(n);
  }
}
