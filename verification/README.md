# DiabetBot core, modelled in Dafny

DiabetBot is a Telegram bot with a web app for people with diabetes. Users
log glucose readings and meals. They get short AI advice from YandexGPT or
GigaChat, metered at 10 requests per user per UTC day. The web UI shows
charts and statistics. This project models the parts of the Go backend and
the React UI that make decisions:

- **AI usage ledger** (`AiUsage`). One counter per (user, day) in a map.
  `CheckAndIncrementUsage` admits a request and increments the counter; the
  cleanup job purges old rows. The class `AIUsageService` updates its
  `table` field in place.
- **Rate-limited gateway** (`LimitedAI`). The VIP bypass, the ledger check
  before every non-VIP request, and the texts for a ledger error, the daily
  limit and the remaining-requests suffix. `LimitedAIService` records every
  ledger and provider call in a trace.
- **Providers**:
  - `GigaChat`: token caching with a one-minute margin, chat requests, and
    the fallback texts. `GigaChatService` keeps its token and expiry as
    fields.
  - `YandexGPT`: key and folder checks, the model URI and response reading.
  - `Providers`: the common interface, as a datatype over the two clients.
  - `AIService`: the prompts both providers send.
- **Application wiring** (`App`). The provider chosen from the configured
  keys, wrapped once in the gateway.
- **Telegram bot** (`Bot`). Byte-level substring search, food-keyword
  detection, keyboard-button matching, message routing and the glucose range
  check. Also the callback dispatch, the meal-type and period labels, and
  the statistics reply.
- **User store** (`Users`). `GetOrCreateUser`, `GetByTelegramID` and
  `UpdateDiabetesInfo` over a table keyed by Telegram ID.
- **REST handlers** (`Api`):
  - the `days` query;
  - the partial-update maps;
  - the food-query choice;
  - request validation;
  - the status code of each outcome, including the early 400 answers.
- **Configuration report** (`Mask`). The secret mask.
- **Web UI**:
  - `Readings`: the 3.9/7.8 mmol/L bands and the sort by time.
  - `StatsCards`: the statistics cards.
  - `MiniChart`: the trend line of the last seven readings.
  - `GlucoseChart`: the main chart, which sorts the records in place, colours
    the dots and labels the tooltip.
  - `Dashboard`: the dashboard page's loading and rendering.

Go strings are byte strings. Text the bot matches or slices is therefore
`seq<byte>` (`Utf8`, `Strconv`, `Seqs` are the helpers). Texts that are only
concatenated or compared are `string`. The clock, the network, the database
and `strconv.ParseFloat` enter as parameters: `now`/`today`, HTTP results,
fault flags, and a parsed `Option<Float64>`.

The three defects listed under "## Findings" are each modelled twice: once as
written, in a member of their own with a lemma that exhibits the input, and
once corrected. The operations built on them (`Bot.Route`, `Bot.Classify`,
`Bot.CallbackQuery`, `GigaChat.GigaChatService.Authenticate`) use the
corrected definitions; "## Left out" says what that leaves unmodelled.

Elsewhere, where the code and its comments or tests disagree, the model
follows the code:

- `isVIPUser` is commented "case-insensitive", but it compares exactly
  (`LimitedAI.VIPIsCaseSensitive`).
- The bot's test expects "как дела?" not to be food, but the keyword "ел"
  occurs in "дела" (`Bot.FoodExamples`).
- The handler test expects 404 for an unknown Telegram ID, but `GetUser`
  registers the user and answers 201 (`Api.GetUserRegistersOnce`).

## Model

| member | source | states |
|---|---|---|
| AiUsage.Check | internal/services/ai_usage_service.go:25-65 | Admits exactly when the row reads, is below 10 and can be written. An admission increments only that (user, day) row and reports 10 minus the new count. Errors and refusals change nothing, and errors report 0 remaining. Counters stay within 1..10. |
| AiUsage.Remaining | internal/services/ai_usage_service.go:86-98 | Never negative. It is 0 exactly when the count has reached the limit; otherwise count + remaining = 10. |
| AiUsage.Purge | internal/services/ai_usage_service.go:101-114 | Keeps exactly the rows dated yesterday or later, unchanged. |
| AiUsage.RunAdmitsUpToLimit | internal/services/ai_usage_service.go:49-58 | n fault-free requests in one day admit exactly min(n, 10 − used). The counter ends at min(used + n, 10), and no other user's or day's row changes. |
| AiUsage.FreshDayAdmissions | internal/services/ai_usage_service.go:31-43 | On a day with no row, n requests get min(n, 10) admissions. |
| AiUsage.AdmittedRemaining | internal/services/ai_usage_service.go:61-64 | An admission reports between 0 and 9 remaining. |
| AiUsage.PurgeScenario | internal/services/ai_usage_service.go:102-105 | The cleanup keeps today's and yesterday's rows and drops a row three days old. |
| AiUsage.AIUsageService.constructor | internal/services/ai_usage_service.go:20-22 | The service starts over the rows the table already holds. |
| AiUsage.AIUsageService.CheckAndIncrementUsage | internal/services/ai_usage_service.go:25-65 | The verdict and the new table are those of `Check` on the old table, and the counter bound is kept. |
| AiUsage.AIUsageService.GetUsageToday | internal/services/ai_usage_service.go:68-83 | An error exactly on a read failure, with 0. Otherwise the stored count, or 0 without a row, within 0..10. |
| AiUsage.AIUsageService.GetRemainingRequests | internal/services/ai_usage_service.go:86-98 | An error exactly on a read failure, with 0. Otherwise used + remaining = 10. |
| AiUsage.AIUsageService.ResetDailyUsage | internal/services/ai_usage_service.go:101-114 | An error exactly when the delete fails, and then the table is unchanged. Otherwise the table is `Purge` of the old one. |
| LimitedAI.Decide | internal/services/limited_ai_service.go:39-66 | A VIP gets the provider's answer unmetered. For anyone else: a ledger error gives the error text, a refusal without error gives the limit text, and an admission gives the answer with the remaining count. |
| LimitedAI.Calls | internal/services/limited_ai_service.go:41-56 | A VIP causes only a provider call. Anyone else causes a ledger call first. The provider is called exactly for a VIP or after an admission. |
| LimitedAI.LimitTextNamesLimit | internal/services/limited_ai_service.go:52 | The limit text contains the limit written in decimal, "10". |
| LimitedAI.MeteredKeepsAnswer | internal/services/limited_ai_service.go:56-63 | An admitted reply starts with the provider's text, unchanged. |
| LimitedAI.RemainingLineInjective | internal/services/limited_ai_service.go:59-63 | Different remaining counts produce different suffix lines. |
| LimitedAI.LimitedAIService.constructor | internal/services/limited_ai_service.go:15-20 | Wraps the given provider and a fresh ledger over the existing rows, with an empty trace. |
| LimitedAI.LimitedAIService.Recommend | internal/services/limited_ai_service.go:39-66 | The reply is `Decide` of the VIP test, the ledger verdict and the provider's answer. The trace grows by `Calls`, and the ledger changes only for non-VIPs. A refused request leaves the provider's token cache alone. |
| LimitedAI.LimitedAIService.GetGlucoseRecommendation | internal/services/limited_ai_service.go:39-66 | The same, for glucose advice on the given record. |
| LimitedAI.LimitedAIService.GetFoodRecommendation | internal/services/limited_ai_service.go:68-95 | The same, for food advice on the description. |
| LimitedAI.LimitedAIService.GetGeneralRecommendation | internal/services/limited_ai_service.go:97-124 | The same, for a general question. |
| LimitedAI.TenthAndEleventh | internal/services/limited_ai_service.go:51-63 | After nine requests, the tenth gets the answer with the last-request line. The eleventh is refused without reaching the provider, and the table stays at 10. |
| LimitedAI.VIPNeverCounted | internal/services/limited_ai_service.go:41-43 | A VIP request never consults the ledger. |
| LimitedAI.VIPIsCaseSensitive | internal/services/limited_ai_service.go:23-37 | "sergio Dmitriev" is not a VIP: the names are compared exactly. |
| LimitedAI.IsVIPUser | internal/services/limited_ai_service.go:24-36 | A user is a VIP exactly when the last name is "Dmitriev" and the first name "Sergio" or "Serjio", compared byte for byte. No other field matters. |
| GigaChat.Refresh | internal/services/gigachat_service.go:110-136 | Succeeds exactly on status 200 with a decodable body. The token is the returned one, and it expires 60 s before the server's lifetime. |
| GigaChat.AuthStepAsWritten | internal/services/gigachat_service.go:85-95 | As written: it stops (panics) exactly when the cached token is not reusable and the key is shorter than 20 bytes. |
| GigaChat.AuthStep | internal/services/gigachat_service.go:85-138 | Never panics. It reuses the token exactly when one is cached and not expired; otherwise it is `Refresh`. |
| GigaChat.ShortKeyPanics | internal/services/gigachat_service.go:95 | The key "test_key" counts as configured, yet makes the written step panic. The corrected step does not panic. |
| GigaChat.LongKeyAgrees | internal/services/gigachat_service.go:95 | For keys of 20 bytes or more, the written and the corrected step agree. |
| GigaChat.TokenWindow | internal/services/gigachat_service.go:86-88 | A token fetched at `now` is reused exactly until now + (expiresIn − 60) s. |
| GigaChat.Reusable | internal/services/gigachat_service.go:86 | The empty credential of a fresh service is never reused, and a token is reused only strictly before its expiry. |
| GigaChat.ShortLivedTokenNeverReused | internal/services/gigachat_service.go:136 | A lifetime of 60 s or less means every request authenticates again. |
| GigaChat.BuildChatRequest | internal/services/gigachat_service.go:146-155 | The messages go out unchanged, to model "GigaChat:latest", with n = 1 and no streaming. |
| GigaChat.ChatResult | internal/services/gigachat_service.go:176-194 | Succeeds exactly on status 200 with at least one choice, and returns the first choice. |
| GigaChat.SendChat | internal/services/gigachat_service.go:141-195 | A chat call is made exactly when authentication succeeds, with the bearer token and the built request. Otherwise the authentication error is returned. |
| GigaChat.Recommend | internal/services/gigachat_service.go:197-241 | An empty or placeholder key gives the not-configured reply with nothing sent. Otherwise the request's messages are sent, and any failure gives the failure reply. |
| GigaChat.AdviceComesFromChat | internal/services/gigachat_service.go:234-240 | Advice is always the first choice the chat endpoint returned for exactly this request's messages. |
| GigaChat.ReusedTokenIgnoresAuth | internal/services/gigachat_service.go:86-88 | While the cached token is valid, the token endpoint's answer does not matter. |
| GigaChat.GigaChatService.constructor | internal/services/gigachat_service.go:72-83 | Keeps the key and base URL, with no token cached. |
| GigaChat.GigaChatService.Authenticate | internal/services/gigachat_service.go:85-139 | The token fields become those of `AuthStep`, and the token endpoint is asked only when the cache is unusable. |
| GigaChat.GigaChatService.SendChatRequest | internal/services/gigachat_service.go:141-195 | The result and the new token are those of `SendChat`, and the chat call (if any) is recorded. |
| GigaChat.GigaChatService.GetRecommendation | internal/services/gigachat_service.go:197-306 | The reply is that of `Recommend`. Without a key the object is untouched. |
| YandexGPT.PrepareCall | internal/services/yandexgpt_service.go:69-104 | The key is checked before the folder. A call is prepared exactly when both are set: the messages unchanged, the folder's model URI, temperature 0.7, at most 1000 tokens, and an "Api-Key" header. |
| YandexGPT.ReadResponse | internal/services/yandexgpt_service.go:123-136 | Succeeds exactly on status 200 with an alternative, and returns the first one. |
| YandexGPT.SendRequest | internal/services/yandexgpt_service.go:69-137 | A configuration error is returned as it is, without a request. For a prepared call, the result is `ReadResponse` of the endpoint's answer to that call. |
| YandexGPT.OnlyThePreparedCallIsSent | internal/services/yandexgpt_service.go:69-137 | The outcome depends on the endpoint only through its answer to the one prepared call: two endpoints that answer that call alike give the same result. |
| YandexGPT.PreparedCallAnswer | internal/services/yandexgpt_service.go:123-136 | For a prepared call: the first alternative of a 200 answer that holds one, and a failure for any other answer. |
| YandexGPT.Recommendation | internal/services/yandexgpt_service.go:139-186 | An unconfigured key gives the not-configured reply. Otherwise the reply is advice or the failure reply, according to `SendRequest`. |
| YandexGPT.MissingFolderIsFailure | internal/services/yandexgpt_service.go:74-76 | A key without a folder is reported as a failed request, not as a missing key. |
| YandexGPT.AdviceComesFromServer | internal/services/yandexgpt_service.go:136 | Advice is the first alternative returned for a call carrying this request's messages and model URI. |
| YandexGPT.UnconfiguredIgnoresServer | internal/services/yandexgpt_service.go:70-76 | Without a key or a folder, the endpoint plays no part. |
| YandexGPT.ModelUriInjective | internal/services/yandexgpt_service.go:78 | Different folders address different model URIs. |
| YandexGPT.ModelUri | internal/services/yandexgpt_service.go:78 | "gpt://", the folder, then the model name; the folder reads back from between the two. |
| AIService.DiabetesTypeText | internal/services/gigachat_service.go:202-205 | "не указан" when unset; otherwise a text ending in " типа". |
| AIService.TargetText | internal/services/gigachat_service.go:207-210 | "не указана" when unset; otherwise the value with one decimal and " ммоль/л". |
| AIService.DiabetesTypeTextInjective | internal/services/gigachat_service.go:202-205 | Different stored diabetes types never give the same prompt text. |
| AIService.UserTextQuoted | internal/services/gigachat_service.go:257-260 | The food description or question appears verbatim, in quotes, in the user prompt. |
| AIService.GlucosePromptCarriesReading | internal/services/gigachat_service.go:217-227 | The glucose prompt contains the reading and its measurement time. |
| AIService.SystemPrompt | internal/services/gigachat_service.go:212-288 | Each operation's system prompt asks for the answer in Russian. |
| AIService.UserPrompt | internal/services/gigachat_service.go:217-293 | Every patient turn states the diabetes type, whatever the request. |
| AIService.Messages | internal/services/gigachat_service.go:229-232 | Two messages: the "system" message with the operation's instructions, then the "user" message for exactly this request and user. |
| Providers.Ask | internal/services/ai_service.go:6-11 | One interface call answers as the chosen provider would, given its cached credential. |
| Providers.UnconfiguredAnswers | internal/services/ai_service.go:6-11 | Either provider without a key answers the not-configured reply. |
| App.SelectProvider | internal/app/app.go:56-65 | YandexGPT exactly when its key is configured. Otherwise GigaChat when its key is configured. Otherwise the GigaChat client as a stub. |
| App.Wire | internal/app/app.go:56-68 | The gateway is fresh, wraps the selected client (a fresh GigaChat client with no token, or the YandexGPT client) and starts from the existing usage rows. |
| App.StubNeverAdvises | internal/app/app.go:62-65 | With no key, every request gets the not-configured reply. |
| App.StubStillSpendsQuota | internal/app/app.go:68 | Even the stub is metered: an admitted request spends one unit of quota. |
| Bot.ContainsMiddle | internal/telegram/bot.go:349-356 | True exactly when `substr` occurs at some offset from 1 to len(text) − len(substr). |
| Bot.Contains | internal/telegram/bot.go:340-347 | True exactly when `substr` occurs anywhere in `text`. |
| Bot.IsFoodDescription | internal/telegram/bot.go:328-338 | True exactly when some food keyword occurs in the text. |
| Bot.ElSubsumesLongerKeywords | internal/telegram/bot.go:329 | "ел" ends "съел" and "поел", so the list without those two classifies every text the same. |
| Bot.AsciiIsNotFood | internal/telegram/bot.go:329-330 | Text of ASCII bytes only is never food. |
| Bot.FoodExamples | internal/telegram/bot.go:329-337 | "съел овсянку", "выпил кофе" and "как дела?" are food; "123" and "" are not. |
| Bot.IsKeyboardButton | internal/telegram/bot.go:377-393 | True exactly when the text equals one of the six keyboard labels. |
| Bot.NaNPassesWrittenCheck | internal/telegram/bot.go:221 | As written, "NaN" passes the range check, though it is not an accepted reading. |
| Bot.ReadingChecksAgree | internal/telegram/bot.go:221 | Apart from NaN, the written check and the intended 1.0..30.0 check agree. |
| Bot.ReadingRejectedAsWritten | internal/telegram/bot.go:221 | For a finite value: rejected exactly outside 1.0..30.0. Both infinities are rejected. NaN passes, because both comparisons are false for it. |
| Bot.ReadingAccepted | internal/telegram/bot.go:221 | The corrected check never accepts a value the written check rejects. |
| Bot.Classify | internal/telegram/bot.go:61-78 | A message is dropped exactly when the user cannot be fetched or created. Otherwise its action is that of `Route`: a command first, then a number as a reading, then a keyboard button, then text under 3 bytes (not understood), then food, then a question. |
| Bot.Route | internal/telegram/bot.go:69-78 | Never drops a message. A command exactly when the message is one. Otherwise a parsed number is always a reading; under the corrected check `Bot.ReadingAccepted`, a saved one carries the parsed finite value. A keyboard button only for a label. "Not understood" exactly for remaining text under 3 bytes (bot.go:241-244), so food and questions come last. |
| Bot.NumbersAreReadings | internal/telegram/bot.go:72-73 | A number is always handled as a reading. Under the corrected check `ReadingAccepted`, only an accepted one is saved, and it lies in 1.0..30.0. |
| Bot.ShortTextIsNotSent | internal/telegram/bot.go:239-252 | Only free text of at least 3 bytes, not a command, number or button, reaches the food log or the AI. It goes to the food log exactly when it is food. |
| Bot.BarePrefixPanics | internal/telegram/bot.go:289-296 | Callback data exactly "food", "glucose" or "stats" makes the written dispatch panic. |
| Bot.CallbackAsWritten | internal/telegram/bot.go:289-296 | The written dispatch panics exactly for the data "food", "glucose" and "stats". |
| Bot.RouteCallback | internal/telegram/bot.go:289-296 | A prefix selects its handler only when at least one byte (the separator) follows it, and the handler gets the bytes after that byte. Other data is ignored. |
| Bot.CallbackAgreesWhenNoPanic | internal/telegram/bot.go:289-296 | Wherever the written dispatch does not panic, it agrees with the corrected one. |
| Bot.CallbackQuery | internal/telegram/bot.go:274-296 | A callback from a user who cannot be looked up is ignored. Any callback that is acted on is dispatched as `RouteCallback` does. |
| Bot.CallbackQueryAsWritten | internal/telegram/bot.go:274-296 | A failed user lookup ignores the callback. The handler panics exactly for a stored user whose data is a bare prefix. |
| Bot.BarePrefixNeedsStoredUser | internal/telegram/bot.go:283-295 | The bare data "food" or "stats" panics in the written handler exactly when the user lookup succeeds; a failed lookup returns first. |
| Bot.CallbackQueryAgrees | internal/telegram/bot.go:283-296 | Wherever the written handler does not panic, the corrected one takes the same action. |
| Bot.FoodTypeLabel | internal/telegram/bot.go:299-310 | Empty exactly for a type other than breakfast, lunch, dinner and snack. |
| Bot.GlucosePeriodLabel | internal/telegram/bot.go:414-427 | "общее измерение" exactly for a period other than before, after, morning and night. |
| Bot.FoodButtonsHaveLabels | internal/telegram/bot.go:289-291 | The "food_breakfast" and "food_snack" buttons reach "завтрак" and "перекус". |
| Bot.ControlFor | internal/telegram/bot.go:470-481 | Excellent for an average up to 5.5, fair up to 7.0, and attention above. |
| Bot.StatsPeriodLabel | internal/telegram/bot.go:456-468 | A period other than 1, 7, 30 and 90 days is named "за n дней". |
| Bot.StatsSelection | internal/telegram/bot.go:437-496 | A non-integer period is an error, and a failed query another. Zero readings give the no-data reply. Otherwise the summary of that many days, with its label and control level. |
| Bot.StatsButtonCarriesDays | internal/telegram/bot.go:294-295 | The button "stats_n" hands exactly the digits of n to the handler. |
| Bot.StatsButtonAsksForItsDays | internal/telegram/bot.go:438-468 | The handler reads n back and summarises exactly n days. |
| Users.NewUser | internal/services/user_service.go:23-33 | A new row: the profile, active, no medical data, and language 'ru' when empty. |
| Users.Refreshed | internal/services/user_service.go:43-51 | An existing row: the profile is overwritten and the row is active; the id and medical data are kept. |
| Users.Upsert | internal/services/user_service.go:17-57 | Fails exactly on a lookup, insert or update error, changing nothing. On success the user is the row now under that Telegram ID, only that row changes, and table consistency is kept. |
| Users.Lookup | internal/services/user_service.go:59-66 | Found exactly when the Telegram ID is present and the query succeeds; otherwise not-found or query-failed. |
| Users.SetDiabetesInfo | internal/services/user_service.go:68-72 | Only the row with that primary key gets the two medical fields. |
| Users.UpsertIdempotent | internal/services/user_service.go:17-57 | A second call keeps the id and issues none. It returns the same user and table, unless the first call inserted an empty language. |
| Users.EmptyLanguageOnlyDefaultsOnInsert | internal/models/user.go:15 | An empty language is stored as 'ru' on insert, but as empty after the next message. |
| Users.UpsertThenLookup | internal/services/user_service.go:17-66 | After a successful call, the user is found by Telegram ID with the same id. |
| Users.SetDiabetesInfoKeepsProfiles | internal/services/user_service.go:68-72 | Consistency is kept, and every row keeps its primary key, username and active flag. |
| Users.SetDiabetesInfoMissingId | internal/services/user_service.go:68-72 | A missing primary key changes nothing. |
| Users.UserService.constructor | internal/services/user_service.go:13-15 | An empty table; the first id issued is 1. |
| Users.UserService.GetOrCreateUser | internal/services/user_service.go:17-57 | The answer, the new table and the next id are those of `Upsert`. |
| Users.UserService.GetByTelegramID | internal/services/user_service.go:59-66 | Answers `Lookup` and changes nothing. |
| Users.UserService.UpdateDiabetesInfo | internal/services/user_service.go:68-72 | An error exactly on an update failure, with the table unchanged; otherwise the table is `SetDiabetesInfo` of the old one. |
| Api.ParseDays | internal/handlers/api_handler.go:187-192 | Always within 1..365. It is the queried integer when that lies in 1..365; otherwise 30. |
| Api.DaysRoundTrip | internal/handlers/api_handler.go:188-189 | Every period from 1 to 365, written in decimal, is read back exactly. |
| Api.BuildFoodUpdates | internal/handlers/api_handler.go:405-423 | A column is in the map exactly when the request supplies a non-empty value, and then it holds that value. Only the six food columns can appear; user_id never does. |
| Api.PartialFoodUpdate | internal/handlers/api_handler.go:405-425 | Applying the map overwrites exactly the supplied fields. The id and owner never change. |
| Api.BuildUserUpdates | internal/handlers/api_handler.go:121-127 | target_glucose and notifications are in the map exactly when supplied, with their values. |
| Api.ChooseFoodQuery | internal/handlers/api_handler.go:334-338 | The by-type query is used exactly when the `type` query is non-empty. |
| Api.GetUser | internal/handlers/api_handler.go:29-62 | 400 exactly when the ID is not an int64. 200 exactly when the user is found, and it returns the stored row for that ID. 201 only for an unknown ID: it returns and stores `NewUser` with the next primary key and the parsed ID, and advances the key by one. |
| Api.GetUserRegistersOnce | internal/handlers/api_handler.go:39-55 | An unknown ID first gets 201 with the new user built from the next key, the ID and the headers, then 200 with the same user; the second call allocates no key. |
| Api.UpdateDiabetesInfo | internal/handlers/api_handler.go:64-94 | 200 exactly for a parsable, known ID with a valid body (type 1..2, target 3..15) and no store error; the table then has that user's new values. 404 exactly when the user lookup fails (unknown ID or query error). |
| Api.DiabetesInfoStored | internal/handlers/api_handler.go:86-93 | After 200, the user has the requested values and every other user is unchanged. |
| Api.DeleteRecord | internal/handlers/api_handler.go:257-277 | 400 exactly when the record ID or the user_id query is not a 32-bit unsigned number. The service is asked exactly otherwise. |
| Api.DeleteNeedsUserId | internal/handlers/api_handler.go:264-269 | A delete without user_id is refused with 400 before the service. |
| Api.CreateGlucoseStatus | internal/handlers/api_handler.go:203-229 | 400 exactly when the body does not decode or does not bind: `user_id` must be a non-zero int64 and `value` in 1..30. 404 exactly when it binds and the user lookup fails. 201 exactly when it binds, the user exists and the insert succeeds. |
| Api.UpdateGlucoseStatus | internal/handlers/api_handler.go:231-255 | 200 exactly for a uint32 record ID, a body whose `user_id` is a non-zero uint and whose value is in 1..30, and no update error. 400 exactly for a bad ID or a body that does not decode or bind. |
| Api.GlucoseBoundsEnforced | internal/handlers/api_handler.go:206 | A value outside 1..30 is refused by both create and update. |
| Api.OwnerIdTypesDiffer | internal/handlers/api_handler.go:203-247 | Create binds `user_id` as int64 and update as uint: -5 is refused by update but not by create, and 2^63 by create but not by update. |
| Mask.MaskSecret | scripts/check-config.go:36-44 | "" gives "(not set)", and 1–8 bytes give "***". A longer secret gives 11 bytes: its first 4, "...", and its last 4. |
| Mask.MaskRevealsAtMostEight | scripts/check-config.go:43 | Outside the "...", every output byte copies one of the first or last four secret bytes. |
| Mask.ShortSecretsLookAlike | scripts/check-config.go:40-42 | Any two secrets of 1–8 bytes mask identically. |
| Mask.MaskDependsOnlyOnEnds | scripts/check-config.go:43 | Long secrets with the same first and last four bytes mask identically. |
| Readings.BandOf | web/src/components/StatsCards.tsx:27-29 | Low below 3.9, high above 7.8, and normal from 3.9 to 7.8 inclusive. |
| Readings.SortByTime | web/src/components/MiniChart.tsx:14 | Sorted ascending by time, a permutation of the input. |
| Readings.SortByTimeKeepsSorted | web/src/components/MiniChart.tsx:14 | Sorting an already sorted list leaves it as it is. |
| StatsCards.MinOf | web/src/components/StatsCards.tsx:24 | A reading that is at most every reading. |
| StatsCards.MaxOf | web/src/components/StatsCards.tsx:25 | A reading that is at least every reading. |
| StatsCards.BandsPartition | web/src/components/StatsCards.tsx:27-29 | The low, in-range and high counts add up to the number of readings. |
| StatsCards.CountInPositive | web/src/components/StatsCards.tsx:27-29 | A band count is positive exactly when some reading lies in that band. |
| StatsCards.MinMaxAreReadings | web/src/components/StatsCards.tsx:22-25 | The minimum and maximum bound every reading and are readings themselves. |
| StatsCards.StatsSummarise | web/src/components/StatsCards.tsx:22-38 | min ≤ average ≤ max; low + in-range + high = n; the in-range percentage lies in 0..100. |
| StatsCards.CalculateStats | web/src/components/StatsCards.tsx:10-39 | The low and high counts together never exceed the number of records, and the in-range share is within 0..100. |
| StatsCards.EmptyStatsAreZero | web/src/components/StatsCards.tsx:11-20 | No records give all-zero statistics. |
| StatsCards.LowReadings | web/src/components/StatsCards.tsx:109-144 | Some reading is low exactly when the low count is positive, and exactly when the minimum is low. |
| StatsCards.HighReadings | web/src/components/StatsCards.tsx:123-157 | The same for high readings, the high count and the maximum. |
| StatsCards.RenderShowsBands | web/src/components/StatsCards.tsx:64-168 | The placeholder appears exactly for no records. The low and high cards appear exactly when such readings exist, matching the alarm colours of the minimum and maximum. The last card counts every record. |
| StatsCards.Render | web/src/components/StatsCards.tsx:64-168 | The placeholder appears exactly for no records. Otherwise 5 to 7 cards, the last counting every record. |
| MiniChart.LastSeven | web/src/components/MiniChart.tsx:13 | min(n, 7) records, the last ones of the input in order. |
| MiniChart.ChartPlotsLastSeven | web/src/components/MiniChart.tsx:11-19 | At most seven points: a permutation of the last seven records, ascending by time, with values and times copied. |
| MiniChart.PrepareChartData | web/src/components/MiniChart.tsx:11-19 | min(n, 7) points, ascending by time. |
| MiniChart.EarlierRecordsNotPlotted | web/src/components/MiniChart.tsx:13-14 | A record before the last seven is never plotted, even when it is the newest. |
| MiniChart.Trend | web/src/components/MiniChart.tsx:39-42 | Red exactly when rising, green exactly when falling, and grey when flat. |
| MiniChart.RenderTrend | web/src/components/MiniChart.tsx:23-42 | The placeholder appears exactly for fewer than 2 records. Otherwise the line's colour follows the earliest and latest plotted readings. |
| MiniChart.Render | web/src/components/MiniChart.tsx:21-42 | The placeholder appears exactly for fewer than 2 records. Otherwise the line plots the prepared points, 2 to 7 of them. |
| GlucoseChart.PointOf | web/src/components/GlucoseChart.tsx:27-33 | Time and value are copied; the notes are empty exactly when missing or empty. |
| GlucoseChart.SortByTimeInPlace | web/src/components/GlucoseChart.tsx:26 | The array ends sorted by time and is a permutation of what it held. |
| GlucoseChart.PrepareChart | web/src/components/GlucoseChart.tsx:24-36 | The prop array is sorted in place. There is one point per record in that order, and "no data" exactly for no records. |
| GlucoseChart.TooltipMatchesDot | web/src/components/GlucoseChart.tsx:39-43 | The tooltip shows exactly one status line, and its band is the dot colour's band, the band of the value. |
| GlucoseChart.DotColourOf | web/src/components/GlucoseChart.tsx:39-43 | The dot colour names the band of the value: red low, green normal, orange high. |
| GlucoseChart.TooltipLines | web/src/components/GlucoseChart.tsx:95-97 | The three guards never overlap and never all fail: exactly one status line, naming the band of the value. |
| Dashboard.GlucoseStatus | web/src/pages/Dashboard.tsx:44-48 | The CSS class is the class of the value's band. |
| Dashboard.GlucoseStatusText | web/src/pages/Dashboard.tsx:50-54 | The status text is the text of the value's band. |
| Dashboard.StatusDistinguishesBands | web/src/pages/Dashboard.tsx:44-54 | Two readings get the same class, or the same text, exactly when they lie in the same band. |
| Dashboard.StatusExamples | web/src/pages/Dashboard.tsx:44-54 | 3.5 is "Низкий", 8.5 "Высокий" and 6.5 "Нормальный". |
| Dashboard.CardOrEmptyState | web/src/pages/Dashboard.tsx:87-169 | Once loaded, exactly one of the stats card and the empty state appears. The card appears exactly for statistics with readings. The latest-reading card appears exactly when a record is held. |
| Dashboard.Render | web/src/pages/Dashboard.tsx:56-169 | The loading screen while loading. The error screen for a non-empty error. A loaded page shows the statistics card or the empty state, never both. |
| Dashboard.FailedLoadShowsError | web/src/pages/Dashboard.tsx:66-74 | A failed load shows the error message. |
| Dashboard.DashboardPage.constructor | web/src/pages/Dashboard.tsx:13-16 | Starts loading, with no data and no error. |
| Dashboard.DashboardPage.FetchData | web/src/pages/Dashboard.tsx:19-39 | Requests 7 days of statistics and 1 day of records for the user, and ends not loading. On success it replaces the statistics, and replaces the latest record only when one came back. On failure it sets the error and keeps the data. |

## Left out

- Network I/O, JSON encoding, TLS and HTTP clients: every HTTP exchange is a parameter (`HttpResult`), and a body that fails to decode is `None`.
- The database: tables are maps, and failures are fault flags. The SQL of the glucose and food services (GetUserRecords, GetUserStats, GetRecordsByType, CreateRecord) is not modelled; the bot and handlers take its answers as parameters.
- Concurrency: the read-increment-save of `CheckAndIncrementUsage` is not atomic in the source, so two simultaneous requests can both be admitted at count 9. The model runs calls one at a time.
- Clock: `time.Now` and UTC truncation are the `now`/`today` parameters. The cron job that runs the cleanup is not modelled.
- Floating point: JS numbers and Go `float64` are exact reals, except the bot's `Float64` (finite, NaN, infinity), which the glucose check needs. Rounding in `toFixed(1)`/`%.1f` and date formatting are parameters (`Formatter`) or dropped.
- `strconv.ParseFloat` is a parameter (`Option<Float64>`), not an implementation; which strings it accepts ("-5.0", "1e3", "NaN") is not modelled.
- Bot side effects: sending messages, `handleKeyboardButton`'s screens, `/start`, `/help` and the other command texts, and saving records are not modelled. Only the decisions are.
- `NewBot` takes a `*GigaChatService` (internal/telegram/bot.go:25), while internal/app/app.go:78 passes the rate-limited gateway; the model wires the gateway as app.go intends.
- `APIHandler.UpdateUser` calls `userService.UpdateUser`, which the user service does not define (internal/handlers/api_handler.go:130). Only its update map is modelled (`Api.BuildUserUpdates`).
- `config.Config` has no YandexGPT and no WebAppURL fields, so `App` takes an explicit `AIConfig` and the configuration report's other fields are left out. Loading configuration from the environment, and cmd/main.go, are left out.
- Database migrations: `AIUsage` is absent from both AutoMigrate lists (internal/database/database.go:34-39), so the usage table may not exist. The model assumes it does; a missing table shows up only as a read fault.
- Logging is left out. The API-key slice at internal/services/gigachat_service.go:95 panics on a short key; only `GigaChat.AuthStepAsWritten` models that panic, and the service class uses the corrected `GigaChat.AuthStep`.
- GigaChat.GigaChatService.Authenticate: follows the corrected `GigaChat.AuthStep`, so a key shorter than 20 bytes requests a token, where gigachat_service.go:95 panics instead (`GigaChat.ShortKeyPanics`).
- Bot.Route: uses the corrected `Bot.ReadingAccepted`, so the text "NaN" is `RejectReading`, where bot.go:221-235 saves it as a reading and asks the AI about it (`Bot.NaNPassesWrittenCheck`).
- Bot.Classify: uses the corrected `Bot.ReadingAccepted`, so the text "NaN" is rejected, where bot.go:221-235 saves it as a reading and asks the AI about it (`Bot.NaNPassesWrittenCheck`).
- Bot.CallbackQuery: dispatches with the corrected `Bot.RouteCallback`, so the bare data "food", "glucose" or "stats" is not understood, where bot.go:290-295 panics on it (`Bot.BarePrefixNeedsStoredUser`).
- Web plumbing: the axios client, routing, the settings, add-record and navigation pages, and the Telegram WebApp helpers are left out.
- GlucoseChart.PrepareChart: the formatted date strings of a chart point (`formattedTime`, `fullDate`) are not modelled.
- GlucoseChart.SortByTimeInPlace: states sorted and permutation, not stability; `Array.prototype.sort` is stable, and the pure `Readings.SortByTime` used by the mini chart is stable.
- Bot.StatsPeriodLabel: states the label only for the default branch; the four named periods are plain constants.
- The handlers' remaining endpoints (GetGlucoseRecords, GetGlucoseStats, CreateFoodRecord, DeleteUserData and the rest) are modelled only through their shared pieces: `ParseDays`, `DeleteRecord`, `ChooseFoodQuery` and the validation predicates.

## Findings

| source | as written | input that shows it | evidently intended | confidence | as-written member | corrected member |
|---|---|---|---|---|---|---|
| internal/services/gigachat_service.go:95 | logs `s.apiKey[:20]` before every token request | any configured key shorter than 20 bytes, such as the unit test's "test_key" | log at most the key's available bytes, never panic | not executed | GigaChat.AuthStepAsWritten, GigaChat.ShortKeyPanics | GigaChat.AuthStep, GigaChat.LongKeyAgrees |
| internal/telegram/bot.go:290-295 | the guards allow data equal to the prefix, then slice `data[len(prefix)+1:]` | callback data "food", "glucose" or "stats" | dispatch only when a byte follows the prefix | not executed | Bot.CallbackAsWritten, Bot.BarePrefixPanics | Bot.RouteCallback, Bot.CallbackAgreesWhenNoPanic |
| internal/telegram/bot.go:221 | rejects only `value < 1.0 \|\| value > 30.0` | the message "NaN", which ParseFloat accepts | store only readings within 1.0..30.0 | not executed | Bot.ReadingRejectedAsWritten, Bot.NaNPassesWrittenCheck | Bot.ReadingAccepted, Bot.NumbersAreReadings |
