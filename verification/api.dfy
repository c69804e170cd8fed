/**
 * The REST handler's own decisions: path and query parsing, the early
 * 400 answers, request validation, the partial-update maps and the status
 * of each outcome. Request bodies arrive already decoded (None when the
 * JSON cannot be bound).
 */
module Api {
  import opened Wrappers
  import opened Utf8
  import opened Strconv
  import opened Models
  import opened Users

  type Bytes = seq<byte>

  const StatusOK := 200
  const StatusCreated := 201
  const StatusBadRequest := 400
  const StatusNotFound := 404
  const StatusInternalServerError := 500

  // ---------------------------------------------------------------------
  // The `days` query

  const DefaultDays := 30
  const MaxDays := 365

  /** The period of a records or stats query: 30 days unless `days` is an integer in 1..365. */
  method ParseDays(daysQuery: Bytes) returns (days: int)
    ensures 1 <= days <= MaxDays
    ensures days == DefaultDays || Atoi(daysQuery) == Some(days)
    ensures forall d | 0 < d <= MaxDays :: Atoi(daysQuery) == Some(d) ==> days == d
  {
    days := DefaultDays;
    if daysQuery != [] {
      var parsed := Atoi(daysQuery);
      if parsed.Some? && parsed.value > 0 && parsed.value <= MaxDays {
        days := parsed.value;
      }
    }
  }

  /** Any period the web UI can print, 1..365, is read back exactly. */
  lemma DaysRoundTrip(d: int)
    requires 0 < d <= MaxDays
    ensures Atoi(Encode(FormatInt(d))) == Some(d)
  {
    assert Pow2(9) == 512;
    Pow2Monotone(9, 63);
    AtoiFormatInt(d);
  }

  // ---------------------------------------------------------------------
  // Partial updates

  /** A value placed in an update map. */
  datatype FieldValue = Text(text: string) | Number(number: real) | Count(count: int) | Flag(flag: bool)

  datatype FoodUpdateRequest = FoodUpdateRequest(
    userId: nat,
    foodName: string,
    foodType: string,
    carbs: Option<real>,
    calories: Option<int>,
    quantity: string,
    notes: string)

  /** The update map holds a column exactly when the request supplies a non-empty value for it. */
  predicate DescribesFoodRequest(updates: map<string, FieldValue>, req: FoodUpdateRequest)
  {
    && ("food_name" in updates <==> req.foodName != "")
    && ("food_type" in updates <==> req.foodType != "")
    && ("carbs" in updates <==> req.carbs.Some?)
    && ("calories" in updates <==> req.calories.Some?)
    && ("quantity" in updates <==> req.quantity != "")
    && ("notes" in updates <==> req.notes != "")
    && ("food_name" in updates ==> updates["food_name"] == Text(req.foodName))
    && ("food_type" in updates ==> updates["food_type"] == Text(req.foodType))
    && ("carbs" in updates ==> updates["carbs"] == Number(req.carbs.value))
    && ("calories" in updates ==> updates["calories"] == Count(req.calories.value))
    && ("quantity" in updates ==> updates["quantity"] == Text(req.quantity))
    && ("notes" in updates ==> updates["notes"] == Text(req.notes))
  }

  const FoodColumns: set<string> := {"food_name", "food_type", "carbs", "calories", "quantity", "notes"}

  /** UpdateFoodRecord's update map, built one supplied field at a time. */
  method BuildFoodUpdates(req: FoodUpdateRequest) returns (updates: map<string, FieldValue>)
    ensures DescribesFoodRequest(updates, req)
    ensures updates.Keys <= FoodColumns
    ensures "user_id" !in updates
  {
    updates := map[];
    if req.foodName != "" {
      updates := updates["food_name" := Text(req.foodName)];
    }
    if req.foodType != "" {
      updates := updates["food_type" := Text(req.foodType)];
    }
    if req.carbs.Some? {
      updates := updates["carbs" := Number(req.carbs.value)];
    }
    if req.calories.Some? {
      updates := updates["calories" := Count(req.calories.value)];
    }
    if req.quantity != "" {
      updates := updates["quantity" := Text(req.quantity)];
    }
    if req.notes != "" {
      updates := updates["notes" := Text(req.notes)];
    }
  }

  /** A stored food record. */
  datatype FoodRecord = FoodRecord(
    id: nat,
    userId: nat,
    foodName: string,
    foodType: string,
    carbs: Option<real>,
    calories: Option<int>,
    quantity: string,
    notes: string)

  /** What the database does with an update map: each listed column takes its value. */
  function ApplyFoodUpdates(r: FoodRecord, u: map<string, FieldValue>): FoodRecord
  {
    r.(foodName := if "food_name" in u && u["food_name"].Text? then u["food_name"].text else r.foodName,
       foodType := if "food_type" in u && u["food_type"].Text? then u["food_type"].text else r.foodType,
       carbs := if "carbs" in u && u["carbs"].Number? then Some(u["carbs"].number) else r.carbs,
       calories := if "calories" in u && u["calories"].Count? then Some(u["calories"].count) else r.calories,
       quantity := if "quantity" in u && u["quantity"].Text? then u["quantity"].text else r.quantity,
       notes := if "notes" in u && u["notes"].Text? then u["notes"].text else r.notes)
  }

  /**
   * A partial update overwrites exactly the supplied fields: an empty
   * string or an absent number keeps the stored value, and the record's
   * id and owner never change.
   */
  lemma PartialFoodUpdate(r: FoodRecord, u: map<string, FieldValue>, req: FoodUpdateRequest)
    requires DescribesFoodRequest(u, req)
    ensures var n := ApplyFoodUpdates(r, u);
      && n.id == r.id && n.userId == r.userId
      && n.foodName == (if req.foodName != "" then req.foodName else r.foodName)
      && n.foodType == (if req.foodType != "" then req.foodType else r.foodType)
      && n.carbs == (if req.carbs.Some? then req.carbs else r.carbs)
      && n.calories == (if req.calories.Some? then req.calories else r.calories)
      && n.quantity == (if req.quantity != "" then req.quantity else r.quantity)
      && n.notes == (if req.notes != "" then req.notes else r.notes)
  {
  }

  /** UpdateUser's update map: target glucose and notifications, when supplied. */
  method BuildUserUpdates(targetGlucose: Option<real>, notifications: Option<bool>)
    returns (updates: map<string, FieldValue>)
    ensures "target_glucose" in updates <==> targetGlucose.Some?
    ensures "notifications" in updates <==> notifications.Some?
    ensures targetGlucose.Some? ==> updates["target_glucose"] == Number(targetGlucose.value)
    ensures notifications.Some? ==> updates["notifications"] == Flag(notifications.value)
    ensures updates.Keys <= {"target_glucose", "notifications"}
  {
    updates := map[];
    if targetGlucose.Some? {
      updates := updates["target_glucose" := Number(targetGlucose.value)];
    }
    if notifications.Some? {
      updates := updates["notifications" := Flag(notifications.value)];
    }
  }

  // ---------------------------------------------------------------------
  // Query choice and validation

  datatype FoodQuery = AllFood(days: int) | FoodOfType(foodType: string, days: int)

  /** GetFoodRecords filters by type exactly when the `type` query is non-empty. */
  function ChooseFoodQuery(typeQuery: string, days: int): (q: FoodQuery)
    ensures q.FoodOfType? <==> typeQuery != ""
    ensures q.FoodOfType? ==> q.foodType == typeQuery
    ensures q.days == days
  {
    if typeQuery != "" then FoodOfType(typeQuery, days) else AllFood(days)
  }

  /** The binding rules of the diabetes-info body: type 1 or 2, target 3..15 mmol/L. */
  predicate ValidDiabetesInfo(diabetesType: int, targetGlucose: real)
  {
    1 <= diabetesType <= 2 && 3.0 <= targetGlucose <= 15.0
  }

  /**
   * A glucose body as JSON delivers it: `user_id` an integer, `value` a
   * number. A body that does not decode at all (a string where a number
   * belongs, a fraction for `user_id`) reaches the handlers as None.
   */
  datatype GlucoseBody = GlucoseBody(userId: int, value: real)

  /** The `min=1,max=30` rule on the value. */
  predicate ValueInRange(value: real)
  {
    1.0 <= value <= 30.0
  }

  /** Binding into CreateGlucoseRecord's struct: a non-zero int64 Telegram ID and a value of 1..30. */
  predicate BindsForCreate(b: GlucoseBody)
  {
    -(Pow2(63) as int) <= b.userId < Pow2(63) && b.userId != 0 && ValueInRange(b.value)
  }

  /** Binding into UpdateGlucoseRecord's struct: a non-zero uint owner ID and a value of 1..30. */
  predicate BindsForUpdate(b: GlucoseBody)
  {
    0 < b.userId < Pow2(64) && ValueInRange(b.value)
  }

  // ---------------------------------------------------------------------
  // Handlers over the user table

  /**
   * GET /users/:telegram_id. An unknown Telegram ID is registered from the
   * WebApp headers and answered with 201.
   */
  function GetUser(param: Bytes, t: Table, nextId: nat, headers: Profile, f: UserFaults)
    : (out: (int, Option<User>, Table, nat))
    ensures out.0 == StatusBadRequest <==> ParseInt(param, 64).None?
    ensures out.0 == StatusOK <==> ParseInt(param, 64).Some? && !f.lookupFails && ParseInt(param, 64).value in t
    ensures out.0 == StatusCreated ==>
      && ParseInt(param, 64).value !in t && out.1.Some?
      && out.2 == t[ParseInt(param, 64).value := out.1.value]
    ensures out.0 == StatusOK ==> out.1 == Some(t[ParseInt(param, 64).value])
    ensures out.0 == StatusCreated ==>
      out.1.value == NewUser(nextId, ParseInt(param, 64).value, headers) && out.3 == nextId + 1
    ensures out.0 in {StatusOK, StatusCreated} <==> out.1.Some?
    ensures out.0 != StatusCreated ==> out.2 == t && out.3 == nextId
  {
    match ParseInt(param, 64)
    case None => (StatusBadRequest, None, t, nextId)
    case Some(tid) =>
      match Lookup(t, tid, f.lookupFails)
      case Success(u) => (StatusOK, Some(u), t, nextId)
      case Failure(NotFound) =>
        var (r, t1, n1) := Upsert(t, nextId, tid, headers, UserFaults(false, f.insertFails, f.updateFails));
        if r.Failure? then (StatusInternalServerError, None, t, nextId)
        else (StatusCreated, Some(r.value), t1, n1)
      case Failure(_) => (StatusInternalServerError, None, t, nextId)
  }

  /** The first request for a new Telegram ID creates the user (201); the next one finds it (200). */
  lemma GetUserRegistersOnce(tid: int, t: Table, nextId: nat, headers: Profile)
    requires -(Pow2(63) as int) <= tid < Pow2(63)
    requires tid !in t && Consistent(t, nextId)
    ensures var f := NoUserFaults;
      var (s1, u1, t1, n1) := GetUser(Encode(FormatInt(tid)), t, nextId, headers, f);
      var (s2, u2, t2, n2) := GetUser(Encode(FormatInt(tid)), t1, n1, headers, f);
      && s1 == StatusCreated && s2 == StatusOK && u2 == u1 && t2 == t1
      && u1.value == NewUser(nextId, tid, headers) && n1 == nextId + 1 && n2 == n1
  {
    var p := Encode(FormatInt(tid));
    ParseIntFormatInt(tid, 64);
    assert ParseInt(p, 64) == Some(tid);
    var out1 := GetUser(p, t, nextId, headers, NoUserFaults);
    assert out1.0 == StatusCreated;
    assert tid in out1.2;
  }

  /** The body of PUT /users/:telegram_id/diabetes-info. */
  datatype DiabetesInfoBody = DiabetesInfoBody(diabetesType: int, targetGlucose: real)

  /**
   * PUT /users/:telegram_id/diabetes-info: 400 for a bad ID, 404 for an
   * unknown user, 400 for an invalid body, 500 when the update fails.
   */
  function UpdateDiabetesInfo(param: Bytes, t: Table, body: Option<DiabetesInfoBody>, f: UserFaults)
    : (out: (int, Table))
    ensures out.0 == StatusOK <==>
      && ParseInt(param, 64).Some? && !f.lookupFails && ParseInt(param, 64).value in t
      && body.Some? && ValidDiabetesInfo(body.value.diabetesType, body.value.targetGlucose) && !f.updateFails
    ensures out.0 == StatusOK ==>
      out.1 == SetDiabetesInfo(t, t[ParseInt(param, 64).value].id, body.value.diabetesType, body.value.targetGlucose)
    ensures out.0 != StatusOK ==> out.1 == t
    ensures out.0 == StatusNotFound <==> ParseInt(param, 64).Some? && Lookup(t, ParseInt(param, 64).value, f.lookupFails).Failure?
  {
    match ParseInt(param, 64)
    case None => (StatusBadRequest, t)
    case Some(tid) =>
      match Lookup(t, tid, f.lookupFails)
      case Failure(_) => (StatusNotFound, t)
      case Success(u) =>
        if body.None? || !ValidDiabetesInfo(body.value.diabetesType, body.value.targetGlucose) then (StatusBadRequest, t)
        else if f.updateFails then (StatusInternalServerError, t)
        else (StatusOK, SetDiabetesInfo(t, u.id, body.value.diabetesType, body.value.targetGlucose))
  }

  /** The stored medical fields after a successful update are those of the request, for that user only. */
  lemma DiabetesInfoStored(param: Bytes, t: Table, nextId: nat, body: DiabetesInfoBody, f: UserFaults)
    requires Consistent(t, nextId)
    requires UpdateDiabetesInfo(param, t, Some(body), f).0 == StatusOK
    ensures var tid := ParseInt(param, 64).value;
      var t1 := UpdateDiabetesInfo(param, t, Some(body), f).1;
      && t1[tid].diabetesType == Some(body.diabetesType) && t1[tid].targetGlucose == Some(body.targetGlucose)
      && (forall o :: o in t && o != tid ==> t1[o] == t[o])
  {
  }

  /**
   * DELETE /glucose/:id and /food/:id: the record ID and the `user_id`
   * query are parsed as 32-bit unsigned numbers before anything else.
   * Returns the status and whether the service was asked to delete.
   */
  function DeleteRecord(idParam: Bytes, userIdQuery: Bytes, deleteFails: bool): (out: (int, bool))
    ensures out.0 == StatusBadRequest <==> ParseUint(idParam, 32).None? || ParseUint(userIdQuery, 32).None?
    ensures out.1 <==> out.0 != StatusBadRequest
    ensures out.0 == StatusOK <==> out.1 && !deleteFails
  {
    if ParseUint(idParam, 32).None? then (StatusBadRequest, false)
    else if ParseUint(userIdQuery, 32).None? then (StatusBadRequest, false)
    else if deleteFails then (StatusInternalServerError, true)
    else (StatusOK, true)
  }

  /** A delete without a `user_id` query is refused before the service is reached. */
  lemma DeleteNeedsUserId(idParam: Bytes, deleteFails: bool)
    ensures DeleteRecord(idParam, [], deleteFails) == (StatusBadRequest, false)
  {
  }

  /**
   * POST /glucose: 400 when the body does not bind, 404 when the Telegram
   * ID is unknown, 500 when the insert fails, 201 otherwise.
   */
  function CreateGlucoseStatus(body: Option<GlucoseBody>, t: Table, lookupFails: bool, insertFails: bool): (status: int)
    ensures status == StatusBadRequest <==> body.None? || !BindsForCreate(body.value)
    ensures status == StatusNotFound <==>
      body.Some? && BindsForCreate(body.value) && Lookup(t, body.value.userId, lookupFails).Failure?
    ensures status == StatusCreated <==>
      body.Some? && BindsForCreate(body.value) && !lookupFails && body.value.userId in t && !insertFails
  {
    if body.None? || !BindsForCreate(body.value) then StatusBadRequest
    else if Lookup(t, body.value.userId, lookupFails).Failure? then StatusNotFound
    else if insertFails then StatusInternalServerError
    else StatusCreated
  }

  /**
   * PUT /glucose/:id: 400 for a record ID that is not a 32-bit unsigned
   * number or a body that does not bind, 500 when the update fails, 200
   * otherwise.
   */
  function UpdateGlucoseStatus(idParam: Bytes, body: Option<GlucoseBody>, updateFails: bool): (status: int)
    ensures status == StatusOK <==>
      ParseUint(idParam, 32).Some? && body.Some? && BindsForUpdate(body.value) && !updateFails
    ensures status == StatusBadRequest <==>
      ParseUint(idParam, 32).None? || body.None? || !BindsForUpdate(body.value)
  {
    if ParseUint(idParam, 32).None? then StatusBadRequest
    else if body.None? || !BindsForUpdate(body.value) then StatusBadRequest
    else if updateFails then StatusInternalServerError
    else StatusOK
  }

  /** A glucose value outside 1..30 mmol/L is refused whatever else the request holds. */
  lemma GlucoseBoundsEnforced(idParam: Bytes, t: Table, userId: int, value: real, lookupFails: bool, fails: bool)
    requires value < 1.0 || value > 30.0
    ensures CreateGlucoseStatus(Some(GlucoseBody(userId, value)), t, lookupFails, fails) == StatusBadRequest
    ensures UpdateGlucoseStatus(idParam, Some(GlucoseBody(userId, value)), fails) == StatusBadRequest
  {
  }

  /**
   * The two glucose bodies bind owner IDs of different types: a negative
   * ID fits create's int64 but not update's uint, and 2^63 fits update's
   * uint but not create's int64.
   */
  lemma OwnerIdTypesDiffer(idParam: Bytes, t: Table, lookupFails: bool, fails: bool)
    requires ParseUint(idParam, 32).Some?
    ensures UpdateGlucoseStatus(idParam, Some(GlucoseBody(-5, 5.0)), fails) == StatusBadRequest
    ensures CreateGlucoseStatus(Some(GlucoseBody(-5, 5.0)), t, lookupFails, fails) != StatusBadRequest
    ensures CreateGlucoseStatus(Some(GlucoseBody(Pow2(63), 5.0)), t, lookupFails, fails) == StatusBadRequest
    ensures UpdateGlucoseStatus(idParam, Some(GlucoseBody(Pow2(63), 5.0)), fails) != StatusBadRequest
  {
    OwnerIdBindings();
  }

  /** -5 binds only as an int64, 2^63 only as a uint64. */
  lemma OwnerIdBindings()
    ensures BindsForCreate(GlucoseBody(-5, 5.0)) && !BindsForUpdate(GlucoseBody(-5, 5.0))
    ensures !BindsForCreate(GlucoseBody(Pow2(63), 5.0)) && BindsForUpdate(GlucoseBody(Pow2(63), 5.0))
  {
    assert Pow2(0) == 1;
    Pow2Monotone(0, 63);
    assert Pow2(64) == 2 * Pow2(63);
  }
}
