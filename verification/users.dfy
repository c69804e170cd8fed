/**
 * The user table and its service. Telegram IDs are unique in the table,
 * so the table is a map keyed by Telegram ID; the primary key `id` is
 * assigned from an auto-increment counter. Failing database calls are
 * parameters.
 */
module Users {
  import opened Wrappers
  import opened Models

  datatype StoreError = NotFound | QueryFailed | InsertFailed | UpdateFailed

  /** The Telegram profile fields a message carries. */
  datatype Profile = Profile(username: string, firstName: string, lastName: string, languageCode: string)

  /** Which database calls of one GetOrCreateUser fail. */
  datatype UserFaults = UserFaults(lookupFails: bool, insertFails: bool, updateFails: bool)

  /** The user rows, keyed by Telegram ID. */
  type Table = map<int, User>

  /** Each row sits under its own Telegram ID, and primary keys are distinct and already issued. */
  predicate Consistent(t: Table, nextId: nat)
  {
    && (forall tid :: tid in t ==> t[tid].telegramId == tid && t[tid].id < nextId)
    && (forall a, b :: a in t && b in t && a != b ==> t[a].id != t[b].id)
  }

  /** The row inserted for a new Telegram ID; an empty language takes the column default 'ru'. */
  function NewUser(id: nat, tid: int, p: Profile): (u: User)
    ensures u.id == id && u.telegramId == tid && u.isActive
    ensures u.username == p.username && u.firstName == p.firstName && u.lastName == p.lastName
    ensures u.languageCode == (if p.languageCode == "" then "ru" else p.languageCode)
    ensures u.diabetesType.None? && u.targetGlucose.None?
  {
    User(id, tid, p.username, p.firstName, p.lastName,
         if p.languageCode == "" then "ru" else p.languageCode, true, None, None)
  }

  /** A known user after a message: the profile overwritten, active again, everything else kept. */
  function Refreshed(u: User, p: Profile): (r: User)
    ensures r.id == u.id && r.telegramId == u.telegramId && r.isActive
    ensures r.username == p.username && r.firstName == p.firstName
    ensures r.lastName == p.lastName && r.languageCode == p.languageCode
    ensures r.diabetesType == u.diabetesType && r.targetGlucose == u.targetGlucose
  {
    u.(username := p.username, firstName := p.firstName, lastName := p.lastName,
       languageCode := p.languageCode, isActive := true)
  }

  /** GetOrCreateUser: the answer, the table afterwards and the next primary key. */
  function Upsert(t: Table, nextId: nat, tid: int, p: Profile, f: UserFaults): (out: (Result<User, StoreError>, Table, nat))
    // a failure changes nothing and returns no user
    ensures out.0.Failure? ==> out.1 == t && out.2 == nextId
    ensures out.0.Failure? <==>
      f.lookupFails || (tid !in t && f.insertFails) || (tid in t && f.updateFails)
    // success: the returned user is the row now stored under tid, and no other row changes
    ensures out.0.Success? ==> tid in out.1 && out.1[tid] == out.0.value
    ensures out.0.Success? ==> out.1 == t[tid := out.0.value]
    ensures out.0.Success? && tid !in t ==> out.0.value == NewUser(nextId, tid, p) && out.2 == nextId + 1
    ensures out.0.Success? && tid in t ==> out.0.value == Refreshed(t[tid], p) && out.2 == nextId
    ensures Consistent(t, nextId) ==> Consistent(out.1, out.2)
  {
    if f.lookupFails then (Failure(QueryFailed), t, nextId)
    else if tid !in t then
      if f.insertFails then (Failure(InsertFailed), t, nextId)
      else
        var u := NewUser(nextId, tid, p);
        (Success(u), t[tid := u], nextId + 1)
    else if f.updateFails then (Failure(UpdateFailed), t, nextId)
    else
      var u := Refreshed(t[tid], p);
      (Success(u), t[tid := u], nextId)
  }

  /** GetByTelegramID. */
  function Lookup(t: Table, tid: int, lookupFails: bool): (r: Result<User, StoreError>)
    ensures r.Success? <==> !lookupFails && tid in t
    ensures r.Success? ==> r.value == t[tid]
    ensures r.Failure? ==> r.error == (if lookupFails then QueryFailed else NotFound)
  {
    if lookupFails then Failure(QueryFailed)
    else if tid in t then Success(t[tid])
    else Failure(NotFound)
  }

  /** UpdateDiabetesInfo: the row with primary key `id`, if any, gets the two medical fields. */
  function SetDiabetesInfo(t: Table, id: nat, diabetesType: int, targetGlucose: real): (r: Table)
    ensures r.Keys == t.Keys
    ensures forall tid :: tid in t && t[tid].id != id ==> r[tid] == t[tid]
    ensures forall tid :: tid in t && t[tid].id == id ==>
      r[tid] == t[tid].(diabetesType := Some(diabetesType), targetGlucose := Some(targetGlucose))
  {
    map tid | tid in t ::
      if t[tid].id == id then t[tid].(diabetesType := Some(diabetesType), targetGlucose := Some(targetGlucose))
      else t[tid]
  }

  const NoUserFaults := UserFaults(false, false, false)

  /**
   * A second call with the same profile keeps the user's primary key and
   * issues none; it returns the same user and table unless the first call
   * inserted an empty language, which the second overwrites.
   */
  lemma UpsertIdempotent(t: Table, nextId: nat, tid: int, p: Profile)
    requires Consistent(t, nextId)
    ensures var (r1, t1, n1) := Upsert(t, nextId, tid, p, NoUserFaults);
      var (r2, t2, n2) := Upsert(t1, n1, tid, p, NoUserFaults);
      && r1.Success? && r2.Success? && r2.value.id == r1.value.id && n2 == n1
      && (p.languageCode != "" || tid in t ==> r2 == r1 && t2 == t1)
  {
  }

  /** An empty language is stored as 'ru' on insert, but as empty on every later message. */
  lemma EmptyLanguageOnlyDefaultsOnInsert(t: Table, nextId: nat, tid: int, p: Profile)
    requires tid !in t && p.languageCode == ""
    ensures var (r1, t1, n1) := Upsert(t, nextId, tid, p, NoUserFaults);
      var (r2, t2, n2) := Upsert(t1, n1, tid, p, NoUserFaults);
      r1.value.languageCode == "ru" && r2.value.languageCode == ""
  {
  }

  /** After a successful call the user is found by Telegram ID, with the primary key it was given. */
  lemma UpsertThenLookup(t: Table, nextId: nat, tid: int, p: Profile, f: UserFaults)
    requires Consistent(t, nextId)
    ensures var (r, t1, n1) := Upsert(t, nextId, tid, p, f);
      r.Success? ==> Lookup(t1, tid, false) == r && (tid in t ==> r.value.id == t[tid].id)
  {
  }

  /** Updating the medical fields keeps the table consistent and touches no profile field. */
  lemma SetDiabetesInfoKeepsProfiles(t: Table, nextId: nat, id: nat, dt: int, tg: real)
    requires Consistent(t, nextId)
    ensures Consistent(SetDiabetesInfo(t, id, dt, tg), nextId)
    ensures forall tid :: tid in t ==>
      var u := SetDiabetesInfo(t, id, dt, tg)[tid];
      u.id == t[tid].id && u.username == t[tid].username && u.isActive == t[tid].isActive
  {
  }

  /** A missing primary key changes nothing (and is no error). */
  lemma SetDiabetesInfoMissingId(t: Table, id: nat, dt: int, tg: real)
    requires forall tid :: tid in t ==> t[tid].id != id
    ensures SetDiabetesInfo(t, id, dt, tg) == t
  {
    var r := SetDiabetesInfo(t, id, dt, tg);
    assert r.Keys == t.Keys;
    assert forall tid :: tid in r ==> r[tid] == t[tid];
  }

  class UserService {
    var users: Table
    var nextId: nat

    ghost predicate Valid()
      reads this
    {
      Consistent(users, nextId)
    }

    constructor()
      ensures Valid() && users == map[] && nextId == 1
    {
      users := map[];
      nextId := 1;
    }

    method GetOrCreateUser(telegramID: int, username: string, firstName: string, lastName: string,
                           languageCode: string, faults: UserFaults)
      returns (r: Result<User, StoreError>)
      requires Valid()
      modifies this
      ensures Valid()
      ensures (r, users, nextId) ==
        Upsert(old(users), old(nextId), telegramID, Profile(username, firstName, lastName, languageCode), faults)
    {
      if faults.lookupFails {
        return Failure(QueryFailed);
      }
      if telegramID !in users {
        var user := User(nextId, telegramID, username, firstName, lastName,
                         if languageCode == "" then "ru" else languageCode, true, None, None);
        if faults.insertFails {
          return Failure(InsertFailed);
        }
        users := users[telegramID := user];
        nextId := nextId + 1;
        return Success(user);
      }
      var user := users[telegramID];
      if faults.updateFails {
        return Failure(UpdateFailed);
      }
      user := user.(username := username, firstName := firstName, lastName := lastName,
                    languageCode := languageCode, isActive := true);
      users := users[telegramID := user];
      return Success(user);
    }

    method GetByTelegramID(telegramID: int, lookupFails: bool) returns (r: Result<User, StoreError>)
      requires Valid()
      ensures r == Lookup(users, telegramID, lookupFails)
    {
      if lookupFails {
        return Failure(QueryFailed);
      }
      if telegramID !in users {
        return Failure(NotFound);
      }
      return Success(users[telegramID]);
    }

    method UpdateDiabetesInfo(userID: nat, diabetesType: int, targetGlucose: real, updateFails: bool)
      returns (err: Option<StoreError>)
      requires Valid()
      modifies this
      ensures Valid()
      ensures err.Some? <==> updateFails
      ensures nextId == old(nextId)
      ensures users == if updateFails then old(users) else SetDiabetesInfo(old(users), userID, diabetesType, targetGlucose)
    {
      if updateFails {
        return Some(UpdateFailed);
      }
      SetDiabetesInfoKeepsProfiles(users, nextId, userID, diabetesType, targetGlucose);
      users := map tid | tid in users ::
        if users[tid].id == userID
        then users[tid].(diabetesType := Some(diabetesType), targetGlucose := Some(targetGlucose))
        else users[tid];
      return None;
    }
  }
}
