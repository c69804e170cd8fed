/**
 * The daily AI-request ledger: one counter per (user, UTC day), at most
 * `DailyAIRequestLimit` per day. The database table is the map `table`; a
 * failing read, insert, update or delete of the database is a parameter.
 */
module AiUsage {
  import opened Wrappers

  /** Maximum number of AI requests a user may make per UTC day. */
  const DailyAIRequestLimit: int := 10

  type UserId = nat

  /** A UTC calendar day, counted in days since the Unix epoch. */
  type Day = int

  /** The unique index (user_id, date) of the usage table. */
  type Key = (UserId, Day)

  datatype LedgerError = ReadFailed | CreateFailed | SaveFailed | DeleteFailed

  /** Which database operations of one call fail. */
  datatype StoreFaults = StoreFaults(readFails: bool, createFails: bool, saveFails: bool)

  const NoFaults := StoreFaults(false, false, false)

  /** The triple (allowed, remaining, error) a ledger check answers. */
  datatype Verdict = Verdict(allowed: bool, remaining: int, err: Option<LedgerError>)

  /** The counter stored for `k`, 0 when no row exists. */
  function CountOf(t: map<Key, int>, k: Key): int
  {
    if k in t then t[k] else 0
  }

  /** Every stored counter lies in 1..DailyAIRequestLimit. */
  predicate Bounded(t: map<Key, int>)
  {
    forall k :: k in t ==> 1 <= t[k] <= DailyAIRequestLimit
  }

  /**
   * One CheckAndIncrementUsage call: the verdict and the table afterwards.
   */
  function Check(t: map<Key, int>, k: Key, f: StoreFaults): (out: (Verdict, map<Key, int>))
    // an error always refuses and reports nothing remaining
    ensures out.0.err.Some? ==> !out.0.allowed && out.0.remaining == 0
    // a refusal leaves every row as it was
    ensures !out.0.allowed ==> out.1 == t
    // an admission increments exactly the row of (user, day) and reports what is left
    ensures out.0.allowed ==>
      out.1 == t[k := CountOf(t, k) + 1] && out.0.remaining == DailyAIRequestLimit - out.1[k]
    // admitted exactly when the row can be read, is below the limit and can be written
    ensures out.0.allowed <==>
      !f.readFails && CountOf(t, k) < DailyAIRequestLimit
      && (if k in t then !f.saveFails else !f.createFails)
    // a refusal without an error means the limit was reached
    ensures !out.0.allowed && out.0.err.None? ==> CountOf(t, k) >= DailyAIRequestLimit
    ensures Bounded(t) ==> Bounded(out.1)
  {
    if f.readFails then (Verdict(false, 0, Some(ReadFailed)), t)
    else if k !in t then
      if f.createFails then (Verdict(false, 0, Some(CreateFailed)), t)
      else (Verdict(true, DailyAIRequestLimit - 1, None), t[k := 1])
    else if t[k] >= DailyAIRequestLimit then (Verdict(false, 0, None), t)
    else if f.saveFails then (Verdict(false, 0, Some(SaveFailed)), t)
    else (Verdict(true, DailyAIRequestLimit - (t[k] + 1), None), t[k := t[k] + 1])
  }

  /** What GetRemainingRequests answers for a counter value. */
  function Remaining(t: map<Key, int>, k: Key): (r: int)
    ensures r >= 0
    ensures r == 0 <==> CountOf(t, k) >= DailyAIRequestLimit
    ensures CountOf(t, k) <= DailyAIRequestLimit ==> CountOf(t, k) + r == DailyAIRequestLimit
  {
    if DailyAIRequestLimit - CountOf(t, k) < 0 then 0 else DailyAIRequestLimit - CountOf(t, k)
  }

  /** The table after the cleanup job: rows dated before yesterday are gone. */
  function Purge(t: map<Key, int>, today: Day): (r: map<Key, int>)
    ensures forall k :: k in r <==> k in t && k.1 >= today - 1
    ensures forall k :: k in r ==> r[k] == t[k]
  {
    map k | k in t && k.1 >= today - 1 :: t[k]
  }

  function Min(a: int, b: int): int
  {
    if a <= b then a else b
  }

  /** `n` fault-free checks for one key: how many were admitted, and the final table. */
  function Run(t: map<Key, int>, k: Key, n: nat): (int, map<Key, int>)
    decreases n
  {
    if n == 0 then (0, t)
    else
      var (v, t1) := Check(t, k, NoFaults);
      var (a, t2) := Run(t1, k, n - 1);
      ((if v.allowed then 1 else 0) + a, t2)
  }

  /**
   * However many requests a user makes in one day, exactly
   * min(n, limit - used) are admitted, the counter never passes the
   * limit, and no other user's or day's counter changes.
   */
  lemma {:induction false} RunAdmitsUpToLimit(t: map<Key, int>, k: Key, n: nat)
    requires Bounded(t)
    ensures Run(t, k, n).0 == Min(n, DailyAIRequestLimit - CountOf(t, k))
    ensures CountOf(Run(t, k, n).1, k) == Min(CountOf(t, k) + n, DailyAIRequestLimit)
    ensures forall j :: j != k ==> (j in Run(t, k, n).1 <==> j in t)
    ensures forall j :: j != k && j in t ==> Run(t, k, n).1[j] == t[j]
    ensures Bounded(Run(t, k, n).1)
    decreases n
  {
    if n > 0 {
      var (v, t1) := Check(t, k, NoFaults);
      RunAdmitsUpToLimit(t1, k, n - 1);
    }
  }

  /** On a fresh day a user gets exactly min(n, 10) admissions out of n requests. */
  lemma FreshDayAdmissions(t: map<Key, int>, k: Key, n: nat)
    requires Bounded(t) && k !in t
    ensures Run(t, k, n).0 == Min(n, 10)
  {
    RunAdmitsUpToLimit(t, k, n);
  }

  /** Admissions report between 0 and 9 remaining requests. */
  lemma AdmittedRemaining(t: map<Key, int>, k: Key, f: StoreFaults)
    requires Bounded(t)
    ensures Check(t, k, f).0.allowed ==> 0 <= Check(t, k, f).0.remaining <= DailyAIRequestLimit - 1
  {
    var out := Check(t, k, f);
    if out.0.allowed {
      assert Bounded(out.1) && k in out.1;
    }
  }

  /** The cleanup keeps today's and yesterday's rows and drops older ones. */
  lemma PurgeScenario(u: UserId, today: Day)
    ensures var t := map[(u, today) := 3, (u, today - 1) := 10, (u, today - 3) := 7];
      Purge(t, today) == map[(u, today) := 3, (u, today - 1) := 10]
  {
    var t := map[(u, today) := 3, (u, today - 1) := 10, (u, today - 3) := 7];
    var p := Purge(t, today);
    assert (u, today - 3) !in p;
    assert p.Keys == {(u, today), (u, today - 1)};
  }

  /**
   * The usage ledger service; `table` holds the visible rows of the usage
   * table keyed by (user, day).
   */
  class AIUsageService {
    var table: map<Key, int>

    ghost predicate Valid()
      reads this
    {
      Bounded(table)
    }

    /** A service over the rows the usage table already holds. */
    constructor(rows: map<Key, int>)
      requires Bounded(rows)
      ensures Valid() && table == rows
    {
      table := rows;
    }

    /** Checks the daily limit for (userID, today) and counts the request when admitted. */
    method CheckAndIncrementUsage(userID: UserId, today: Day, faults: StoreFaults)
      returns (allowed: bool, remaining: int, err: Option<LedgerError>)
      requires Valid()
      modifies this
      ensures Valid()
      ensures (Verdict(allowed, remaining, err), table) == Check(old(table), (userID, today), faults)
    {
      var key := (userID, today);
      if faults.readFails {
        return false, 0, Some(ReadFailed);
      }
      if key !in table {
        if faults.createFails {
          return false, 0, Some(CreateFailed);
        }
        table := table[key := 1];
        return true, DailyAIRequestLimit - 1, None;
      }
      var requestCount := table[key];
      if requestCount >= DailyAIRequestLimit {
        return false, 0, None;
      }
      requestCount := requestCount + 1;
      if faults.saveFails {
        return false, 0, Some(SaveFailed);
      }
      table := table[key := requestCount];
      remaining := DailyAIRequestLimit - requestCount;
      return true, remaining, None;
    }

    /** The counter for (userID, today); 0 when there is no row. */
    method GetUsageToday(userID: UserId, today: Day, readFails: bool)
      returns (used: int, err: Option<LedgerError>)
      requires Valid()
      ensures err.Some? <==> readFails
      ensures err.None? ==> used == CountOf(table, (userID, today))
      ensures err.None? ==> 0 <= used <= DailyAIRequestLimit
      ensures err.Some? ==> used == 0 && err == Some(ReadFailed)
    {
      if readFails {
        return 0, Some(ReadFailed);
      }
      var key := (userID, today);
      if key !in table {
        return 0, None;
      }
      return table[key], None;
    }

    /** How many requests (userID, today) may still make; never negative. */
    method GetRemainingRequests(userID: UserId, today: Day, readFails: bool)
      returns (remaining: int, err: Option<LedgerError>)
      requires Valid()
      ensures err.Some? <==> readFails
      ensures err.None? ==> remaining == Remaining(table, (userID, today))
      ensures err.None? ==> remaining + CountOf(table, (userID, today)) == DailyAIRequestLimit
      ensures err.Some? ==> remaining == 0
    {
      var used;
      used, err := GetUsageToday(userID, today, readFails);
      if err.Some? {
        return 0, err;
      }
      remaining := DailyAIRequestLimit - used;
      if remaining < 0 {
        remaining := 0;
      }
    }

    /** Deletes every row dated before yesterday. */
    method ResetDailyUsage(today: Day, deleteFails: bool) returns (err: Option<LedgerError>)
      requires Valid()
      modifies this
      ensures Valid()
      ensures err.Some? <==> deleteFails
      ensures table == if deleteFails then old(table) else Purge(old(table), today)
    {
      if deleteFails {
        return Some(DeleteFailed);
      }
      table := map k | k in table && k.1 >= today - 1 :: table[k];
      return None;
    }
  }
}
