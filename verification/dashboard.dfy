/**
 * The dashboard page: loads the week's statistics and the latest reading
 * for the signed-in user, then shows the latest reading with its status,
 * and either the statistics card or the empty state.
 */
module Dashboard {
  import opened Wrappers
  import opened Readings

  /** The statistics the server returns for a period; `count` is a row count. */
  datatype GlucoseStats = GlucoseStats(average: real, min: real, max: real, count: nat)

  /** A request the page sends to the server. */
  datatype Request = StatsRequest(userId: int, days: int) | RecordsRequest(userId: int, days: int)

  /** The joint outcome of the two requests: both answers, or a failure of either. */
  datatype Fetched = Fetched(stats: Option<GlucoseStats>, records: seq<GlucoseRecord>) | FetchFailed

  const LoadError := "Ошибка загрузки данных"

  /** The statistics period and the records period the page asks for, in days. */
  const StatsDays := 7
  const RecordsDays := 1

  /** `getGlucoseStatus`: the CSS class of a reading. */
  function GlucoseStatus(v: real): (cssClass: string)
    ensures cssClass == ClassOfBand(BandOf(v))
  {
    if v < 3.9 then "glucose-low" else if v > 7.8 then "glucose-high" else "glucose-normal"
  }

  /** `getGlucoseStatusText`: the status shown under a reading. */
  function GlucoseStatusText(v: real): (status: string)
    ensures status == TextOfBand(BandOf(v))
  {
    if v < 3.9 then "Низкий" else if v > 7.8 then "Высокий" else "Нормальный"
  }

  function ClassOfBand(b: Band): string
  {
    match b
    case Low => "glucose-low"
    case Normal => "glucose-normal"
    case High => "glucose-high"
  }

  function TextOfBand(b: Band): string
  {
    match b
    case Low => "Низкий"
    case Normal => "Нормальный"
    case High => "Высокий"
  }

  /** Different bands get different classes and different texts. */
  lemma StatusDistinguishesBands(a: real, b: real)
    ensures GlucoseStatus(a) == GlucoseStatus(b) <==> BandOf(a) == BandOf(b)
    ensures GlucoseStatusText(a) == GlucoseStatusText(b) <==> BandOf(a) == BandOf(b)
  {
    assert "glucose-low"[8] != "glucose-high"[8] && "glucose-low"[8] != "glucose-normal"[8];
    assert "glucose-high"[8] != "glucose-normal"[8];
    assert "Низкий"[1] != "Высокий"[1] && "Низкий"[1] != "Нормальный"[1];
    assert "Высокий"[1] != "Нормальный"[1];
  }

  /** The three readings of the page's tests: 3.5 is low, 8.5 high, 6.5 normal. */
  lemma StatusExamples()
    ensures GlucoseStatusText(3.5) == "Низкий" && GlucoseStatus(3.5) == "glucose-low"
    ensures GlucoseStatusText(8.5) == "Высокий" && GlucoseStatus(8.5) == "glucose-high"
    ensures GlucoseStatusText(6.5) == "Нормальный" && GlucoseStatus(6.5) == "glucose-normal"
  {
  }

  /** The latest-reading card: the value, its class and its status text. */
  datatype RecentCard = RecentCard(value: real, cssClass: string, status: string)

  datatype PageView =
    | Loading
    | ErrorView(message: string)
    | Page(recent: Option<RecentCard>, statsCard: Option<GlucoseStats>, emptyState: bool)

  /** What the page renders for a given state. */
  function Render(stats: Option<GlucoseStats>, recent: Option<GlucoseRecord>, loading: bool, error: Option<string>)
    : (v: PageView)
    ensures loading ==> v == Loading
    ensures !loading && error.Some? && error.value != "" ==> v == ErrorView(error.value)
    // a loaded page shows the statistics card or the empty state, never both
    ensures v.Page? ==> (v.statsCard.Some? <==> !v.emptyState)
  {
    if loading then Loading
    else if error.Some? && error.value != "" then ErrorView(error.value)
    else
      Page(
        if recent.Some? then
          Some(RecentCard(recent.value.value, GlucoseStatus(recent.value.value), GlucoseStatusText(recent.value.value)))
        else None,
        if stats.Some? && stats.value.count > 0 then stats else None,
        stats.None? || stats.value.count == 0)
  }

  /**
   * Once loaded without error, the page shows exactly one of the
   * statistics card and the empty state: the card exactly when there are
   * statistics with at least one reading. The latest-reading card appears
   * exactly when a latest record is held.
   */
  lemma CardOrEmptyState(stats: Option<GlucoseStats>, recent: Option<GlucoseRecord>, error: Option<string>)
    requires error.None?
    ensures var v := Render(stats, recent, false, error);
      && v.Page?
      && (v.statsCard.Some? <==> stats.Some? && stats.value.count > 0)
      && (v.statsCard.Some? <==> !v.emptyState)
      && (v.recent.Some? <==> recent.Some?)
      && (v.recent.Some? ==> v.recent.value.status == TextOfBand(BandOf(recent.value.value)))
  {
  }

  /** The page's state. */
  class DashboardPage {
    const userId: int
    var stats: Option<GlucoseStats>
    var recentRecord: Option<GlucoseRecord>
    var loading: bool
    var error: Option<string>
    /** Requests sent so far, in order. */
    var requests: seq<Request>

    constructor(userId: int)
      ensures this.userId == userId
      ensures stats.None? && recentRecord.None? && loading && error.None? && requests == []
    {
      this.userId := userId;
      stats := None;
      recentRecord := None;
      loading := true;
      error := None;
      requests := [];
    }

    function View(): PageView
      reads this
    {
      Render(stats, recentRecord, loading, error)
    }

    /**
     * `fetchData`: both requests go out together; on success the
     * statistics are replaced and the latest record only when the server
     * returned one; on failure the error message is set and the data kept.
     */
    method FetchData(response: Fetched)
      modifies this
      ensures requests == old(requests) + [StatsRequest(userId, StatsDays), RecordsRequest(userId, RecordsDays)]
      ensures !loading
      ensures response.FetchFailed? ==>
        error == Some(LoadError) && stats == old(stats) && recentRecord == old(recentRecord)
      ensures response.Fetched? ==>
        && error.None?
        && stats == response.stats
        && recentRecord == (if |response.records| > 0 then Some(response.records[0]) else old(recentRecord))
    {
      loading := true;
      error := None;
      requests := requests + [StatsRequest(userId, StatsDays), RecordsRequest(userId, RecordsDays)];
      if response.FetchFailed? {
        error := Some(LoadError);
      } else {
        stats := response.stats;
        if |response.records| > 0 {
          recentRecord := Some(response.records[0]);
        }
      }
      loading := false;
    }
  }

  /** A failed load shows the error message rather than the page. */
  lemma FailedLoadShowsError(stats: Option<GlucoseStats>, recent: Option<GlucoseRecord>)
    ensures Render(stats, recent, false, Some(LoadError)) == ErrorView(LoadError)
  {
  }
}
