/**
 * The recordings screen's view model (`RecordingsViewModel`): the service
 * indicator, the sets of expanded day and hour nodes, today's statistics and
 * the duration and size formatters. LiveData fields are plain fields.
 */
module RecordingsViewModel {
  import opened Wrappers
  import opened Text
  import opened RecordingData
  import opened RecordingDao

  datatype ServiceState = Stopped | Running

  datatype TodayStats = TodayStats(count: int, durationMs: int)

  /** Adds `x` when absent, removes it when present. */
  function Toggle(s: set<string>, x: string): (r: set<string>)
    ensures x in r <==> x !in s
    ensures forall y :: y != x ==> (y in r <==> y in s)
  {
    if x in s then s - {x} else s + {x}
  }

  /** Toggling the same key twice restores the set. */
  lemma ToggleTwice(s: set<string>, x: string)
    ensures Toggle(Toggle(s, x), x) == s
  {
    var t := Toggle(Toggle(s, x), x);
    forall y ensures y in t <==> y in s {
      if y != x {
        assert y in Toggle(s, x) <==> y in s;
      }
    }
  }

  /** Toggles of different keys commute. */
  lemma ToggleCommutes(s: set<string>, x: string, y: string)
    ensures Toggle(Toggle(s, x), y) == Toggle(Toggle(s, y), x)
  {
    var a := Toggle(Toggle(s, x), y);
    var b := Toggle(Toggle(s, y), x);
    forall z ensures z in a <==> z in b {
      if z == x && z != y {
        assert z in Toggle(s, y) <==> z in s;
      } else if z == y && z != x {
        assert z in Toggle(s, x) <==> z in s;
      }
    }
  }

  // ---------------------------------------------------------------- formatDuration

  /** Which of the three forms `formatDuration` shows, with the numbers it prints. */
  datatype DurationView =
    | HoursMinutes(hours: int, minutes: int)
    | MinutesSeconds(minutes: int, seconds: int)
    | Seconds(seconds: int)

  /** The `when` of `formatDuration`, with Kotlin's truncating `/` and `%` on `Long`. */
  function DurationViewOf(ms: int): DurationView {
    var seconds := TDiv(ms, 1000);
    var minutes := TDiv(seconds, 60);
    var hours := TDiv(minutes, 60);
    if hours > 0 then HoursMinutes(hours, TRem(minutes, 60))
    else if minutes > 0 then MinutesSeconds(minutes, TRem(seconds, 60))
    else Seconds(seconds)
  }

  function RenderDuration(v: DurationView): string {
    match v
    case HoursMinutes(h, m) => IntToString(h) + "小时" + IntToString(m) + "分"
    case MinutesSeconds(m, s) => IntToString(m) + "分" + IntToString(s) + "秒"
    case Seconds(s) => IntToString(s) + "秒"
  }

  /** `formatDuration` */
  function FormatDuration(ms: int): string {
    RenderDuration(DurationViewOf(ms))
  }

  /**
   * For a non-negative duration the shown form is chosen by magnitude, and the
   * printed numbers are the duration rounded down to whole minutes (from one
   * hour on) or whole seconds (below one hour).
   */
  lemma DurationViewMeaning(ms: int)
    requires ms >= 0
    ensures match DurationViewOf(ms)
      case HoursMinutes(h, m) =>
        ms >= 3600000 && 0 <= m < 60 && h * 3600000 + m * 60000 <= ms < h * 3600000 + m * 60000 + 60000
      case MinutesSeconds(m, s) =>
        60000 <= ms < 3600000 && 1 <= m < 60 && 0 <= s < 60 && m * 60000 + s * 1000 <= ms < m * 60000 + s * 1000 + 1000
      case Seconds(s) =>
        ms < 60000 && s * 1000 <= ms < s * 1000 + 1000
  {
    var seconds := ms / 1000;
    var minutes := seconds / 60;
    var hours := minutes / 60;
    assert seconds * 1000 <= ms < seconds * 1000 + 1000;
    assert minutes * 60 <= seconds < minutes * 60 + 60;
    assert hours * 60 <= minutes < hours * 60 + 60;
  }

  /** A negative duration (which the service never stores) prints as negative seconds, truncated toward zero. */
  lemma NegativeDurationShowsSeconds(ms: int)
    requires ms < 0
    ensures DurationViewOf(ms) == Seconds(-((-ms) / 1000))
  {
  }

  // ---------------------------------------------------------------- formatFileSize

  datatype SizeView = Megabytes(mb: int) | Kilobytes(kb: int) | Bytes(b: int)

  /** The `when` of `formatFileSize`. */
  function SizeViewOf(bytes: int): SizeView {
    if bytes >= 1024 * 1024 then Megabytes(bytes / (1024 * 1024))
    else if bytes >= 1024 then Kilobytes(bytes / 1024)
    else Bytes(bytes)
  }

  function RenderSize(v: SizeView): string {
    match v
    case Megabytes(n) => IntToString(n) + "MB"
    case Kilobytes(n) => IntToString(n) + "KB"
    case Bytes(n) => IntToString(n) + "B"
  }

  /** `formatFileSize` */
  function FormatFileSize(bytes: int): string {
    RenderSize(SizeViewOf(bytes))
  }

  /** The largest unit that is at least one is shown, and the count is rounded down. */
  lemma SizeViewMeaning(bytes: int)
    ensures match SizeViewOf(bytes)
      case Megabytes(n) => n >= 1 && n * 1048576 <= bytes < n * 1048576 + 1048576
      case Kilobytes(n) => 1 <= n < 1024 && n * 1024 <= bytes < n * 1024 + 1024
      case Bytes(n) => n == bytes < 1024
  {
  }

  // ---------------------------------------------------------------- the view model

  class RecordingsViewModel {
    var serviceState: ServiceState
    var expandedDays: set<string>
    var expandedHours: set<string>
    var todayStats: TodayStats

    /** Starts stopped with nothing expanded, and loads today's statistics (`init`). */
    constructor (rows: seq<Recording>, today: string)
      ensures serviceState == Stopped && expandedDays == {} && expandedHours == {}
      ensures todayStats == TodayStats(GetTodayCount(rows, today), GetTodayDuration(rows, today))
    {
      serviceState := Stopped;
      expandedDays := {};
      expandedHours := {};
      todayStats := TodayStats(GetTodayCount(rows, today), GetTodayDuration(rows, today));
    }

    /** `updateServiceState` */
    method UpdateServiceState(isRunning: bool)
      modifies this
      ensures serviceState == (if isRunning then Running else Stopped)
      ensures expandedDays == old(expandedDays) && expandedHours == old(expandedHours) && todayStats == old(todayStats)
    {
      serviceState := if isRunning then Running else Stopped;
    }

    /** `toggleDayExpansion`: flips `day` and nothing else. */
    method ToggleDayExpansion(day: string)
      modifies this
      ensures expandedDays == Toggle(old(expandedDays), day)
      ensures serviceState == old(serviceState) && expandedHours == old(expandedHours) && todayStats == old(todayStats)
    {
      var current := expandedDays;
      var newSet := if day in current then current - {day} else current + {day};
      expandedDays := newSet;
    }

    /** `toggleHourExpansion`: flips `hourKey` and nothing else. */
    method ToggleHourExpansion(hourKey: string)
      modifies this
      ensures expandedHours == Toggle(old(expandedHours), hourKey)
      ensures serviceState == old(serviceState) && expandedDays == old(expandedDays) && todayStats == old(todayStats)
    {
      var current := expandedHours;
      var newSet := if hourKey in current then current - {hourKey} else current + {hourKey};
      expandedHours := newSet;
    }

    /** `updateTodayStats`: the count and total duration of today's rows. */
    method UpdateTodayStats(rows: seq<Recording>, today: string)
      modifies this
      ensures todayStats == TodayStats(GetTodayCount(rows, today), GetTodayDuration(rows, today))
      ensures serviceState == old(serviceState) && expandedDays == old(expandedDays) && expandedHours == old(expandedHours)
    {
      var count := GetTodayCount(rows, today);
      var duration := GetTodayDuration(rows, today);
      todayStats := TodayStats(count, duration);
    }
  }

  /** Toggling a day twice leaves the view model as it was. */
  method ToggleDayTwice(vm: RecordingsViewModel, day: string)
    modifies vm
    ensures vm.expandedDays == old(vm.expandedDays)
    ensures vm.expandedHours == old(vm.expandedHours)
  {
    vm.ToggleDayExpansion(day);
    vm.ToggleDayExpansion(day);
    ToggleTwice(old(vm.expandedDays), day);
  }
}
