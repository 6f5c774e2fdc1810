/**
 * Storage layout and coordination of the database and the file tree
 * (`RecordingRepository`). The clock is a parameter: each reading of it is a
 * `LocalTime` (the calendar fields of the default time zone) or, for
 * `currentTimeMillis`, an integer. Paths are relative to the app's files
 * directory, whose absolute location is not part of this model.
 */
module RecordingRepository {
  import opened Wrappers
  import opened Text
  import Collation
  import opened RecordingData
  import opened RecordingDao

  /** Calendar fields of one clock reading, as `SimpleDateFormat` and `Calendar` see them. */
  datatype LocalTime = LocalTime(year: int, month: int, day: int, hour: int, minute: int, second: int)

  ghost predicate ValidTime(t: LocalTime) {
    0 <= t.year <= 9999 && 1 <= t.month <= 12 && 1 <= t.day <= 31
    && 0 <= t.hour <= 23 && 0 <= t.minute <= 59 && 0 <= t.second <= 59
  }

  const RECORDINGS_DIR: string := "recordings"
  const EXTENSION: string := ".m4a"

  // ---------------------------------------------------------------- names

  /** `getDayFolder`: `yyyy-MM-dd`. */
  function DayFolder(t: LocalTime): (day: string)
    ensures '/' !in day
  {
    FormattedHasNoSlash(t.year, 4);
    FormattedHasNoSlash(t.month, 2);
    FormattedHasNoSlash(t.day, 2);
    FormatPadded(t.year, 4) + "-" + FormatPadded(t.month, 2) + "-" + FormatPadded(t.day, 2)
  }

  /** `getHourFolder`: `HH:00-NN:00` where NN is the next hour, wrapping to 00 after 23. */
  function HourFolder(hour: int): (folder: string)
    ensures '/' !in folder
  {
    FormattedHasNoSlash(hour, 2);
    FormattedHasNoSlash((hour + 1) % 24, 2);
    FormatPadded(hour, 2) + ":00-" + FormatPadded((hour + 1) % 24, 2) + ":00"
  }

  /** `timestampToFileName`: `yyyyMMdd_HHmmss`. */
  function TimestampToFileName(t: LocalTime): string {
    FormatPadded(t.year, 4) + FormatPadded(t.month, 2) + FormatPadded(t.day, 2) + "_"
      + FormatPadded(t.hour, 2) + FormatPadded(t.minute, 2) + FormatPadded(t.second, 2)
  }

  function DayDir(day: string): string { RECORDINGS_DIR + "/" + day }

  function HourDir(day: string, hour: string): string { DayDir(day) + "/" + hour }

  /** `getFileForRecording` with the day and hour folders already read from the clock. */
  function FileFor(day: string, hour: string, fileName: string): string {
    HourDir(day, hour) + "/" + fileName
  }

  /** Two-digit fields read back. */
  lemma Padded2(n: int)
    requires 0 <= n < 100
    ensures |FormatPadded(n, 2)| == 2 && AllDigits(FormatPadded(n, 2)) && ParseDigits(FormatPadded(n, 2)) == n
  {
    FormatPaddedRoundTrip(n, 2);
  }

  lemma Padded4(n: int)
    requires 0 <= n < 10000
    ensures |FormatPadded(n, 4)| == 4 && AllDigits(FormatPadded(n, 4)) && ParseDigits(FormatPadded(n, 4)) == n
  {
    FormatPaddedRoundTrip(n, 4);
  }

  /** The day folder has ten characters, dashes at 4 and 7, and the date reads back from it. */
  lemma DayFolderLayout(t: LocalTime)
    requires ValidTime(t)
    ensures var s := DayFolder(t);
      && |s| == 10 && s[4] == '-' && s[7] == '-'
      && AllDigits(s[0..4]) && AllDigits(s[5..7]) && AllDigits(s[8..10])
      && ParseDigits(s[0..4]) == t.year && ParseDigits(s[5..7]) == t.month && ParseDigits(s[8..10]) == t.day
  {
    Padded4(t.year);
    Padded2(t.month);
    Padded2(t.day);
    var s := DayFolder(t);
    assert s[0..4] == FormatPadded(t.year, 4);
    assert s[5..7] == FormatPadded(t.month, 2);
    assert s[8..10] == FormatPadded(t.day, 2);
  }

  /** Two readings give the same day folder exactly when they fall on the same date. */
  lemma DayFolderInjective(a: LocalTime, b: LocalTime)
    requires ValidTime(a) && ValidTime(b)
    ensures DayFolder(a) == DayFolder(b) <==> (a.year, a.month, a.day) == (b.year, b.month, b.day)
  {
    DayFolderLayout(a);
    DayFolderLayout(b);
  }

  /**
   * The text order of day folders (SQLite's BINARY collation, used by
   * `getAllDays ... ORDER BY dayFolder DESC`) is calendar order.
   */
  lemma DayFolderOrder(a: LocalTime, b: LocalTime)
    requires ValidTime(a) && ValidTime(b)
    ensures Collation.Less(DayFolder(a), DayFolder(b)) <==>
      a.year < b.year || (a.year == b.year && (a.month < b.month || (a.month == b.month && a.day < b.day)))
  {
    Padded4(a.year); Padded4(b.year);
    Padded2(a.month); Padded2(b.month);
    Padded2(a.day); Padded2(b.day);
    var ya, yb := FormatPadded(a.year, 4), FormatPadded(b.year, 4);
    var ma, mb := FormatPadded(a.month, 2), FormatPadded(b.month, 2);
    var da, db := FormatPadded(a.day, 2), FormatPadded(b.day, 2);
    Collation.DigitsLess(ya, yb);
    Collation.DigitsLess(ma, mb);
    Collation.DigitsLess(da, db);
    DashJoinOrder(ya, ma, da, yb, mb, db);
  }

  /** Dash-joined fields of equal widths compare field by field, the first field first. */
  lemma DashJoinOrder(x1: string, x2: string, x3: string, y1: string, y2: string, y3: string)
    requires |x1| == |y1| && |x2| == |y2|
    ensures Collation.Less(x1 + "-" + x2 + "-" + x3, y1 + "-" + y2 + "-" + y3) <==>
      Collation.Less(x1, y1) || (x1 == y1 && (Collation.Less(x2, y2) || (x2 == y2 && Collation.Less(x3, y3))))
  {
    var tx, ty := "-" + x3, "-" + y3;
    DashTail(x2, x3);
    DashTail(y2, y3);
    Collation.LessConcat("-", "-", x3, y3);
    Collation.LessIrreflexive("-");
    Collation.LessConcat(x2, y2, tx, ty);
    var ux, uy := x2 + tx, y2 + ty;
    Collation.LessConcat("-", "-", ux, uy);
    DashJoin(x1, x2, x3);
    DashJoin(y1, y2, y3);
    Collation.LessConcat(x1, y1, "-" + ux, "-" + uy);
  }

  lemma DashTail(x2: string, x3: string)
    ensures x2 + "-" + x3 == x2 + ("-" + x3)
  {
  }

  lemma DashJoin(x1: string, x2: string, x3: string)
    ensures x1 + "-" + x2 + "-" + x3 == x1 + ("-" + (x2 + ("-" + x3)))
  {
  }

  /** The hour folder is `HH:00-NN:00`: eleven characters, HH the hour and NN the hour after it modulo 24. */
  lemma HourFolderLayout(hour: int)
    requires 0 <= hour <= 23
    ensures var s := HourFolder(hour);
      && |s| == 11 && s[2..6] == ":00-" && s[8..] == ":00"
      && AllDigits(s[0..2]) && AllDigits(s[6..8])
      && ParseDigits(s[0..2]) == hour
      && ParseDigits(s[6..8]) == if hour == 23 then 0 else hour + 1
  {
    Padded2(hour);
    Padded2((hour + 1) % 24);
    var s := HourFolder(hour);
    assert s[0..2] == FormatPadded(hour, 2);
    assert s[6..8] == FormatPadded((hour + 1) % 24, 2);
  }

  lemma LastHourWraps()
    ensures HourFolder(23) == "23:00-00:00"
  {
    assert FormatPadded(23, 2) == "23" by {
      assert NatToString(23) == NatToString(2) + [DigitChar(3)];
    }
    assert FormatPadded(0, 2) == "00" by {
      assert NatToString(0) == "0";
      assert Zeros(1) == "0";
    }
  }

  lemma HourFolderInjective(a: int, b: int)
    requires 0 <= a <= 23 && 0 <= b <= 23
    ensures HourFolder(a) == HourFolder(b) <==> a == b
  {
    HourFolderLayout(a);
    HourFolderLayout(b);
  }

  /** `getHoursInDay ... ORDER BY hourFolder DESC` lists the hours of a day latest first. */
  lemma HourFolderOrder(a: int, b: int)
    requires 0 <= a <= 23 && 0 <= b <= 23
    ensures Collation.Less(HourFolder(a), HourFolder(b)) <==> a < b
  {
    Padded2(a);
    Padded2(b);
    var ha, hb := FormatPadded(a, 2), FormatPadded(b, 2);
    var ra := ":00-" + FormatPadded((a + 1) % 24, 2) + ":00";
    var rb := ":00-" + FormatPadded((b + 1) % 24, 2) + ":00";
    assert HourFolder(a) == ha + ra;
    assert HourFolder(b) == hb + rb;
    Collation.DigitsLess(ha, hb);
    Collation.LessConcat(ha, hb, ra, rb);
    if a == b {
      Collation.LessIrreflexive(ra);
    }
  }

  /** The file name is `yyyyMMdd_HHmmss`, and every field reads back from its position. */
  lemma FileNameLayout(t: LocalTime)
    requires ValidTime(t)
    ensures var s := TimestampToFileName(t);
      && |s| == 15 && s[8] == '_'
      && AllDigits(s[0..8]) && AllDigits(s[9..15])
      && ParseDigits(s[0..4]) == t.year && ParseDigits(s[4..6]) == t.month && ParseDigits(s[6..8]) == t.day
      && ParseDigits(s[9..11]) == t.hour && ParseDigits(s[11..13]) == t.minute && ParseDigits(s[13..15]) == t.second
  {
    Padded4(t.year);
    Padded2(t.month); Padded2(t.day);
    Padded2(t.hour); Padded2(t.minute); Padded2(t.second);
    var s := TimestampToFileName(t);
    assert s[0..4] == FormatPadded(t.year, 4);
    assert s[4..6] == FormatPadded(t.month, 2);
    assert s[6..8] == FormatPadded(t.day, 2);
    assert s[9..11] == FormatPadded(t.hour, 2);
    assert s[11..13] == FormatPadded(t.minute, 2);
    assert s[13..15] == FormatPadded(t.second, 2);
    assert s[0..8] == s[0..4] + s[4..6] + s[6..8];
    assert s[9..15] == s[9..11] + s[11..13] + s[13..15];
  }

  /** Readings one second or more apart get different file names. */
  lemma FileNameInjective(a: LocalTime, b: LocalTime)
    requires ValidTime(a) && ValidTime(b)
    requires TimestampToFileName(a) == TimestampToFileName(b)
    ensures a == b
  {
    FileNameLayout(a);
    FileNameLayout(b);
  }

  // ---------------------------------------------------------------- paths

  lemma {:induction false} PrefixOfEqual(p: string, q: string, x: string, y: string)
    requires p + x == q + y && |p| == |q|
    ensures p == q && x == y
  {
    assert p == (p + x)[..|p|];
    assert q == (q + y)[..|q|];
    assert x == (p + x)[|p|..];
    assert y == (q + y)[|q|..];
  }

  /**
   * A file looked up under the folders of another hour is a different path:
   * `saveRecording` does not find a segment that was opened in the previous hour.
   */
  lemma FileForOtherHour(t1: LocalTime, t2: LocalTime, name1: string, name2: string)
    requires ValidTime(t1) && ValidTime(t2) && t1.hour != t2.hour
    ensures FileFor(DayFolder(t1), HourFolder(t1.hour), name1) != FileFor(DayFolder(t2), HourFolder(t2.hour), name2)
  {
    var d1, d2 := DayFolder(t1), DayFolder(t2);
    var h1, h2 := HourFolder(t1.hour), HourFolder(t2.hour);
    assert |d1| == |d2| by { DayFolderLayout(t1); DayFolderLayout(t2); }
    assert |h1| == |h2| by { HourFolderLayout(t1.hour); HourFolderLayout(t2.hour); }
    assert h1 != h2 by { HourFolderInjective(t1.hour, t2.hour); }
    if FileFor(d1, h1, name1) == FileFor(d2, h2, name2) {
      FileForSplits(d1, h1, name1, d2, h2, name2);
    }
  }

  /** With day and hour folders of fixed widths, equal paths have equal hour folders. */
  lemma FileForSplits(d1: string, h1: string, n1: string, d2: string, h2: string, n2: string)
    requires |d1| == |d2| && |h1| == |h2|
    requires FileFor(d1, h1, n1) == FileFor(d2, h2, n2)
    ensures h1 == h2
  {
    var pre1 := RECORDINGS_DIR + "/" + d1 + "/";
    var pre2 := RECORDINGS_DIR + "/" + d2 + "/";
    assert FileFor(d1, h1, n1) == pre1 + (h1 + ("/" + n1));
    assert FileFor(d2, h2, n2) == pre2 + (h2 + ("/" + n2));
    PrefixOfEqual(pre1, pre2, h1 + ("/" + n1), h2 + ("/" + n2));
    PrefixOfEqual(h1, h2, "/" + n1, "/" + n2);
  }

  /** A path strictly inside directory `dir`. */
  predicate Under(dir: string, path: string) {
    |path| > |dir| + 1 && path[..|dir| + 1] == dir + "/"
  }

  /** A directory that exists and lists no entry. */
  predicate IsEmptyDir(files: set<string>, dirs: set<string>, dir: string) {
    dir in dirs && (forall f :: f in files ==> !Under(dir, f)) && (forall d :: d in dirs ==> !Under(dir, d))
  }

  lemma FileIsUnderItsHourDir(day: string, hour: string, name: string)
    requires name != []
    ensures Under(HourDir(day, hour), FileFor(day, hour, name))
    ensures Under(DayDir(day), FileFor(day, hour, name))
    ensures hour != [] ==> Under(DayDir(day), HourDir(day, hour))
  {
    var f := FileFor(day, hour, name);
    assert f == HourDir(day, hour) + "/" + name;
    assert f == DayDir(day) + "/" + (hour + "/" + name);
  }

  // ---------------------------------------------------------------- the repository

  /** The day and hour folders sit inside existing parents, as on any file system. */
  ghost predicate ParentsExist(dirs: set<string>) {
    && (forall day :: day != [] && DayDir(day) in dirs ==> RECORDINGS_DIR in dirs)
    && (forall day, hour :: hour != [] && HourDir(day, hour) in dirs ==> DayDir(day) in dirs)
  }

  /** Formatted numbers hold digits and at most a minus sign, never a path separator. */
  lemma FormattedHasNoSlash(n: int, width: nat)
    ensures '/' !in FormatPadded(n, width)
  {
    var digits := NatToString(if n < 0 then -n else n);
    var padded := PadZeros(digits, if n < 0 && width > 0 then width - 1 else if n < 0 then 0 else width);
    assert forall i :: 0 <= i < |padded| ==> padded[i] != '/' by {
      if |digits| < |padded| {
        var z := Zeros(|padded| - |digits|);
        assert padded == z + digits;
        assert forall i :: 0 <= i < |padded| ==> padded[i] == if i < |z| then z[i] else digits[i - |z|];
      }
    }
    assert FormatPadded(n, width) == (if n < 0 then "-" else "") + padded;
  }

  /** With single-component names, an hour directory names its day and is no day directory. */
  lemma HourDirParts(d: string, h: string, day: string, hour: string)
    requires '/' !in day && '/' !in hour
    ensures HourDir(d, h) != DayDir(day)
    ensures HourDir(d, h) == HourDir(day, hour) ==> d == day
  {
    var p := |RECORDINGS_DIR| + 1;
    var a, b := HourDir(d, h), HourDir(day, hour);
    assert a[p + |d|] == '/' && b[p + |day|] == '/';
    assert forall i :: 0 <= i < |d| ==> a[p + i] == d[i];
    assert forall i :: 0 <= i < |day| ==> b[p + i] == day[i] && DayDir(day)[p + i] == day[i];
    if |d| > |day| && |d| - |day| - 1 < |hour| {
      assert b[p + |d|] == hour[|d| - |day| - 1];
    }
  }

  /** Removing an empty folder keeps every remaining folder's parent. */
  lemma RemoveEmptyKeepsParents(files: set<string>, dirs: set<string>, dir: string)
    requires ParentsExist(dirs) && IsEmptyDir(files, dirs, dir)
    ensures ParentsExist(dirs - {dir})
  {
    forall day | day != [] && DayDir(day) in dirs - {dir}
      ensures RECORDINGS_DIR in dirs - {dir}
    {
      assert Under(RECORDINGS_DIR, DayDir(day));
    }
    forall day, hour | hour != [] && HourDir(day, hour) in dirs - {dir}
      ensures DayDir(day) in dirs - {dir}
    {
      assert Under(DayDir(day), HourDir(day, hour));
    }
  }

  class RecordingRepository {
    /** The `recordings` table behind `dao`. */
    var dao: RecordingTable
    /** Regular files under the files directory. */
    var files: set<string>
    /** Directories under the files directory. */
    var dirs: set<string>

    ghost predicate Valid()
      reads this, dao
    {
      dao.Valid() && ParentsExist(dirs)
    }

    /** The constructor creates the recordings directory when it is missing. */
    constructor (table: RecordingTable, existingFiles: set<string>, existingDirs: set<string>)
      requires table.Valid() && ParentsExist(existingDirs)
      ensures Valid() && dao == table
      ensures files == existingFiles && dirs == existingDirs + {RECORDINGS_DIR}
    {
      dao := table;
      files := existingFiles;
      dirs := existingDirs + {RECORDINGS_DIR};
    }

    /**
     * `getNewRecordingFilePath`: `recordings/<day>/<hour>/<yyyyMMdd_HHmmss>.m4a`
     * for the clock reading `t`; the hour directory and its parents exist
     * afterwards; no file is created.
     */
    method GetNewRecordingFilePath(t: LocalTime) returns (path: string)
      requires ParentsExist(dirs)
      modifies this
      ensures ParentsExist(dirs)
      ensures path == FileFor(DayFolder(t), HourFolder(t.hour), TimestampToFileName(t) + EXTENSION)
      ensures Under(HourDir(DayFolder(t), HourFolder(t.hour)), path)
      ensures HourDir(DayFolder(t), HourFolder(t.hour)) in dirs
      ensures dirs == old(dirs) + {RECORDINGS_DIR, DayDir(DayFolder(t)), HourDir(DayFolder(t), HourFolder(t.hour))}
      ensures files == old(files) && dao == old(dao)
    {
      var day := DayFolder(t);
      var hour := HourFolder(t.hour);
      var hourDir := HourDir(day, hour);
      if hourDir !in dirs {
        forall d, h | h != [] && HourDir(d, h) in {RECORDINGS_DIR, DayDir(day), hourDir}
          ensures DayDir(d) == DayDir(day)
        {
          HourDirParts(d, h, day, hour);
        }
        dirs := dirs + {RECORDINGS_DIR, DayDir(day), hourDir};
      }
      path := FileFor(day, hour, TimestampToFileName(t) + EXTENSION);
      FileIsUnderItsHourDir(day, hour, TimestampToFileName(t) + EXTENSION);
    }

    /**
     * `saveRecording`: the file is looked up under the folders of `lookup`
     * (the clock reading in `getFileForRecording`); when it is missing nothing
     * happens and null is returned. Otherwise one row is inserted, with the
     * folders of `rowTime` and the timestamp `nowMillis`, and returned with its id.
     */
    method SaveRecording(fileName: string, durationMs: int, fileSizeBytes: int,
                         lookup: LocalTime, rowTime: LocalTime, nowMillis: int) returns (r: Option<Recording>)
      requires Valid()
      modifies dao
      ensures Valid() && files == old(files) && dirs == old(dirs)
      ensures var path := FileFor(DayFolder(lookup), HourFolder(lookup.hour), fileName);
        && (path !in files ==> r.None? && dao.rows == old(dao.rows) && dao.nextId == old(dao.nextId))
        && (path in files ==>
              && r.Some?
              && r.value == Recording(old(dao.nextId), fileName, path, DayFolder(rowTime), HourFolder(rowTime.hour),
                                      nowMillis, durationMs, fileSizeBytes)
              && dao.rows == old(dao.rows) + [r.value]
              && dao.nextId == old(dao.nextId) + 1)
    {
      var path := FileFor(DayFolder(lookup), HourFolder(lookup.hour), fileName);
      if path !in files {
        return None;
      }
      var recording := Recording(0, fileName, path, DayFolder(rowTime), HourFolder(rowTime.hour),
                                 nowMillis, durationMs, fileSizeBytes);
      var id := dao.Insert(recording);
      r := Some(recording.(id := id));
    }

    /**
     * `cleanEmptyFolders`: the hour directory is deleted when it exists and is
     * empty; then the day directory, under the same rule.
     */
    method CleanEmptyFolders(day: string, hour: Option<string>)
      requires ParentsExist(dirs)
      modifies this
      ensures ParentsExist(dirs)
      ensures files == old(files) && dao == old(dao)
      ensures dirs <= old(dirs)
      ensures old(dirs) - dirs <= {DayDir(day)} + (if hour.Some? then {HourDir(day, hour.value)} else {})
      ensures forall d :: d in old(dirs) - dirs ==> forall f :: f in files ==> !Under(d, f)
      ensures hour.Some? && IsEmptyDir(old(files), old(dirs), HourDir(day, hour.value)) ==>
                HourDir(day, hour.value) !in dirs
      ensures DayDir(day) in dirs <==> DayDir(day) in old(dirs) && !IsEmptyDir(files, dirs + {DayDir(day)}, DayDir(day))
      ensures hour.None? && (exists d :: d in old(dirs) && Under(DayDir(day), d)) ==> dirs == old(dirs)
    {
      if hour.Some? {
        var hourDir := HourDir(day, hour.value);
        if IsEmptyDir(files, dirs, hourDir) {
          RemoveEmptyKeepsParents(files, dirs, hourDir);
          dirs := dirs - {hourDir};
        }
      }
      var dayDir := DayDir(day);
      if IsEmptyDir(files, dirs, dayDir) {
        RemoveEmptyKeepsParents(files, dirs, dayDir);
        dirs := dirs - {dayDir};
      }
    }

    /** `deleteRecording`: the row, then the file, then whatever folders that left empty. */
    method DeleteRecording(recording: Recording)
      requires Valid()
      modifies this, dao
      ensures Valid() && dao == old(dao)
      ensures dao.rows == Where(old(dao.rows), IdIsNot(recording.id))
      ensures files == old(files) - {recording.filePath}
      ensures dirs <= old(dirs)
      ensures old(dirs) - dirs <= {DayDir(recording.dayFolder), HourDir(recording.dayFolder, recording.hourFolder)}
      ensures forall d :: d in old(dirs) - dirs ==> forall f :: f in files ==> !Under(d, f)
    {
      dao.Delete(recording);
      files := files - {recording.filePath};
      CleanEmptyFolders(recording.dayFolder, Some(recording.hourFolder));
    }

    /**
     * `deleteByDay`: the file of every row of that day is deleted, then the day
     * directory if it is empty, then the rows; the DAO's count is returned.
     */
    /** The `forEach { File(it.filePath).delete() }` of `deleteByDay`. */
    method DeleteFiles(recordings: seq<Recording>)
      modifies this
      ensures files == old(files) - PathsOf(recordings)
      ensures dirs == old(dirs) && dao == old(dao)
    {
      for i := 0 to |recordings|
        invariant files == old(files) - PathsOf(recordings[..i])
        invariant dirs == old(dirs) && dao == old(dao)
      {
        ghost var deleted := PathsOf(recordings[..i]);
        assert recordings[..i + 1] == recordings[..i] + [recordings[i]];
        PathsOfAppend(recordings[..i], recordings[i]);
        files := files - {recordings[i].filePath};
        DeleteOneMore(old(files), deleted, recordings[i].filePath);
      }
      assert recordings[..|recordings|] == recordings;
    }

    method DeleteByDay(day: string) returns (count: int)
      requires Valid()
      modifies this, dao
      ensures Valid() && dao == old(dao)
      ensures count == GetTodayCount(old(dao.rows), day)
      ensures dao.rows == Where(old(dao.rows), DayIsNot(day))
      ensures files == old(files) - PathsOfDay(old(dao.rows), day)
      ensures dirs <= old(dirs) && old(dirs) - dirs <= {DayDir(day)}
      ensures (exists d :: d in old(dirs) && Under(DayDir(day), d)) ==> dirs == old(dirs)
    {
      var recordings := GetRecordingsByDaySync(dao.rows, day);
      SameMembers(recordings, Where(dao.rows, DayIs(day)));
      DeleteFiles(recordings);
      PathsOfDayAre(recordings, old(dao.rows), day);
      ghost var keptDirs := exists d :: d in dirs && Under(DayDir(day), d);
      CleanEmptyFolders(day, None);
      assert keptDirs ==> dirs == old(dirs);
      count := dao.DeleteByDay(day);
    }
  }

  /** The paths of a list of rows. */
  function PathsOf(rs: seq<Recording>): (ps: set<string>)
    ensures forall p :: p in ps <==> exists r :: r in rs && r.filePath == p
  {
    if rs == [] then {} else {rs[0].filePath} + PathsOf(rs[1..])
  }

  lemma DeleteOneMore(files: set<string>, deleted: set<string>, p: string)
    ensures files - deleted - {p} == files - (deleted + {p})
  {
  }

  lemma {:induction false} PathsOfAppend(rs: seq<Recording>, r: Recording)
    ensures PathsOf(rs + [r]) == PathsOf(rs) + {r.filePath}
  {
    forall p ensures p in PathsOf(rs + [r]) <==> p in PathsOf(rs) + {r.filePath} {
      if p in PathsOf(rs + [r]) {
        var x :| x in rs + [r] && x.filePath == p;
        if x != r {
          assert x in rs;
        }
      }
    }
  }

  /** The paths of the rows of one day. */
  function PathsOfDay(rows: seq<Recording>, day: string): (ps: set<string>)
    ensures forall p :: p in ps <==> exists r :: r in rows && r.dayFolder == day && r.filePath == p
  {
    PathsOf(Where(rows, DayIs(day)))
  }

  lemma PathsOfDayAre(rs: seq<Recording>, rows: seq<Recording>, day: string)
    requires forall r :: r in rs <==> r in Where(rows, DayIs(day))
    ensures PathsOf(rs) == PathsOfDay(rows, day)
  {
  }
}
