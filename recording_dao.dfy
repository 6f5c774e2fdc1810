/**
 * The Room DAO over the `recordings` table (`RecordingDao`). The table is a
 * sequence of rows; each `SELECT` is a function of it, and the mutations are
 * methods of `RecordingTable`, which owns the rows and the AUTOINCREMENT counter.
 * Row order inside the table carries no meaning: queries state their order.
 */
module RecordingDao {
  import opened Wrappers
  import opened RecordingData
  import Collation

  // ---------------------------------------------------------------- WHERE

  /** The `WHERE` conditions the DAO uses. */
  datatype Cond =
    | DayIs(day: string)
    | DayIsNot(day: string)
    | DayHourIs(day: string, hour: string)
    | IdIsNot(id: int)
    | PathIsNot(path: string)

  predicate Holds(c: Cond, r: Recording) {
    match c
    case DayIs(d) => r.dayFolder == d
    case DayIsNot(d) => r.dayFolder != d
    case DayHourIs(d, h) => r.dayFolder == d && r.hourFolder == h
    case IdIsNot(id) => r.id != id
    case PathIsNot(p) => r.filePath != p
  }

  /** The rows satisfying `c`, in table order. */
  function Where(rows: seq<Recording>, c: Cond): (out: seq<Recording>)
    ensures |out| <= |rows|
    ensures forall r :: r in out <==> r in rows && Holds(c, r)
  {
    if rows == [] then []
    else (if Holds(c, rows[0]) then [rows[0]] else []) + Where(rows[1..], c)
  }

  lemma {:induction false} WhereAppend(rows: seq<Recording>, x: Recording, c: Cond)
    ensures Where(rows + [x], c) == Where(rows, c) + (if Holds(c, x) then [x] else [])
    decreases |rows|
  {
    if rows == [] {
      assert rows + [x] == [x];
    } else {
      var head := if Holds(c, rows[0]) then [rows[0]] else [];
      var last := if Holds(c, x) then [x] else [];
      assert (rows + [x])[0] == rows[0];
      assert (rows + [x])[1..] == rows[1..] + [x];
      WhereAppend(rows[1..], x, c);
      assert Where(rows + [x], c) == head + (Where(rows[1..], c) + last);
      ConcatAssoc(head, Where(rows[1..], c), last);
    }
  }

  lemma ConcatAssoc(a: seq<Recording>, b: seq<Recording>, c: seq<Recording>)
    ensures a + (b + c) == (a + b) + c
  {
  }

  /** Every row satisfies exactly one of `day = d` and `day <> d`. */
  lemma {:induction false} DaySplitCounts(rows: seq<Recording>, d: string)
    ensures |Where(rows, DayIs(d))| + |Where(rows, DayIsNot(d))| == |rows|
    decreases |rows|
  {
    if rows != [] {
      DaySplitCounts(rows[1..], d);
    }
  }

  /** A condition no row satisfies selects nothing. */
  lemma {:induction false} WhereNone(rows: seq<Recording>, c: Cond)
    requires forall r :: r in rows ==> !Holds(c, r)
    ensures Where(rows, c) == []
    decreases |rows|
  {
    if rows != [] {
      assert rows[0] in rows;
      WhereNone(rows[1..], c);
    }
  }

  /** A condition every row satisfies selects the whole table. */
  lemma {:induction false} WhereAll(rows: seq<Recording>, c: Cond)
    requires forall r :: r in rows ==> Holds(c, r)
    ensures Where(rows, c) == rows
    decreases |rows|
  {
    if rows != [] {
      assert rows == [rows[0]] + rows[1..];
      WhereAll(rows[1..], c);
    }
  }

  // ---------------------------------------------------------------- ORDER BY timestamp DESC

  ghost predicate SortedByTimestampDesc(rs: seq<Recording>) {
    forall i, j :: 0 <= i < j < |rs| ==> rs[i].timestamp >= rs[j].timestamp
  }

  function InsertByTimestamp(x: Recording, rs: seq<Recording>): (out: seq<Recording>)
    requires SortedByTimestampDesc(rs)
    ensures SortedByTimestampDesc(out)
    ensures multiset(out) == multiset(rs) + multiset{x}
    ensures |out| == |rs| + 1 && (out[0] == x || (rs != [] && out[0] == rs[0]))
  {
    if rs == [] || x.timestamp >= rs[0].timestamp then
      [x] + rs
    else
      var rest := InsertByTimestamp(x, rs[1..]);
      assert multiset(rs) == multiset{rs[0]} + multiset(rs[1..]) by {
        assert rs == [rs[0]] + rs[1..];
      }
      assert multiset([rs[0]] + rest) == multiset{rs[0]} + multiset(rest);
      ConsSorted(rs[0], rest);
      [rs[0]] + rest
  }

  /** A row no later than the head of a sorted sequence can be put in front of it. */
  lemma ConsSorted(y: Recording, rest: seq<Recording>)
    requires SortedByTimestampDesc(rest)
    requires rest != [] ==> rest[0].timestamp <= y.timestamp
    ensures SortedByTimestampDesc([y] + rest)
  {
    var out := [y] + rest;
    forall i, j | 0 <= i < j < |out| ensures out[i].timestamp >= out[j].timestamp {
      if i == 0 {
        assert out[j] == rest[j - 1];
        assert rest[0].timestamp >= rest[j - 1].timestamp;
      } else {
        assert out[i] == rest[i - 1] && out[j] == rest[j - 1];
      }
    }
  }

  /** `ORDER BY timestamp DESC`: the same rows, latest first (ties in input order). */
  function SortByTimestampDesc(rs: seq<Recording>): (out: seq<Recording>)
    ensures SortedByTimestampDesc(out)
    ensures multiset(out) == multiset(rs)
  {
    if rs == [] then []
    else
      assert rs == [rs[0]] + rs[1..];
      InsertByTimestamp(rs[0], SortByTimestampDesc(rs[1..]))
  }

  // ---------------------------------------------------------------- SELECT DISTINCT ... ORDER BY ... DESC

  ghost predicate StrictlyDescending(xs: seq<string>) {
    forall i, j :: 0 <= i < j < |xs| ==> Collation.Less(xs[j], xs[i])
  }

  function InsertDistinct(x: string, xs: seq<string>): (out: seq<string>)
    requires StrictlyDescending(xs)
    ensures StrictlyDescending(out)
    ensures forall y :: y in out <==> y == x || y in xs
  {
    if xs == [] then [x]
    else if x == xs[0] then xs
    else if Collation.Less(xs[0], x) then
      assert forall j :: 0 <= j < |xs| ==> Collation.Less(xs[j], x) by {
        forall j | 0 <= j < |xs| ensures Collation.Less(xs[j], x) {
          if j > 0 { Collation.LessTransitive(xs[j], xs[0], x); }
        }
      }
      [x] + xs
    else
      var rest := InsertDistinct(x, xs[1..]);
      assert Collation.Less(x, xs[0]) by { Collation.LessTotal(x, xs[0]); }
      assert forall y :: y in rest ==> Collation.Less(y, xs[0]) by {
        forall y | y in rest ensures Collation.Less(y, xs[0]) {
          if y != x {
            var j :| 0 <= j < |xs[1..]| && xs[1..][j] == y;
            assert xs[j + 1] == y;
          }
        }
      }
      assert xs == [xs[0]] + xs[1..];
      [xs[0]] + rest
  }

  /** Distinct values, largest first. */
  function DistinctDescending(xs: seq<string>): (out: seq<string>)
    ensures StrictlyDescending(out)
    ensures forall y :: y in out <==> y in xs
  {
    if xs == [] then []
    else
      assert xs == [xs[0]] + xs[1..];
      InsertDistinct(xs[0], DistinctDescending(xs[1..]))
  }

  function DayFolders(rows: seq<Recording>): (ds: seq<string>)
    ensures |ds| == |rows| && forall i :: 0 <= i < |rows| ==> ds[i] == rows[i].dayFolder
  {
    if rows == [] then [] else [rows[0].dayFolder] + DayFolders(rows[1..])
  }

  function HourFolders(rows: seq<Recording>): (hs: seq<string>)
    ensures |hs| == |rows| && forall i :: 0 <= i < |rows| ==> hs[i] == rows[i].hourFolder
  {
    if rows == [] then [] else [rows[0].hourFolder] + HourFolders(rows[1..])
  }

  function SumDurations(rs: seq<Recording>): int {
    if rs == [] then 0 else rs[0].durationMs + SumDurations(rs[1..])
  }

  lemma {:induction false} SumDurationsAppend(rs: seq<Recording>, x: Recording)
    ensures SumDurations(rs + [x]) == SumDurations(rs) + x.durationMs
    decreases |rs|
  {
    if rs == [] {
      assert rs + [x] == [x];
    } else {
      assert (rs + [x])[1..] == rs[1..] + [x];
      SumDurationsAppend(rs[1..], x);
    }
  }

  // ---------------------------------------------------------------- queries

  /** `getAllDays`: every day folder in the table once, latest first. */
  function GetAllDays(rows: seq<Recording>): (days: seq<string>)
    ensures StrictlyDescending(days)
    ensures forall d :: d in days <==> exists r :: r in rows && r.dayFolder == d
  {
    var ds := DistinctDescending(DayFolders(rows));
    assert forall d :: d in DayFolders(rows) <==> exists r :: r in rows && r.dayFolder == d by {
      forall d ensures d in DayFolders(rows) ==> exists r :: r in rows && r.dayFolder == d {
        if d in DayFolders(rows) {
          var i :| 0 <= i < |rows| && DayFolders(rows)[i] == d;
          assert rows[i] in rows;
        }
      }
      forall d, r | r in rows && r.dayFolder == d ensures d in DayFolders(rows) {
        var i :| 0 <= i < |rows| && rows[i] == r;
        assert DayFolders(rows)[i] == d;
      }
    }
    ds
  }

  /** `getHoursInDay`: every hour folder of that day once, latest first. */
  function GetHoursInDay(rows: seq<Recording>, day: string): (hours: seq<string>)
    ensures StrictlyDescending(hours)
    ensures forall h :: h in hours <==> exists r :: r in rows && r.dayFolder == day && r.hourFolder == h
  {
    var ofDay := Where(rows, DayIs(day));
    var hs := DistinctDescending(HourFolders(ofDay));
    assert forall h :: h in HourFolders(ofDay) <==> exists r :: r in ofDay && r.hourFolder == h by {
      forall h ensures h in HourFolders(ofDay) ==> exists r :: r in ofDay && r.hourFolder == h {
        if h in HourFolders(ofDay) {
          var i :| 0 <= i < |ofDay| && HourFolders(ofDay)[i] == h;
          assert ofDay[i] in ofDay;
        }
      }
      forall h, r | r in ofDay && r.hourFolder == h ensures h in HourFolders(ofDay) {
        var i :| 0 <= i < |ofDay| && ofDay[i] == r;
        assert HourFolders(ofDay)[i] == h;
      }
    }
    hs
  }

  /** `getRecordingsInHour`: exactly the rows of that day and hour, latest first. */
  function GetRecordingsInHour(rows: seq<Recording>, day: string, hour: string): (rs: seq<Recording>)
    ensures SortedByTimestampDesc(rs)
    ensures multiset(rs) == multiset(Where(rows, DayHourIs(day, hour)))
    ensures forall r :: r in rs <==> r in rows && r.dayFolder == day && r.hourFolder == hour
  {
    var out := SortByTimestampDesc(Where(rows, DayHourIs(day, hour)));
    SameMembers(out, Where(rows, DayHourIs(day, hour)));
    out
  }

  lemma SameMembers(a: seq<Recording>, b: seq<Recording>)
    requires multiset(a) == multiset(b)
    ensures forall r :: r in a <==> r in b
  {
    forall r ensures r in a <==> r in b {
      assert r in a <==> r in multiset(a);
      assert r in b <==> r in multiset(b);
    }
  }

  /** `getAllRecordings`: every row, latest first. */
  function GetAllRecordings(rows: seq<Recording>): (rs: seq<Recording>)
    ensures SortedByTimestampDesc(rs)
    ensures multiset(rs) == multiset(rows)
  {
    SortByTimestampDesc(rows)
  }

  /** `getRecordingsByDaySync`: the rows of that day, latest first. */
  function GetRecordingsByDaySync(rows: seq<Recording>, day: string): (rs: seq<Recording>)
    ensures SortedByTimestampDesc(rs)
    ensures multiset(rs) == multiset(Where(rows, DayIs(day)))
  {
    SortByTimestampDesc(Where(rows, DayIs(day)))
  }

  /** `getRecordingById`: the row with that id, or null. */
  function GetRecordingById(rows: seq<Recording>, id: int): (r: Option<Recording>)
    ensures r.Some? ==> r.value in rows && r.value.id == id
    ensures r.None? <==> forall x :: x in rows ==> x.id != id
  {
    if rows == [] then None
    else if rows[0].id == id then Some(rows[0])
    else
      assert forall x :: x in rows ==> x == rows[0] || x in rows[1..];
      GetRecordingById(rows[1..], id)
  }

  /** `getTodayCount`: `COUNT(*)` of that day's rows. */
  function GetTodayCount(rows: seq<Recording>, today: string): (n: int)
    ensures 0 <= n <= |rows|
    ensures n == 0 <==> forall r :: r in rows ==> r.dayFolder != today
  {
    var w := Where(rows, DayIs(today));
    assert w != [] ==> w[0] in w;
    |w|
  }

  /** `getTodayDuration`: `COALESCE(SUM(durationMs), 0)` over that day's rows. */
  function GetTodayDuration(rows: seq<Recording>, today: string): (total: int)
    ensures (forall r :: r in rows ==> r.dayFolder != today) ==> total == 0
    ensures (forall r :: r in rows && r.dayFolder == today ==> r.durationMs >= 0) ==> total >= 0
  {
    var w := Where(rows, DayIs(today));
    assert w != [] ==> w[0] in w;
    SumDurationsNonNegative(w);
    SumDurations(w)
  }

  /** A sum of non-negative durations is non-negative. */
  lemma {:induction false} SumDurationsNonNegative(rs: seq<Recording>)
    ensures (forall r :: r in rs ==> r.durationMs >= 0) ==> SumDurations(rs) >= 0
    decreases |rs|
  {
    if rs != [] {
      assert forall r :: r in rs[1..] ==> r in rs;
      SumDurationsNonNegative(rs[1..]);
    }
  }

  // ---------------------------------------------------------------- table invariant and REPLACE

  ghost predicate UniqueIds(rows: seq<Recording>) {
    forall i, j :: 0 <= i < j < |rows| ==> rows[i].id != rows[j].id
  }

  /** In a table with unique ids, a row is found by its id. */
  lemma {:induction false} FindById(rows: seq<Recording>, r: Recording)
    requires UniqueIds(rows) && r in rows
    ensures GetRecordingById(rows, r.id) == Some(r)
    decreases |rows|
  {
    if rows[0] != r {
      assert r in rows[1..];
      assert rows[0].id != r.id by {
        var j :| 0 <= j < |rows| && rows[j] == r;
      }
      FindById(rows[1..], r);
    }
  }

  lemma {:induction false} WhereKeepsUniqueIds(rows: seq<Recording>, c: Cond)
    requires UniqueIds(rows)
    ensures UniqueIds(Where(rows, c))
    decreases |rows|
  {
    if rows != [] {
      WhereKeepsUniqueIds(rows[1..], c);
      var rest := Where(rows[1..], c);
      forall x | x in rest ensures x.id != rows[0].id {
        var j :| 0 <= j < |rows[1..]| && rows[1..][j] == x;
        assert rows[j + 1] == x;
      }
    }
  }

  /** `@Insert(onConflict = REPLACE)` of a row whose id is final: any row with that id is replaced. */
  function Upsert(rows: seq<Recording>, row: Recording): (out: seq<Recording>)
    ensures |out| <= |rows| + 1
    ensures GetRecordingById(out, row.id) == Some(row) || !UniqueIds(rows)
    ensures forall k :: k != row.id ==> GetRecordingById(out, k) == GetRecordingById(Where(rows, IdIsNot(row.id)), k)
    ensures UniqueIds(rows) ==> UniqueIds(out)
  {
    UpsertFacts(rows, row);
    Where(rows, IdIsNot(row.id)) + [row]
  }

  lemma UpsertFacts(rows: seq<Recording>, row: Recording)
    ensures var out := Where(rows, IdIsNot(row.id)) + [row];
      && (UniqueIds(rows) ==> UniqueIds(out) && GetRecordingById(out, row.id) == Some(row))
      && forall k :: k != row.id ==> GetRecordingById(out, k) == GetRecordingById(Where(rows, IdIsNot(row.id)), k)
  {
    var kept := Where(rows, IdIsNot(row.id));
    var out := kept + [row];
    ByIdSkipsLast(kept, row);
    if UniqueIds(rows) {
      WhereKeepsUniqueIds(rows, IdIsNot(row.id));
      forall i | 0 <= i < |kept| ensures kept[i].id != row.id {
        assert kept[i] in kept;
      }
      assert UniqueIds(out);
      FindById(out, row);
    }
  }

  lemma {:induction false} ByIdSkipsLast(kept: seq<Recording>, row: Recording)
    ensures forall k :: k != row.id ==> GetRecordingById(kept + [row], k) == GetRecordingById(kept, k)
    decreases |kept|
  {
    if kept == [] {
      assert kept + [row] == [row];
    } else {
      assert (kept + [row])[1..] == kept[1..] + [row];
      ByIdSkipsLast(kept[1..], row);
    }
  }

  /** Removing the rows of other ids does not change what a lookup of a kept id finds. */
  lemma {:induction false} ByIdIgnoresOtherIds(rows: seq<Recording>, id: int, k: int)
    requires k != id
    ensures GetRecordingById(Where(rows, IdIsNot(id)), k) == GetRecordingById(rows, k)
    decreases |rows|
  {
    if rows != [] {
      var rest := Where(rows[1..], IdIsNot(id));
      ByIdIgnoresOtherIds(rows[1..], id, k);
      if rows[0].id != id {
        var kept := [rows[0]] + rest;
        assert Where(rows, IdIsNot(id)) == kept;
        assert kept[0] == rows[0] && kept[1..] == rest;
        if rows[0].id != k {
          assert GetRecordingById(kept, k) == GetRecordingById(rest, k);
        }
      } else {
        assert Where(rows, IdIsNot(id)) == rest;
      }
    }
  }

  /** When no row has the id, REPLACE only appends: the day's count grows by one and its total by the new duration. */
  lemma InsertFreshRowCounts(rows: seq<Recording>, row: Recording)
    requires forall r :: r in rows ==> r.id != row.id
    ensures Upsert(rows, row) == rows + [row]
    ensures GetTodayCount(Upsert(rows, row), row.dayFolder) == GetTodayCount(rows, row.dayFolder) + 1
    ensures GetTodayDuration(Upsert(rows, row), row.dayFolder) == GetTodayDuration(rows, row.dayFolder) + row.durationMs
  {
    WhereAll(rows, IdIsNot(row.id));
    WhereAppend(rows, row, DayIs(row.dayFolder));
    SumDurationsAppend(Where(rows, DayIs(row.dayFolder)), row);
  }

  /** After `deleteByDay(d)` nothing of day d is left and every other day keeps exactly its rows. */
  lemma DeleteByDayEffect(rows: seq<Recording>, d: string)
    ensures GetTodayCount(Where(rows, DayIsNot(d)), d) == 0
    ensures d !in GetAllDays(Where(rows, DayIsNot(d)))
    ensures forall e :: e != d ==> Where(Where(rows, DayIsNot(d)), DayIs(e)) == Where(rows, DayIs(e))
    ensures |Where(rows, DayIsNot(d))| == |rows| - GetTodayCount(rows, d)
  {
    var kept := Where(rows, DayIsNot(d));
    DaySplitCounts(rows, d);
    WhereNone(kept, DayIs(d));
    forall e | e != d ensures Where(kept, DayIs(e)) == Where(rows, DayIs(e)) {
      WhereOtherDay(rows, d, e);
    }
  }

  lemma {:induction false} WhereOtherDay(rows: seq<Recording>, d: string, e: string)
    requires e != d
    ensures Where(Where(rows, DayIsNot(d)), DayIs(e)) == Where(rows, DayIs(e))
    decreases |rows|
  {
    if rows != [] {
      var rest := Where(rows[1..], DayIsNot(d));
      WhereOtherDay(rows[1..], d, e);
      var head := if rows[0].dayFolder == e then [rows[0]] else [];
      assert Where(rows, DayIs(e)) == head + Where(rows[1..], DayIs(e));
      if rows[0].dayFolder != d {
        var kept := [rows[0]] + rest;
        assert Where(rows, DayIsNot(d)) == kept;
        assert kept[0] == rows[0] && kept[1..] == rest;
        assert Where(kept, DayIs(e)) == head + Where(rest, DayIs(e));
      } else {
        assert Where(rows, DayIsNot(d)) == rest;
      }
    }
  }

  // ---------------------------------------------------------------- the table

  function Max(a: int, b: int): int { if a >= b then a else b }

  class RecordingTable {
    /** The rows of `recordings`. */
    var rows: seq<Recording>
    /** One more than the largest id ever stored (SQLite's AUTOINCREMENT sequence). */
    var nextId: int

    ghost predicate Valid()
      reads this
    {
      && UniqueIds(rows)
      && (forall r :: r in rows ==> r.id != 0 && r.id < nextId)
      && nextId >= 1
    }

    constructor ()
      ensures Valid() && rows == [] && nextId == 1
    {
      rows := [];
      nextId := 1;
    }

    /** `insert`: id 0 takes the next generated id; a row with the same id is replaced; the id is returned. */
    method Insert(recording: Recording) returns (id: int)
      requires Valid()
      modifies this
      ensures Valid()
      ensures id == if recording.id == 0 then old(nextId) else recording.id
      ensures rows == Upsert(old(rows), recording.(id := id))
      ensures nextId == Max(old(nextId), id + 1)
      ensures recording.id == 0 ==> rows == old(rows) + [recording.(id := id)]
    {
      id := if recording.id == 0 then nextId else recording.id;
      var row := recording.(id := id);
      if recording.id == 0 {
        WhereAll(rows, IdIsNot(id));
      }
      rows := Upsert(rows, row);
      nextId := Max(nextId, id + 1);
    }

    /** `delete`: removes the row with the entity's primary key. */
    method Delete(recording: Recording)
      requires Valid()
      modifies this
      ensures Valid() && nextId == old(nextId)
      ensures rows == Where(old(rows), IdIsNot(recording.id))
    {
      WhereKeepsUniqueIds(rows, IdIsNot(recording.id));
      rows := Where(rows, IdIsNot(recording.id));
    }

    /** `deleteByPath`: removes every row stored under that path. */
    method DeleteByPath(path: string)
      requires Valid()
      modifies this
      ensures Valid() && nextId == old(nextId)
      ensures rows == Where(old(rows), PathIsNot(path))
    {
      WhereKeepsUniqueIds(rows, PathIsNot(path));
      rows := Where(rows, PathIsNot(path));
    }

    /** `deleteByDay`: removes the rows of that day and returns how many there were. */
    method DeleteByDay(day: string) returns (count: int)
      requires Valid()
      modifies this
      ensures Valid() && nextId == old(nextId)
      ensures rows == Where(old(rows), DayIsNot(day))
      ensures count == GetTodayCount(old(rows), day)
    {
      DaySplitCounts(rows, day);
      WhereKeepsUniqueIds(rows, DayIsNot(day));
      count := |rows| - |Where(rows, DayIsNot(day))|;
      rows := Where(rows, DayIsNot(day));
    }
  }
}
