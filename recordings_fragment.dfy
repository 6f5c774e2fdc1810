/**
 * The tree flattening of the recordings screen (`RecordingsFragment.updateTreeList`):
 * recordings are grouped by day and, inside an expanded day, by hour, with
 * Kotlin's `groupBy` (keys in order of first appearance, each group in input
 * order); a day node is followed by its hour nodes only when the day is
 * expanded, and an hour node by its recordings only when the hour is expanded.
 */
module RecordingsFragment {
  import opened RecordingData
  import opened RecordingDao
  import opened RecordingsAdapter

  /** The two grouping keys. */
  datatype Grouping = ByDay | ByHour

  function KeyOf(g: Grouping, r: Recording): string {
    match g
    case ByDay => r.dayFolder
    case ByHour => r.hourFolder
  }

  ghost predicate Distinct(ks: seq<string>) {
    forall i, j :: 0 <= i < j < |ks| ==> ks[i] != ks[j]
  }

  /** The keys of `groupBy`: each key once, in order of first appearance. */
  function Keys(rs: seq<Recording>, g: Grouping): seq<string> {
    if rs == [] then []
    else
      var ks := Keys(rs[..|rs| - 1], g);
      var k := KeyOf(g, rs[|rs| - 1]);
      if k in ks then ks else ks + [k]
  }

  /** The group of key `k`: the recordings with that key, in input order. */
  function Group(rs: seq<Recording>, g: Grouping, k: string): seq<Recording> {
    if rs == [] then []
    else Group(rs[..|rs| - 1], g, k) + (if KeyOf(g, rs[|rs| - 1]) == k then [rs[|rs| - 1]] else [])
  }

  /** The keys are distinct, and they are exactly the keys of the recordings. */
  lemma {:induction false} KeysFacts(rs: seq<Recording>, g: Grouping)
    ensures Distinct(Keys(rs, g))
    ensures forall k :: k in Keys(rs, g) <==> exists r :: r in rs && KeyOf(g, r) == k
    decreases |rs|
  {
    if rs != [] {
      var front := rs[..|rs| - 1];
      KeysFacts(front, g);
      assert rs == front + [rs[|rs| - 1]];
      forall k | k in Keys(rs, g) ensures exists r :: r in rs && KeyOf(g, r) == k {
        if k in Keys(front, g) {
          var r :| r in front && KeyOf(g, r) == k;
          assert r in rs;
        } else {
          assert rs[|rs| - 1] in rs;
        }
      }
    }
  }

  /** A group holds exactly the recordings with its key. */
  lemma {:induction false} GroupMembers(rs: seq<Recording>, g: Grouping, k: string)
    ensures forall r :: r in Group(rs, g, k) <==> r in rs && KeyOf(g, r) == k
    decreases |rs|
  {
    if rs != [] {
      GroupMembers(rs[..|rs| - 1], g, k);
      assert rs == rs[..|rs| - 1] + [rs[|rs| - 1]];
    }
  }

  lemma GroupOfAbsentKey(rs: seq<Recording>, g: Grouping, k: string)
    requires k !in Keys(rs, g)
    ensures Group(rs, g, k) == []
  {
    KeysFacts(rs, g);
    GroupMembers(rs, g, k);
  }

  lemma GroupStep(rs: seq<Recording>, x: Recording, g: Grouping, k: string)
    ensures Group(rs + [x], g, k) == Group(rs, g, k) + (if KeyOf(g, x) == k then [x] else [])
  {
    assert (rs + [x])[..|rs|] == rs;
  }

  lemma KeysStep(rs: seq<Recording>, x: Recording, g: Grouping)
    ensures Keys(rs + [x], g) == if KeyOf(g, x) in Keys(rs, g) then Keys(rs, g) else Keys(rs, g) + [KeyOf(g, x)]
  {
    assert (rs + [x])[..|rs|] == rs;
  }

  // ---------------------------------------------------------------- groupBy

  /**
   * `groupBy`: the keys in order of first appearance and, at the same
   * positions, their groups.
   */
  method GroupBy(rs: seq<Recording>, g: Grouping) returns (keys: seq<string>, groups: seq<seq<Recording>>)
    ensures GroupedAs(rs, g, keys, groups)
  {
    keys, groups := [], [];
    for i := 0 to |rs|
      invariant GroupedAs(rs[..i], g, keys, groups)
    {
      var r := rs[i];
      var k := KeyOf(g, r);
      var j := 0;
      while j < |keys| && keys[j] != k
        invariant 0 <= j <= |keys|
        invariant forall m :: 0 <= m < j ==> keys[m] != k
      {
        j := j + 1;
      }
      GroupByStep(rs[..i], r, g, keys, groups, j);
      assert rs[..i + 1] == rs[..i] + [r];
      if j < |keys| {
        groups := groups[j := groups[j] + [r]];
      } else {
        keys := keys + [k];
        groups := groups + [[r]];
      }
    }
    assert rs[..|rs|] == rs;
  }

  /** `keys` are the keys of `rs` and `groups` their groups, position by position. */
  ghost predicate GroupedAs(rs: seq<Recording>, g: Grouping, keys: seq<string>, groups: seq<seq<Recording>>) {
    keys == Keys(rs, g) && |groups| == |keys| && forall j :: 0 <= j < |keys| ==> groups[j] == Group(rs, g, keys[j])
  }

  /** One recording more: its group grows when its key is at `j`, otherwise a new key and group are appended. */
  lemma GroupByStep(rs: seq<Recording>, r: Recording, g: Grouping, keys: seq<string>, groups: seq<seq<Recording>>, j: int)
    requires GroupedAs(rs, g, keys, groups)
    requires 0 <= j <= |keys| && (j < |keys| ==> keys[j] == KeyOf(g, r))
    requires forall m :: 0 <= m < j ==> keys[m] != KeyOf(g, r)
    ensures j < |keys| ==> GroupedAs(rs + [r], g, keys, groups[j := groups[j] + [r]])
    ensures j == |keys| ==> GroupedAs(rs + [r], g, keys + [KeyOf(g, r)], groups + [[r]])
  {
    var k := KeyOf(g, r);
    KeysStep(rs, r, g);
    KeysFacts(rs, g);
    if j < |keys| {
      assert k in keys;
      var groups' := groups[j := groups[j] + [r]];
      forall m | 0 <= m < |keys| ensures groups'[m] == Group(rs + [r], g, keys[m]) {
        GroupStep(rs, r, g, keys[m]);
        if m != j {
          assert keys[m] != keys[j];
        }
      }
    } else {
      assert k !in keys;
      var keys', groups' := keys + [k], groups + [[r]];
      forall m | 0 <= m < |keys'| ensures groups'[m] == Group(rs + [r], g, keys'[m]) {
        GroupStep(rs, r, g, keys'[m]);
        if m == |keys| {
          GroupOfAbsentKey(rs, g, k);
        } else {
          assert keys'[m] == keys[m] != k;
        }
      }
    }
  }

  // ---------------------------------------------------------------- the tree, as a function

  function RecordingItems(rs: seq<Recording>): (items: seq<TreeItem>)
    ensures |items| == |rs| && forall i :: 0 <= i < |rs| ==> items[i] == RecordingItem(rs[i])
  {
    if rs == [] then [] else RecordingItems(rs[..|rs| - 1]) + [RecordingItem(rs[|rs| - 1])]
  }

  /** An hour node, followed by its recordings when `day_hour` is expanded. */
  function HourBlock(day: string, hour: string, hourRecordings: seq<Recording>, expandedHours: set<string>): seq<TreeItem> {
    var hourExpanded := HourKey(day, hour) in expandedHours;
    [HourItem(day, hour, |hourRecordings|, hourExpanded)] + (if hourExpanded then RecordingItems(hourRecordings) else [])
  }

  function HourBlocks(day: string, dayRecordings: seq<Recording>, hours: seq<string>, expandedHours: set<string>): seq<TreeItem> {
    if hours == [] then []
    else
      var hour := hours[|hours| - 1];
      HourBlocks(day, dayRecordings, hours[..|hours| - 1], expandedHours)
        + HourBlock(day, hour, Group(dayRecordings, ByHour, hour), expandedHours)
  }

  /** A day node, followed by its hour blocks when the day is expanded. */
  function DayBlock(day: string, dayRecordings: seq<Recording>, expandedDays: set<string>, expandedHours: set<string>): seq<TreeItem> {
    var dayExpanded := day in expandedDays;
    [DayItem(day, |dayRecordings|, SumDurations(dayRecordings), dayExpanded)]
      + (if dayExpanded then HourBlocks(day, dayRecordings, Keys(dayRecordings, ByHour), expandedHours) else [])
  }

  function DayBlocks(rs: seq<Recording>, days: seq<string>, expandedDays: set<string>, expandedHours: set<string>): seq<TreeItem> {
    if days == [] then []
    else
      var day := days[|days| - 1];
      DayBlocks(rs, days[..|days| - 1], expandedDays, expandedHours)
        + DayBlock(day, Group(rs, ByDay, day), expandedDays, expandedHours)
  }

  /** The list `updateTreeList` submits. */
  function Tree(rs: seq<Recording>, expandedDays: set<string>, expandedHours: set<string>): seq<TreeItem> {
    DayBlocks(rs, Keys(rs, ByDay), expandedDays, expandedHours)
  }

  lemma HourBlocksSnoc(day: string, drs: seq<Recording>, hours: seq<string>, hour: string, eh: set<string>)
    ensures HourBlocks(day, drs, hours + [hour], eh)
         == HourBlocks(day, drs, hours, eh) + HourBlock(day, hour, Group(drs, ByHour, hour), eh)
  {
    assert (hours + [hour])[..|hours|] == hours;
  }

  lemma DayBlocksSnoc(rs: seq<Recording>, days: seq<string>, day: string, ed: set<string>, eh: set<string>)
    ensures DayBlocks(rs, days + [day], ed, eh) == DayBlocks(rs, days, ed, eh) + DayBlock(day, Group(rs, ByDay, day), ed, eh)
  {
    assert (days + [day])[..|days|] == days;
  }

  // ---------------------------------------------------------------- updateTreeList

  /** `updateTreeList` */
  method UpdateTreeList(recordings: seq<Recording>, expandedDays: set<string>, expandedHours: set<string>)
    returns (items: seq<TreeItem>)
    ensures items == Tree(recordings, expandedDays, expandedHours)
  {
    items := [];
    var days, dayGroups := GroupBy(recordings, ByDay);
    for i := 0 to |days|
      invariant items == DayBlocks(recordings, days[..i], expandedDays, expandedHours)
    {
      assert dayGroups[i] == Group(recordings, ByDay, days[i]);
      items := AddDay(items, days[i], dayGroups[i], expandedDays, expandedHours);
      assert days[..i + 1] == days[..i] + [days[i]];
      DayBlocksSnoc(recordings, days[..i], days[i], expandedDays, expandedHours);
    }
    assert days[..|days|] == days;
  }

  /** One day of `updateTreeList`: its day node and, when it is expanded, its hours. */
  method AddDay(prefix: seq<TreeItem>, day: string, dayRecordings: seq<Recording>,
                expandedDays: set<string>, expandedHours: set<string>) returns (items: seq<TreeItem>)
    ensures items == prefix + DayBlock(day, dayRecordings, expandedDays, expandedHours)
  {
    var dayExpanded := day in expandedDays;
    items := prefix + [DayItem(day, |dayRecordings|, SumDurations(dayRecordings), dayExpanded)];
    if dayExpanded {
      items := AddHours(items, day, dayRecordings, expandedHours);
    }
  }

  /** The `groupBy { it.hourFolder }` part of `updateTreeList` for one expanded day. */
  method AddHours(prefix: seq<TreeItem>, day: string, dayRecordings: seq<Recording>, expandedHours: set<string>)
    returns (items: seq<TreeItem>)
    ensures items == prefix + HourBlocks(day, dayRecordings, Keys(dayRecordings, ByHour), expandedHours)
  {
    items := prefix;
    var hours, hourGroups := GroupBy(dayRecordings, ByHour);
    for j := 0 to |hours|
      invariant items == prefix + HourBlocks(day, dayRecordings, hours[..j], expandedHours)
    {
      assert hourGroups[j] == Group(dayRecordings, ByHour, hours[j]);
      items := AddHour(items, day, hours[j], hourGroups[j], expandedHours);
      assert hours[..j + 1] == hours[..j] + [hours[j]];
      HourBlocksSnoc(day, dayRecordings, hours[..j], hours[j], expandedHours);
    }
    assert hours[..|hours|] == hours;
  }

  /** One hour of an expanded day: its hour node and, when it is expanded, its recordings. */
  method AddHour(prefix: seq<TreeItem>, day: string, hour: string, hourRecordings: seq<Recording>,
                 expandedHours: set<string>) returns (items: seq<TreeItem>)
    ensures items == prefix + HourBlock(day, hour, hourRecordings, expandedHours)
  {
    var hourExpanded := HourKey(day, hour) in expandedHours;
    items := prefix + [HourItem(day, hour, |hourRecordings|, hourExpanded)];
    if hourExpanded {
      items := AddRecordings(items, hourRecordings);
    }
  }

  /** The recordings of one expanded hour, each as a leaf. */
  method AddRecordings(prefix: seq<TreeItem>, hourRecordings: seq<Recording>) returns (items: seq<TreeItem>)
    ensures items == prefix + RecordingItems(hourRecordings)
  {
    items := prefix;
    for k := 0 to |hourRecordings|
      invariant items == prefix + RecordingItems(hourRecordings[..k])
    {
      assert hourRecordings[..k + 1][..k] == hourRecordings[..k];
      items := items + [RecordingItem(hourRecordings[k])];
    }
    assert hourRecordings[..|hourRecordings|] == hourRecordings;
  }

  // ---------------------------------------------------------------- what the tree shows

  /** The days of the day nodes, in list order. */
  function DaysShown(items: seq<TreeItem>): seq<string> {
    if items == [] then []
    else
      var last := items[|items| - 1];
      DaysShown(items[..|items| - 1]) + (if last.DayItem? then [last.day] else [])
  }

  /** The recordings of the leaves, in list order. */
  function RecordingsShown(items: seq<TreeItem>): seq<Recording> {
    if items == [] then []
    else
      var last := items[|items| - 1];
      RecordingsShown(items[..|items| - 1]) + (if last.RecordingItem? then [last.recording] else [])
  }

  lemma {:induction false} DaysShownAppend(a: seq<TreeItem>, b: seq<TreeItem>)
    ensures DaysShown(a + b) == DaysShown(a) + DaysShown(b)
    decreases |b|
  {
    if b == [] {
      assert a + b == a;
    } else {
      assert (a + b)[..|a + b| - 1] == a + b[..|b| - 1];
      DaysShownAppend(a, b[..|b| - 1]);
    }
  }

  lemma {:induction false} RecordingsShownAppend(a: seq<TreeItem>, b: seq<TreeItem>)
    ensures RecordingsShown(a + b) == RecordingsShown(a) + RecordingsShown(b)
    decreases |b|
  {
    if b == [] {
      assert a + b == a;
    } else {
      assert (a + b)[..|a + b| - 1] == a + b[..|b| - 1];
      RecordingsShownAppend(a, b[..|b| - 1]);
    }
  }

  lemma {:induction false} LeavesShowTheirRecordings(rs: seq<Recording>)
    ensures DaysShown(RecordingItems(rs)) == []
    ensures RecordingsShown(RecordingItems(rs)) == rs
    decreases |rs|
  {
    if rs != [] {
      var items := RecordingItems(rs);
      assert items[..|items| - 1] == RecordingItems(rs[..|rs| - 1]);
      LeavesShowTheirRecordings(rs[..|rs| - 1]);
    }
  }

  lemma {:induction false} HourBlocksShowNoDays(day: string, drs: seq<Recording>, hours: seq<string>, eh: set<string>)
    ensures DaysShown(HourBlocks(day, drs, hours, eh)) == []
    decreases |hours|
  {
    if hours != [] {
      var hour := hours[|hours| - 1];
      var hrs := Group(drs, ByHour, hour);
      HourBlocksShowNoDays(day, drs, hours[..|hours| - 1], eh);
      LeavesShowTheirRecordings(hrs);
      var tail := if HourKey(day, hour) in eh then RecordingItems(hrs) else [];
      DaysShownAppend([HourItem(day, hour, |hrs|, HourKey(day, hour) in eh)], tail);
      assert DaysShown([HourItem(day, hour, |hrs|, HourKey(day, hour) in eh)]) == [];
      DaysShownAppend(HourBlocks(day, drs, hours[..|hours| - 1], eh), HourBlock(day, hour, hrs, eh));
    }
  }

  lemma {:induction false} DayBlocksShowDays(rs: seq<Recording>, days: seq<string>, ed: set<string>, eh: set<string>)
    ensures DaysShown(DayBlocks(rs, days, ed, eh)) == days
    decreases |days|
  {
    if days != [] {
      var day := days[|days| - 1];
      var front := days[..|days| - 1];
      assert days == front + [day];
      DayBlocksShowDays(rs, front, ed, eh);
      DayBlockShowsItsDay(day, Group(rs, ByDay, day), ed, eh);
      DaysShownAppend(DayBlocks(rs, front, ed, eh), DayBlock(day, Group(rs, ByDay, day), ed, eh));
    }
  }

  lemma DayBlockShowsItsDay(day: string, drs: seq<Recording>, ed: set<string>, eh: set<string>)
    ensures DaysShown(DayBlock(day, drs, ed, eh)) == [day]
  {
    var head := [DayItem(day, |drs|, SumDurations(drs), day in ed)];
    var tail := if day in ed then HourBlocks(day, drs, Keys(drs, ByHour), eh) else [];
    HourBlocksShowNoDays(day, drs, Keys(drs, ByHour), eh);
    DaysShownAppend(head, tail);
    assert DaysShown(head) == [day] by {
      assert head[..0] == [];
    }
  }

  /** The day nodes are the days that have recordings, each once, in order of first appearance. */
  lemma TreeDays(rs: seq<Recording>, ed: set<string>, eh: set<string>)
    ensures DaysShown(Tree(rs, ed, eh)) == Keys(rs, ByDay)
    ensures Distinct(DaysShown(Tree(rs, ed, eh)))
    ensures forall d :: d in DaysShown(Tree(rs, ed, eh)) <==> exists r :: r in rs && r.dayFolder == d
  {
    DayBlocksShowDays(rs, Keys(rs, ByDay), ed, eh);
    KeysFacts(rs, ByDay);
  }

  /** With no day expanded the list holds only day nodes, one per day. */
  lemma {:induction false} CollapsedTreeHasOnlyDays(rs: seq<Recording>, days: seq<string>, eh: set<string>)
    ensures |DayBlocks(rs, days, {}, eh)| == |days|
    ensures forall it :: it in DayBlocks(rs, days, {}, eh) ==> it.DayItem?
    decreases |days|
  {
    if days != [] {
      CollapsedTreeHasOnlyDays(rs, days[..|days| - 1], eh);
    }
  }

  // ---------------------------------------------------------------- every recording shown once when all is expanded

  /** The multiset union of the groups of `keys`. */
  function GroupsUnion(rs: seq<Recording>, g: Grouping, keys: seq<string>): multiset<Recording> {
    if keys == [] then multiset{}
    else GroupsUnion(rs, g, keys[..|keys| - 1]) + multiset(Group(rs, g, keys[|keys| - 1]))
  }

  lemma {:induction false} GroupsUnionStep(rs: seq<Recording>, x: Recording, g: Grouping, keys: seq<string>)
    requires Distinct(keys)
    ensures GroupsUnion(rs + [x], g, keys)
         == GroupsUnion(rs, g, keys) + (if KeyOf(g, x) in keys then multiset{x} else multiset{})
    decreases |keys|
  {
    if keys != [] {
      var k := keys[|keys| - 1];
      var front := keys[..|keys| - 1];
      assert keys == front + [k];
      assert Distinct(front) by {
        forall i, j | 0 <= i < j < |front| ensures front[i] != front[j] {
          assert front[i] == keys[i] && front[j] == keys[j];
        }
      }
      assert k !in front by {
        forall i | 0 <= i < |front| ensures front[i] != k {
          assert front[i] == keys[i];
        }
      }
      GroupsUnionStep(rs, x, g, front);
      GroupStep(rs, x, g, k);
    }
  }

  /** `groupBy` partitions: together the groups hold every recording exactly once. */
  lemma {:induction false} GroupsPartition(rs: seq<Recording>, g: Grouping)
    ensures GroupsUnion(rs, g, Keys(rs, g)) == multiset(rs)
    decreases |rs|
  {
    if rs != [] {
      var front := rs[..|rs| - 1];
      var x := rs[|rs| - 1];
      assert rs == front + [x];
      var ks := Keys(front, g);
      GroupsPartition(front, g);
      KeysStep(front, x, g);
      KeysFacts(front, g);
      GroupsUnionStep(front, x, g, ks);
      assert multiset(rs) == multiset(front) + multiset{x};
      if KeyOf(g, x) in ks {
        assert Keys(rs, g) == ks;
        assert GroupsUnion(rs, g, ks) == multiset(front) + multiset{x};
      } else {
        assert Keys(rs, g) == ks + [KeyOf(g, x)];
        assert GroupsUnion(rs, g, ks) == multiset(front);
        NewKeyUnion(front, x, g);
      }
    }
  }

  lemma NewKeyUnion(rs: seq<Recording>, x: Recording, g: Grouping)
    requires KeyOf(g, x) !in Keys(rs, g)
    ensures GroupsUnion(rs + [x], g, Keys(rs, g) + [KeyOf(g, x)])
         == GroupsUnion(rs + [x], g, Keys(rs, g)) + multiset{x}
  {
    var ks := Keys(rs, g);
    assert (ks + [KeyOf(g, x)])[..|ks|] == ks;
    GroupStep(rs, x, g, KeyOf(g, x));
    GroupOfAbsentKey(rs, g, KeyOf(g, x));
  }

  /** With every hour of the day expanded, the hour blocks show the groups of their hours. */
  lemma {:induction false} HourBlocksShowGroups(day: string, drs: seq<Recording>, hours: seq<string>, eh: set<string>)
    requires forall h :: h in hours ==> HourKey(day, h) in eh
    ensures multiset(RecordingsShown(HourBlocks(day, drs, hours, eh))) == GroupsUnion(drs, ByHour, hours)
    decreases |hours|
  {
    if hours != [] {
      var hour := hours[|hours| - 1];
      var hrs := Group(drs, ByHour, hour);
      var front := hours[..|hours| - 1];
      assert hour in hours;
      HourBlocksShowGroups(day, drs, front, eh);
      LeavesShowTheirRecordings(hrs);
      var head := [HourItem(day, hour, |hrs|, true)];
      RecordingsShownAppend(head, RecordingItems(hrs));
      assert RecordingsShown(head) == [] by {
        assert head[..0] == [];
      }
      RecordingsShownAppend(HourBlocks(day, drs, front, eh), HourBlock(day, hour, hrs, eh));
    }
  }

  /** With all days and their hours expanded, the day blocks show the groups of their days. */
  lemma {:induction false} DayBlocksShowGroups(rs: seq<Recording>, days: seq<string>, ed: set<string>, eh: set<string>)
    requires forall r :: r in rs ==> r.dayFolder in ed && HourKey(r.dayFolder, r.hourFolder) in eh
    requires forall d :: d in days ==> d in Keys(rs, ByDay)
    ensures multiset(RecordingsShown(DayBlocks(rs, days, ed, eh))) == GroupsUnion(rs, ByDay, days)
    decreases |days|
  {
    if days != [] {
      var day := days[|days| - 1];
      var front := days[..|days| - 1];
      assert days == front + [day];
      DayBlocksShowGroups(rs, front, ed, eh);
      DayBlockShowsGroup(rs, day, ed, eh);
      RecordingsShownAppend(DayBlocks(rs, front, ed, eh), DayBlock(day, Group(rs, ByDay, day), ed, eh));
    }
  }

  /** An expanded day whose hours are all expanded shows exactly its recordings. */
  lemma DayBlockShowsGroup(rs: seq<Recording>, day: string, ed: set<string>, eh: set<string>)
    requires forall r :: r in rs ==> r.dayFolder in ed && HourKey(r.dayFolder, r.hourFolder) in eh
    requires day in Keys(rs, ByDay)
    ensures multiset(RecordingsShown(DayBlock(day, Group(rs, ByDay, day), ed, eh))) == multiset(Group(rs, ByDay, day))
  {
    var drs := Group(rs, ByDay, day);
    KeysFacts(rs, ByDay);
    var r :| r in rs && r.dayFolder == day;
    assert day in ed;
    var hours := Keys(drs, ByHour);
    KeysFacts(drs, ByHour);
    GroupMembers(rs, ByDay, day);
    forall h | h in hours ensures HourKey(day, h) in eh {
      var x :| x in drs && x.hourFolder == h;
    }
    HourBlocksShowGroups(day, drs, hours, eh);
    GroupsPartition(drs, ByHour);
    var head := [DayItem(day, |drs|, SumDurations(drs), true)];
    RecordingsShownAppend(head, HourBlocks(day, drs, hours, eh));
    assert RecordingsShown(head) == [] by {
      assert head[..0] == [];
    }
  }

  /** With everything expanded, every recording appears as exactly one leaf. */
  lemma ExpandedTreeShowsEveryRecordingOnce(rs: seq<Recording>, ed: set<string>, eh: set<string>)
    requires forall r :: r in rs ==> r.dayFolder in ed && HourKey(r.dayFolder, r.hourFolder) in eh
    ensures multiset(RecordingsShown(Tree(rs, ed, eh))) == multiset(rs)
  {
    DayBlocksShowGroups(rs, Keys(rs, ByDay), ed, eh);
    GroupsPartition(rs, ByDay);
  }

  // ---------------------------------------------------------------- every node is faithful to the data

  /**
   * What a node of the tree says: a day node's count and total are those of
   * its day; an hour node sits under an expanded day and counts a non-empty
   * hour; a leaf is a recording whose day and hour are both expanded.
   */
  ghost predicate Faithful(rs: seq<Recording>, ed: set<string>, eh: set<string>, it: TreeItem) {
    match it
    case DayItem(d, c, t, e) =>
      c == |Group(rs, ByDay, d)| && t == SumDurations(Group(rs, ByDay, d)) && e == (d in ed)
    case HourItem(d, h, c, e) =>
      d in ed && c == |Group(Group(rs, ByDay, d), ByHour, h)| && c >= 1 && e == (HourKey(d, h) in eh)
    case RecordingItem(r) =>
      r in rs && r.dayFolder in ed && HourKey(r.dayFolder, r.hourFolder) in eh
  }

  lemma {:induction false} HourBlocksFaithful(rs: seq<Recording>, ed: set<string>, eh: set<string>, day: string, hours: seq<string>)
    requires day in ed
    requires forall h :: h in hours ==> h in Keys(Group(rs, ByDay, day), ByHour)
    ensures forall it :: it in HourBlocks(day, Group(rs, ByDay, day), hours, eh) ==> Faithful(rs, ed, eh, it)
    decreases |hours|
  {
    if hours != [] {
      var drs := Group(rs, ByDay, day);
      var hour := hours[|hours| - 1];
      var hrs := Group(drs, ByHour, hour);
      assert hour in hours;
      HourBlocksFaithful(rs, ed, eh, day, hours[..|hours| - 1]);
      KeysFacts(drs, ByHour);
      GroupMembers(drs, ByHour, hour);
      GroupMembers(rs, ByDay, day);
      var x :| x in drs && x.hourFolder == hour;
      assert x in hrs;
      forall it | it in HourBlock(day, hour, hrs, eh) ensures Faithful(rs, ed, eh, it) {
        if it.RecordingItem? {
          var i :| 0 <= i < |RecordingItems(hrs)| && RecordingItems(hrs)[i] == it;
          assert hrs[i] in hrs;
        }
      }
    }
  }

  lemma {:induction false} DayBlocksFaithful(rs: seq<Recording>, ed: set<string>, eh: set<string>, days: seq<string>)
    ensures forall it :: it in DayBlocks(rs, days, ed, eh) ==> Faithful(rs, ed, eh, it)
    decreases |days|
  {
    if days != [] {
      var day := days[|days| - 1];
      DayBlocksFaithful(rs, ed, eh, days[..|days| - 1]);
      if day in ed {
        HourBlocksFaithful(rs, ed, eh, day, Keys(Group(rs, ByDay, day), ByHour));
      }
    }
  }

  /** Every node of the list is faithful to the recordings and the expansion sets. */
  lemma TreeFaithful(rs: seq<Recording>, ed: set<string>, eh: set<string>)
    ensures forall it :: it in Tree(rs, ed, eh) ==> Faithful(rs, ed, eh, it)
  {
    DayBlocksFaithful(rs, ed, eh, Keys(rs, ByDay));
  }
}
