/**
 * The three-level list's items and their identity for list diffing
 * (`RecordingsAdapter`): day nodes, hour nodes and recording leaves.
 */
module RecordingsAdapter {
  import opened RecordingData
  import RecordingRepository
  import Text

  /** `TreeItem` */
  datatype TreeItem =
    | DayItem(day: string, count: int, totalDuration: int, expanded: bool)
    | HourItem(day: string, hour: string, count: int, expanded: bool)
    | RecordingItem(recording: Recording)

  /** `DiffCallback.areItemsTheSame`: same kind and same key (day; day and hour; recording id). */
  predicate AreItemsTheSame(oldItem: TreeItem, newItem: TreeItem) {
    match (oldItem, newItem)
    case (DayItem(d1, _, _, _), DayItem(d2, _, _, _)) => d1 == d2
    case (HourItem(d1, h1, _, _), HourItem(d2, h2, _, _)) => d1 == d2 && h1 == h2
    case (RecordingItem(r1), RecordingItem(r2)) => r1.id == r2.id
    case _ => false
  }

  /** `DiffCallback.areContentsTheSame`: data-class equality. */
  predicate AreContentsTheSame(oldItem: TreeItem, newItem: TreeItem) {
    oldItem == newItem
  }

  /** Item identity is an equivalence, and equal contents imply the same item, as list diffing requires. */
  lemma DiffCallbackConsistent(a: TreeItem, b: TreeItem, c: TreeItem)
    ensures AreItemsTheSame(a, a)
    ensures AreItemsTheSame(a, b) ==> AreItemsTheSame(b, a)
    ensures AreItemsTheSame(a, b) && AreItemsTheSame(b, c) ==> AreItemsTheSame(a, c)
    ensures AreContentsTheSame(a, b) ==> AreItemsTheSame(a, b)
  {
  }

  /** An expanded node and the same node collapsed are the same item with changed contents. */
  lemma ExpansionChangesContentsOnly(d: string, h: string, c: int, t: int)
    ensures AreItemsTheSame(DayItem(d, c, t, false), DayItem(d, c, t, true))
    ensures !AreContentsTheSame(DayItem(d, c, t, false), DayItem(d, c, t, true))
    ensures AreItemsTheSame(HourItem(d, h, c, false), HourItem(d, h, c, true))
    ensures !AreContentsTheSame(HourItem(d, h, c, false), HourItem(d, h, c, true))
  {
  }

  /** `getItemViewType` */
  function ItemViewType(item: TreeItem): (t: int)
    ensures 0 <= t <= 2
  {
    match item
    case DayItem(_, _, _, _) => 0
    case HourItem(_, _, _, _) => 1
    case RecordingItem(_) => 2
  }

  datatype ViewHolder = DayViewHolder | HourViewHolder | RecordingViewHolder

  /** `onCreateViewHolder`: 0 and 1 pick the day and hour holders, anything else the recording holder. */
  function CreateViewHolder(viewType: int): ViewHolder {
    if viewType == 0 then DayViewHolder
    else if viewType == 1 then HourViewHolder
    else RecordingViewHolder
  }

  /** Each item gets the holder of its own kind, so the casts in `onBindViewHolder` succeed. */
  lemma HolderMatchesItem(item: TreeItem)
    ensures CreateViewHolder(ItemViewType(item)) == match item
      case DayItem(_, _, _, _) => DayViewHolder
      case HourItem(_, _, _, _) => HourViewHolder
      case RecordingItem(_) => RecordingViewHolder
  {
  }

  /** The expansion key of an hour node, `"${day}_${hour}"`, shared by the hour click and the tree builder. */
  function HourKey(day: string, hour: string): string {
    day + "_" + hour
  }

  /** For days without `_`, the key determines the day and the hour. */
  lemma {:induction false} HourKeyInjective(d1: string, h1: string, d2: string, h2: string)
    requires '_' !in d1 && '_' !in d2
    requires HourKey(d1, h1) == HourKey(d2, h2)
    ensures d1 == d2 && h1 == h2
    decreases |d1|
  {
    var k1, k2 := HourKey(d1, h1), HourKey(d2, h2);
    if d1 == [] && d2 == [] {
      assert h1 == k1[1..] && h2 == k2[1..];
    } else if d1 != [] && d2 != [] {
      assert d1[0] == k1[0] == k2[0] == d2[0];
      assert k1[1..] == HourKey(d1[1..], h1) && k2[1..] == HourKey(d2[1..], h2);
      HourKeyInjective(d1[1..], h1, d2[1..], h2);
      assert d1 == [d1[0]] + d1[1..] && d2 == [d2[0]] + d2[1..];
    } else if d1 != [] {
      KeyStartsWithDay(d1, h1, h2);
      assert false;
    } else {
      KeyStartsWithDay(d2, h2, h1);
      assert false;
    }
  }

  lemma KeyStartsWithDay(d: string, h: string, other: string)
    requires d != [] && '_' !in d
    ensures HourKey(d, h)[0] != HourKey([], other)[0]
  {
    assert HourKey(d, h)[0] == d[0];
  }

  /** Day folders are digits and dashes, so hour keys built from them never collide. */
  lemma DayFolderHasNoUnderscore(t: RecordingRepository.LocalTime)
    requires RecordingRepository.ValidTime(t)
    ensures '_' !in RecordingRepository.DayFolder(t)
  {
    RecordingRepository.DayFolderLayout(t);
    var s := RecordingRepository.DayFolder(t);
    forall i | 0 <= i < |s| ensures s[i] != '_' {
      if i < 4 {
        assert s[0..4][i] == s[i];
      } else if 4 < i < 7 {
        assert s[5..7][i - 5] == s[i];
      } else if i > 7 {
        assert s[8..10][i - 8] == s[i];
      }
    }
  }

  /** Without that property keys do collide: the day `a_b` with hour `c` and the day `a` with hour `b_c`. */
  lemma HourKeyAmbiguous()
    ensures HourKey("a_b", "c") == HourKey("a", "b_c")
  {
  }
}
