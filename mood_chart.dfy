// `MoodChart`: the diary entries as one averaged mood score per day over a
// window of the last ten days. Dates are abstracted: `dayKey` is the local
// 'MMM dd' label of a millisecond timestamp (month and day, no year) and
// `subDays` steps a timestamp back by whole local days.

module MoodChart {
  import opened MoodTypes

  datatype Calendar = Calendar(dayKey: int -> string, subDays: (int, int) -> int)

  const WindowDays := 10

  /** `moodToValue[entry.mood] || 3`: the charted ordinal of a stored label. */
  function MoodToValue(name: string): (v: int)
    ensures 1 <= v <= 5
  {
    if name == "happy" then 5
    else if name == "energetic" then 4
    else if name == "calm" then 3
    else if name == "sad" then 2
    else if name == "angry" then 1
    else 3
  }

  /** The five moods chart at five different ordinals; anything else charts as calm. */
  lemma MoodOrdinals(name: string)
    ensures MoodToValue(Label(Happy)) == 5 && MoodToValue(Label(Energetic)) == 4
    ensures MoodToValue(Label(Calm)) == 3 && MoodToValue(Label(Sad)) == 2
    ensures MoodToValue(Label(Angry)) == 1
    ensures ParseMood(name).None? ==> MoodToValue(name) == MoodToValue(Label(Calm))
    ensures forall a: Mood, b: Mood :: MoodToValue(Label(a)) == MoodToValue(Label(b)) ==> a == b
  {
  }

  /** `valueToMood`: the axis and tooltip caption of an ordinal. */
  function ValueToMood(v: int): (r: Option<string>)
    ensures r.Some? <==> 1 <= v <= 5
  {
    if v == 5 then Some("Happy \U{1F60A}")
    else if v == 4 then Some("Energetic \U{26A1}")
    else if v == 3 then Some("Calm \U{1F60C}")
    else if v == 2 then Some("Sad \U{1F622}")
    else if v == 1 then Some("Angry \U{1F620}")
    else None
  }

  /**
   * `valueToMood` undoes `moodToValue` on the five moods: a mood's ordinal is
   * captioned with that mood's own name and emoji, and every captioned
   * ordinal is some mood's.
   */
  lemma ValueToMoodInvertsMoodToValue()
    ensures forall m: Mood :: ValueToMood(MoodToValue(Label(m))) == Some(MoodName(m) + " " + MoodEmoji(m))
    ensures forall v :: ValueToMood(v).Some? ==> exists m: Mood :: MoodToValue(Label(m)) == v
    ensures forall a: Mood, b: Mood ::
      ValueToMood(MoodToValue(Label(a))) == ValueToMood(MoodToValue(Label(b))) ==> a == b
  {
    MoodOrdinals("");
    forall m: Mood ensures ValueToMood(MoodToValue(Label(m))) == Some(MoodName(m) + " " + MoodEmoji(m)) {
      CaptionOfMood(m);
    }
    forall v | ValueToMood(v).Some? ensures exists m: Mood :: MoodToValue(Label(m)) == v {
      var m := if v == 5 then Happy else if v == 4 then Energetic else if v == 3 then Calm else if v == 2 then Sad else Angry;
      assert MoodToValue(Label(m)) == v;
    }
  }

  /** The caption of one mood's ordinal is its name, a space and its emoji. */
  lemma CaptionOfMood(m: Mood)
    ensures ValueToMood(MoodToValue(Label(m))) == Some(MoodName(m) + " " + MoodEmoji(m))
  {
    match m
    case Happy => assert MoodName(m) + " " + MoodEmoji(m) == "Happy \U{1F60A}";
    case Sad => assert MoodName(m) + " " + MoodEmoji(m) == "Sad \U{1F622}";
    case Energetic => assert MoodName(m) + " " + MoodEmoji(m) == "Energetic \U{26A1}";
    case Calm => assert MoodName(m) + " " + MoodEmoji(m) == "Calm \U{1F60C}";
    case Angry => assert MoodName(m) + " " + MoodEmoji(m) == "Angry \U{1F620}";
  }

  /** `lastTenDays`: label `i` is the day `9 - i` days before today, oldest first. */
  function Window(cal: Calendar, today: int): (labels: seq<string>)
    ensures |labels| == WindowDays
    ensures forall i :: 0 <= i < WindowDays ==> labels[i] == cal.dayKey(cal.subDays(today, WindowDays - 1 - i))
  {
    seq(WindowDays, i requires 0 <= i < WindowDays => cal.dayKey(cal.subDays(today, WindowDays - 1 - i)))
  }

  /** The `reduce`: a sum folded from the left. */
  function Sum(vals: seq<int>): int
  {
    if vals == [] then 0 else Sum(vals[..|vals| - 1]) + vals[|vals| - 1]
  }

  /** Folding from the left agrees with folding from the right. */
  lemma {:induction false} SumFromFront(vals: seq<int>)
    requires vals != []
    ensures Sum(vals) == vals[0] + Sum(vals[1..])
  {
    var init := vals[..|vals| - 1];
    if init != [] {
      SumFromFront(init);
      assert init[1..] == vals[1..][..|vals[1..]| - 1];
    }
  }

  /** The values pushed into the bucket of `key`, in entry order. */
  function Bucket(entries: seq<MoodEntry>, cal: Calendar, key: string): (b: seq<int>)
    ensures |b| <= |entries|
    ensures forall k :: 0 <= k < |b| ==> 1 <= b[k] <= 5
    ensures b == [] <==> forall e :: e in entries ==> cal.dayKey(e.timestamp) != key
  {
    if entries == [] then []
    else
      var e := entries[|entries| - 1];
      var rest := Bucket(entries[..|entries| - 1], cal, key);
      assert forall x :: x in entries <==> x in entries[..|entries| - 1] || x == e by {
        assert entries == entries[..|entries| - 1] + [e];
      }
      if cal.dayKey(e.timestamp) == key then rest + [MoodToValue(e.mood)] else rest
  }

  /** The score of one day: no data for an empty bucket, else the mean. */
  function DayScore(vals: seq<int>): (r: Option<real>)
    ensures r.None? <==> vals == []
  {
    if vals == [] then None else Some(Sum(vals) as real / |vals| as real)
  }

  datatype ChartData = ChartData(labels: seq<string>, data: seq<Option<real>>)

  /** `getChartData`, stated over the buckets directly. */
  function ChartOf(entries: seq<MoodEntry>, cal: Calendar, today: int): (c: ChartData)
    ensures c.labels == Window(cal, today)
    ensures |c.data| == |c.labels|
    ensures forall i :: 0 <= i < |c.data| ==> c.data[i] == DayScore(Bucket(entries, cal, c.labels[i]))
  {
    var labels := Window(cal, today);
    ChartData(labels, seq(WindowDays, i requires 0 <= i < WindowDays => DayScore(Bucket(entries, cal, labels[i]))))
  }

  /** The `forEach` that fills `moodByDate`. */
  method BucketByDay(entries: seq<MoodEntry>, cal: Calendar) returns (moodByDate: map<string, seq<int>>)
    ensures forall key :: key in moodByDate <==> Bucket(entries, cal, key) != []
    ensures forall key :: key in moodByDate ==> moodByDate[key] == Bucket(entries, cal, key)
  {
    moodByDate := map[];
    var i := 0;
    while i < |entries|
      invariant 0 <= i <= |entries|
      invariant forall key :: key in moodByDate <==> Bucket(entries[..i], cal, key) != []
      invariant forall key :: key in moodByDate ==> moodByDate[key] == Bucket(entries[..i], cal, key)
    {
      var entry := entries[i];
      var entryDate := cal.dayKey(entry.timestamp);
      var moodValue := MoodToValue(entry.mood);
      if entryDate !in moodByDate {
        moodByDate := moodByDate[entryDate := []];
      }
      moodByDate := moodByDate[entryDate := moodByDate[entryDate] + [moodValue]];
      assert entries[..i + 1][..i] == entries[..i];
      i := i + 1;
    }
    assert entries[..i] == entries;
  }

  method GetChartData(entries: seq<MoodEntry>, cal: Calendar, today: int) returns (chart: ChartData)
    ensures chart == ChartOf(entries, cal, today)
  {
    var lastTenDays := Window(cal, today);
    var moodByDate := BucketByDay(entries, cal);
    var moodData := seq(WindowDays, i requires 0 <= i < WindowDays =>
      if lastTenDays[i] !in moodByDate || |moodByDate[lastTenDays[i]]| == 0 then None
      else Some(Sum(moodByDate[lastTenDays[i]]) as real / |moodByDate[lastTenDays[i]]| as real));
    chart := ChartData(lastTenDays, moodData);
  }

  datatype ChartView = NoDataPlaceholder | LineChart(chart: ChartData)

  /** An empty history shows the placeholder and builds no chart data. */
  method Render(entries: seq<MoodEntry>, cal: Calendar, today: int) returns (view: ChartView)
    ensures view.NoDataPlaceholder? <==> entries == []
    ensures view.LineChart? ==> view.chart == ChartOf(entries, cal, today)
  {
    if |entries| == 0 {
      return NoDataPlaceholder;
    }
    var chart := GetChartData(entries, cal, today);
    view := LineChart(chart);
  }

  // ---------------------------------------------------------------------
  // What the chart promises

  /** A window day without entries yields no data, never a score of 0. */
  lemma NoDataIffNoEntries(entries: seq<MoodEntry>, cal: Calendar, today: int, i: int)
    requires 0 <= i < WindowDays
    ensures ChartOf(entries, cal, today).data[i].None? <==>
      forall e :: e in entries ==> cal.dayKey(e.timestamp) != Window(cal, today)[i]
  {
  }

  lemma {:induction false} SumBounds(vals: seq<int>, lo: int, hi: int)
    requires forall k :: 0 <= k < |vals| ==> lo <= vals[k] <= hi
    ensures lo * |vals| <= Sum(vals) <= hi * |vals|
  {
    if vals != [] {
      var n := |vals|;
      var init := vals[..n - 1];
      SumBounds(init, lo, hi);
    }
  }

  /** The mean of values that all lie in [lo, hi] lies in [lo, hi]. */
  lemma MeanBounds(vals: seq<int>, lo: int, hi: int)
    requires vals != []
    requires forall k :: 0 <= k < |vals| ==> lo <= vals[k] <= hi
    ensures lo as real <= DayScore(vals).value <= hi as real
  {
    SumBounds(vals, lo, hi);
    var n := |vals| as real;
    var s := Sum(vals) as real;
    assert lo as real * n <= s <= hi as real * n;
    DivBounds(s, n, lo as real, hi as real);
  }

  lemma DivBounds(s: real, n: real, lo: real, hi: real)
    requires n > 0.0
    requires lo * n <= s <= hi * n
    ensures lo <= s / n <= hi
  {
    assert s == (s / n) * n;
  }

  /**
   * A day with entries scores the sum of their ordinals over their count:
   * a value within every range that holds all of them, so within [1, 5].
   */
  lemma ScoreWithinBucket(entries: seq<MoodEntry>, cal: Calendar, today: int, i: int, lo: int, hi: int)
    requires 0 <= i < WindowDays
    requires ChartOf(entries, cal, today).data[i].Some?
    requires forall v :: v in Bucket(entries, cal, Window(cal, today)[i]) ==> lo <= v <= hi
    ensures var b := Bucket(entries, cal, Window(cal, today)[i]);
      && b != []
      && ChartOf(entries, cal, today).data[i] == Some(Sum(b) as real / |b| as real)
      && lo as real <= ChartOf(entries, cal, today).data[i].value <= hi as real
  {
    var c := ChartOf(entries, cal, today);
    var b := Bucket(entries, cal, c.labels[i]);
    assert c.data[i] == DayScore(b);
    assert forall k :: 0 <= k < |b| ==> b[k] in b;
    MeanBounds(b, lo, hi);
  }

  lemma ScoreWithinOrdinals(entries: seq<MoodEntry>, cal: Calendar, today: int, i: int)
    requires 0 <= i < WindowDays
    requires ChartOf(entries, cal, today).data[i].Some?
    ensures 1.0 <= ChartOf(entries, cal, today).data[i].value <= 5.0
  {
    ScoreWithinBucket(entries, cal, today, i, 1, 5);
  }

  lemma {:induction false} SumAppend(a: seq<int>, b: seq<int>)
    ensures Sum(a + b) == Sum(a) + Sum(b)
    decreases |b|
  {
    if b == [] {
      assert a + b == a;
    } else {
      assert (a + b)[..|a + b| - 1] == a + b[..|b| - 1];
      assert (a + b)[|a + b| - 1] == b[|b| - 1];
      SumAppend(a, b[..|b| - 1]);
    }
  }

  lemma {:induction false} BucketAppend(a: seq<MoodEntry>, b: seq<MoodEntry>, cal: Calendar, key: string)
    ensures Bucket(a + b, cal, key) == Bucket(a, cal, key) + Bucket(b, cal, key)
    decreases |b|
  {
    if b == [] {
      assert a + b == a;
    } else {
      assert (a + b)[..|a + b| - 1] == a + b[..|b| - 1];
      BucketAppend(a, b[..|b| - 1], cal, key);
    }
  }

  /** Every entry lands in its own day's bucket and in no other. */
  lemma EntryInOwnBucketOnly(entries: seq<MoodEntry>, e: MoodEntry, cal: Calendar, key: string)
    ensures Bucket(entries + [e], cal, key) ==
      if cal.dayKey(e.timestamp) == key then Bucket(entries, cal, key) + [MoodToValue(e.mood)]
      else Bucket(entries, cal, key)
  {
    assert (entries + [e])[..|entries + [e]| - 1] == entries;
  }

  /** Bucket totals do not depend on the order of the entries. */
  lemma {:induction false} BucketTotalsOrderFree(s1: seq<MoodEntry>, s2: seq<MoodEntry>, cal: Calendar, key: string)
    requires multiset(s1) == multiset(s2)
    ensures Sum(Bucket(s1, cal, key)) == Sum(Bucket(s2, cal, key))
    ensures |Bucket(s1, cal, key)| == |Bucket(s2, cal, key)|
    decreases |s1|
  {
    if s1 == [] {
      assert |s2| == |multiset(s2)| == 0;
    } else {
      var x := s1[|s1| - 1];
      var r1 := s1[..|s1| - 1];
      DropLast(s1);
      var pre, post := RemoveOne(s2, x);
      var r2 := pre + post;
      assert multiset(r1) == multiset(r2);
      BucketTotalsOrderFree(r1, r2, cal, key);
      MoveLastTotals(r1, pre, post, x, cal, key);
    }
  }

  /** The inductive step: `x` at the end of one history, and cut out of the middle of another. */
  lemma MoveLastTotals(r: seq<MoodEntry>, pre: seq<MoodEntry>, post: seq<MoodEntry>, x: MoodEntry, cal: Calendar, key: string)
    requires Sum(Bucket(r, cal, key)) == Sum(Bucket(pre + post, cal, key))
    requires |Bucket(r, cal, key)| == |Bucket(pre + post, cal, key)|
    ensures Sum(Bucket(r + [x], cal, key)) == Sum(Bucket(pre + [x] + post, cal, key))
    ensures |Bucket(r + [x], cal, key)| == |Bucket(pre + [x] + post, cal, key)|
  {
    BucketSnoc(r, x, cal, key);
    BucketMoveOut(pre, post, x, cal, key);
  }

  lemma DropLast(s: seq<MoodEntry>)
    requires s != []
    ensures s == s[..|s| - 1] + [s[|s| - 1]]
    ensures s[|s| - 1] in multiset(s)
    ensures multiset(s[..|s| - 1]) == multiset(s) - multiset{s[|s| - 1]}
  {
    assert s == s[..|s| - 1] + [s[|s| - 1]];
  }

  /** Appending one entry adds its own bucket to the total and the count. */
  lemma BucketSnoc(r: seq<MoodEntry>, x: MoodEntry, cal: Calendar, key: string)
    ensures Sum(Bucket(r + [x], cal, key)) == Sum(Bucket(r, cal, key)) + Sum(Bucket([x], cal, key))
    ensures |Bucket(r + [x], cal, key)| == |Bucket(r, cal, key)| + |Bucket([x], cal, key)|
  {
    BucketAppend(r, [x], cal, key);
    SumAppend(Bucket(r, cal, key), Bucket([x], cal, key));
  }

  /** An occurrence of `x` in `s`, cut out. */
  lemma RemoveOne(s: seq<MoodEntry>, x: MoodEntry) returns (pre: seq<MoodEntry>, post: seq<MoodEntry>)
    requires x in multiset(s)
    ensures s == pre + [x] + post
    ensures multiset(pre + post) == multiset(s) - multiset{x}
  {
    var j :| 0 <= j < |s| && s[j] == x;
    pre, post := s[..j], s[j + 1..];
    assert s == pre + [x] + post;
    assert multiset(s) == multiset(pre) + multiset{x} + multiset(post);
  }

  /** Cutting one entry out of a history takes its own bucket out of the total and the count. */
  lemma BucketMoveOut(pre: seq<MoodEntry>, post: seq<MoodEntry>, x: MoodEntry, cal: Calendar, key: string)
    ensures Sum(Bucket(pre + [x] + post, cal, key)) == Sum(Bucket(pre + post, cal, key)) + Sum(Bucket([x], cal, key))
    ensures |Bucket(pre + [x] + post, cal, key)| == |Bucket(pre + post, cal, key)| + |Bucket([x], cal, key)|
  {
    var bp, bx, bq := Bucket(pre, cal, key), Bucket([x], cal, key), Bucket(post, cal, key);
    BucketAppend(pre + [x], post, cal, key);
    BucketAppend(pre, [x], cal, key);
    BucketAppend(pre, post, cal, key);
    SumAppend(bp + bx, bq);
    SumAppend(bp, bx);
    SumAppend(bp, bq);
  }

  /** The chart does not depend on the order of the entries. */
  lemma ChartOrderFree(s1: seq<MoodEntry>, s2: seq<MoodEntry>, cal: Calendar, today: int)
    requires multiset(s1) == multiset(s2)
    ensures ChartOf(s1, cal, today) == ChartOf(s2, cal, today)
  {
    var c1, c2 := ChartOf(s1, cal, today), ChartOf(s2, cal, today);
    forall i | 0 <= i < WindowDays ensures c1.data[i] == c2.data[i] {
      BucketTotalsOrderFree(s1, s2, cal, c1.labels[i]);
    }
  }

  /** An entry whose day is outside the window changes nothing. */
  lemma OutOfWindowIgnored(entries: seq<MoodEntry>, e: MoodEntry, cal: Calendar, today: int)
    requires cal.dayKey(e.timestamp) !in Window(cal, today)
    ensures ChartOf(entries + [e], cal, today) == ChartOf(entries, cal, today)
  {
    var c1, c2 := ChartOf(entries + [e], cal, today), ChartOf(entries, cal, today);
    forall i | 0 <= i < WindowDays ensures c1.data[i] == c2.data[i] {
      EntryInOwnBucketOnly(entries, e, cal, c1.labels[i]);
    }
  }

  /**
   * The day label carries no year: an entry of any age whose label is a
   * window day's label is counted on that day.
   */
  lemma SameLabelCounts(entries: seq<MoodEntry>, e: MoodEntry, cal: Calendar, today: int, i: int)
    requires 0 <= i < WindowDays
    requires cal.dayKey(e.timestamp) == Window(cal, today)[i]
    ensures Bucket(entries + [e], cal, Window(cal, today)[i]) ==
      Bucket(entries, cal, Window(cal, today)[i]) + [MoodToValue(e.mood)]
    ensures ChartOf([e], cal, today).data[i] == Some(MoodToValue(e.mood) as real)
  {
    EntryInOwnBucketOnly(entries, e, cal, Window(cal, today)[i]);
    SingleEntryScore(e, cal, Window(cal, today)[i]);
  }

  /** One entry alone gives its own day the entry's ordinal as score. */
  lemma SingleEntryScore(e: MoodEntry, cal: Calendar, key: string)
    requires cal.dayKey(e.timestamp) == key
    ensures DayScore(Bucket([e], cal, key)) == Some(MoodToValue(e.mood) as real)
  {
    EntryInOwnBucketOnly([], e, cal, key);
    assert [] + [e] == [e];
    var b := Bucket([e], cal, key);
    assert b == [MoodToValue(e.mood)] && Sum(b) == MoodToValue(e.mood);
  }
}
