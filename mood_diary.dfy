// `MoodDiary`: the entry form (a selected mood and a note, submitted into
// the provider's history) and the list of the five most recent entries.

module MoodDiary {
  import opened MoodTypes
  import opened Storage
  import opened StableSort
  import opened MoodHistory
  import opened MoodContext

  /** How many entries the recent list shows. */
  const RecentCount := 5

  /** The form's state; `context` is the provider the form is rendered under. */
  class MoodDiaryForm {
    const context: MoodProvider
    var selectedMood: Mood
    var noteText: string

    /** The form starts with 'happy' selected and an empty note. */
    constructor (context: MoodProvider)
      ensures this.context == context
      ensures selectedMood == Happy && noteText == ""
    {
      this.context := context;
      selectedMood := Happy;
      noteText := "";
    }

    method SelectMood(mood: Mood)
      modifies this
      ensures selectedMood == mood && noteText == old(noteText)
    {
      selectedMood := mood;
    }

    method SetNoteText(text: string)
      modifies this
      ensures noteText == text && selectedMood == old(selectedMood)
    {
      noteText := text;
    }

    /**
     * Submitting appends one entry with the selected mood and the note to
     * the history (persisting it when the write is accepted) and empties the
     * note; the selected mood and the session's current mood stay as they were.
     */
    method HandleSubmit(id: string, date: string, now: int, accept: bool)
      requires context.Valid()
      modifies this, context.history, context.history.storage
      ensures context.history.moodHistory ==
        old(context.history.moodHistory) + [MoodEntry(id, date, Label(old(selectedMood)), old(noteText), now)]
      ensures context.history.storage.items ==
        if accept then old(context.history.storage.items)[HistoryKey := context.history.codec.encode(context.history.moodHistory)]
        else old(context.history.storage.items)
      ensures noteText == "" && selectedMood == old(selectedMood)
      ensures context.currentMood == old(context.currentMood)
      ensures context.session.items == old(context.session.items)
    {
      context.AddMoodEntry(selectedMood, noteText, id, date, now, accept);
      noteText := "";
    }
  }

  /** The comparator `(a, b) => b.timestamp - a.timestamp`: newest first. */
  function NewestFirst(a: MoodEntry, b: MoodEntry): (r: int)
    ensures r < 0 <==> a.timestamp > b.timestamp
    ensures r == 0 <==> a.timestamp == b.timestamp
  {
    Sign((b.timestamp - a.timestamp) as real)
  }

  /** Ordering by timestamp, newest first, is a consistent comparator. */
  lemma NewestFirstIsPreorder()
    ensures TotalPreorder(NewestFirst)
  {
    KeyDifferenceIsPreorder(NewestFirst, (e: MoodEntry) => -(e.timestamp as real));
  }

  function Min(a: int, b: int): int
  {
    if a <= b then a else b
  }

  /** The history sorted newest first. */
  function ByNewest(h: seq<MoodEntry>): (r: seq<MoodEntry>)
    ensures multiset(r) == multiset(h) && |r| == |h|
    ensures forall i, j :: 0 <= i < j < |r| ==> r[i].timestamp >= r[j].timestamp
  {
    NewestInOrder(h);
    Sort(h, NewestFirst)
  }

  lemma NewestInOrder(h: seq<MoodEntry>)
    ensures forall i, j :: 0 <= i < j < |h| ==>
      Sort(h, NewestFirst)[i].timestamp >= Sort(h, NewestFirst)[j].timestamp
  {
    NewestFirstIsPreorder();
    SortIsSorted(h, NewestFirst);
    var r := Sort(h, NewestFirst);
    forall i, j | 0 <= i < j < |r| ensures r[i].timestamp >= r[j].timestamp {
      assert NewestFirst(r[i], r[j]) <= 0;
    }
  }

  /** A copy of the history sorted newest first, cut to its first five. */
  function RecentEntries(h: seq<MoodEntry>): (r: seq<MoodEntry>)
    ensures |r| == Min(RecentCount, |h|)
    ensures multiset(r) <= multiset(h)
    ensures forall i, j :: 0 <= i < j < |r| ==> r[i].timestamp >= r[j].timestamp
  {
    var sorted := ByNewest(h);
    var n := Min(RecentCount, |h|);
    SplitMultiset(sorted, n);
    sorted[..n]
  }

  lemma SplitMultiset(s: seq<MoodEntry>, n: nat)
    requires n <= |s|
    ensures multiset(s) == multiset(s[..n]) + multiset(s[n..])
  {
    assert s == s[..n] + s[n..];
  }

  /** Every entry left out of the recent list is no newer than any entry shown. */
  lemma OmittedAreOlder(h: seq<MoodEntry>, e: MoodEntry, k: int)
    requires e in multiset(h) - multiset(RecentEntries(h))
    requires 0 <= k < |RecentEntries(h)|
    ensures e.timestamp <= RecentEntries(h)[k].timestamp
  {
    var sorted := ByNewest(h);
    var n := Min(RecentCount, |h|);
    var r := sorted[..n];
    assert RecentEntries(h) == r;
    SplitMultiset(sorted, n);
    assert e in multiset(sorted[n..]);
    var m :| 0 <= m < |sorted[n..]| && sorted[n..][m] == e;
    assert sorted[n + m] == e && sorted[k] == r[k];
  }

  /** With at most five entries, the recent list holds all of them. */
  lemma ShortHistoryShownWhole(h: seq<MoodEntry>)
    requires |h| <= RecentCount
    ensures multiset(RecentEntries(h)) == multiset(h)
  {
    var sorted := ByNewest(h);
    assert sorted[..|h|] == sorted;
  }

  /** The emoji of the mood option whose value is the entry's mood, if any. */
  function EntryEmoji(mood: string): (r: Option<string>)
    ensures r.Some? <==> ParseMood(mood).Some?
    ensures r.Some? ==> r.value == MoodEmoji(ParseMood(mood).value)
  {
    match ParseMood(mood)
    case Some(m) => Some(MoodEmoji(m))
    case None => None
  }

  /** One recent-entry card: the entry, its emoji, and whether the note paragraph shows. */
  datatype EntryCard = EntryCard(entry: MoodEntry, emoji: Option<string>, showNote: bool)

  datatype RecentView = NoEntries | Recent(cards: seq<EntryCard>)

  /** The recent-entries panel: the empty message, or up to five cards, newest first. */
  function RecentPanel(h: seq<MoodEntry>): (v: RecentView)
    ensures v.NoEntries? <==> h == []
    ensures v.Recent? ==> 1 <= |v.cards| <= RecentCount && |v.cards| <= |h|
    ensures v.Recent? ==> |v.cards| == |RecentEntries(h)|
    ensures v.Recent? ==> forall k :: 0 <= k < |v.cards| ==>
      && v.cards[k].entry == RecentEntries(h)[k]
      && v.cards[k].entry in h
      && v.cards[k].emoji == EntryEmoji(v.cards[k].entry.mood)
      && (v.cards[k].showNote <==> v.cards[k].entry.note != "")
  {
    if |h| == 0 then NoEntries
    else
      var r := RecentEntries(h);
      assert forall k :: 0 <= k < |r| ==> r[k] in multiset(h);
      Recent(seq(|r|, k requires 0 <= k < |r| => EntryCard(r[k], EntryEmoji(r[k].mood), r[k].note != "")))
  }

  /** An entry written through the form always has an emoji. */
  lemma SubmittedEntriesHaveEmoji(m: Mood)
    ensures EntryEmoji(Label(m)).Some?
  {
    ParseLabel(m);
  }
}
