// The `useMoodHistory` hook: an in-memory list of diary entries mirrored
// into the `mood-history` key of local storage. Every call of the hook owns
// its own list; all of them share the one storage key.

module MoodHistory {
  import opened MoodTypes
  import opened Storage

  const HistoryKey := "mood-history"

  /**
   * The list `loadHistory` leaves in memory: the decoded stored list when
   * the key holds a non-empty value that decodes, otherwise the list that
   * was there before (a missing key, an empty value and a parse error all
   * leave it alone).
   */
  function Loaded(current: seq<MoodEntry>, items: map<string, string>, codec: Codec): (r: seq<MoodEntry>)
    ensures r == current || (HistoryKey in items && codec.decode(items[HistoryKey]) == Some(r))
    ensures HistoryKey !in items ==> r == current
  {
    if HistoryKey in items && items[HistoryKey] != "" then
      match codec.decode(items[HistoryKey])
      case Some(entries) => entries
      case None => current
    else
      current
  }

  /** Save then load: the loaded list is exactly the saved one. */
  lemma LoadAfterSave(current: seq<MoodEntry>, items: map<string, string>, codec: Codec, saved: seq<MoodEntry>)
    requires RoundTrips(codec)
    ensures Loaded(current, items[HistoryKey := codec.encode(saved)], codec) == saved
  {
    assert codec.encode(saved) != "" && codec.decode(codec.encode(saved)) == Some(saved);
  }

  /** Loading twice from the same storage is loading once. */
  lemma LoadIdempotent(current: seq<MoodEntry>, items: map<string, string>, codec: Codec)
    ensures Loaded(Loaded(current, items, codec), items, codec) == Loaded(current, items, codec)
  {
  }

  /** After the key is removed, a load changes nothing. */
  lemma LoadAfterClear(current: seq<MoodEntry>, items: map<string, string>, codec: Codec)
    ensures Loaded(current, items - {HistoryKey}, codec) == current
  {
  }

  /** One call of `useMoodHistory`. */
  class MoodHistoryStore {
    var moodHistory: seq<MoodEntry>
    const storage: KeyValueStore
    const codec: Codec

    /** The hook's state starts as `[]`. */
    constructor (storage: KeyValueStore, codec: Codec)
      ensures moodHistory == []
      ensures this.storage == storage && this.codec == codec
    {
      moodHistory := [];
      this.storage := storage;
      this.codec := codec;
    }

    method LoadHistory()
      modifies this
      ensures moodHistory == Loaded(old(moodHistory), storage.items, codec)
    {
      var saved := storage.GetItem(HistoryKey);
      if saved.Some? && saved.value != "" {
        var parsed := codec.decode(saved.value);
        if parsed.Some? {
          moodHistory := parsed.value;
        }
      }
    }

    /** Writes the encoded list; a refused write is caught and logged. */
    method SaveHistory(entries: seq<MoodEntry>, accept: bool)
      modifies storage
      ensures storage.items == if accept then old(storage.items)[HistoryKey := codec.encode(entries)] else old(storage.items)
    {
      storage.SetItem(HistoryKey, codec.encode(entries), accept);
    }

    /**
     * Appends one entry and persists the whole new list. `id` is the value
     * of the UUID generator, `date` the UTC calendar date and `now` the
     * millisecond clock, each read once by the call.
     */
    method AddEntry(mood: Mood, note: string, id: string, date: string, now: int, accept: bool)
      modifies this, storage
      ensures moodHistory == old(moodHistory) + [MoodEntry(id, date, Label(mood), note, now)]
      ensures |moodHistory| == |old(moodHistory)| + 1 && moodHistory[..|old(moodHistory)|] == old(moodHistory)
      ensures storage.items == if accept then old(storage.items)[HistoryKey := codec.encode(moodHistory)] else old(storage.items)
      ensures DistinctIds(old(moodHistory)) && id !in Ids(old(moodHistory)) ==> DistinctIds(moodHistory)
    {
      var newEntry := MoodEntry(id, date, Label(mood), note, now);
      var updated := moodHistory + [newEntry];
      SaveHistory(updated, accept);
      moodHistory := updated;
      if DistinctIds(old(moodHistory)) && id !in Ids(old(moodHistory)) {
        AppendFreshId(old(moodHistory), newEntry);
      }
    }

    method ClearHistory()
      modifies this, storage
      ensures moodHistory == []
      ensures storage.items == old(storage.items) - {HistoryKey}
      ensures HistoryKey !in storage.items
    {
      storage.RemoveItem(HistoryKey);
      moodHistory := [];
    }
  }

  /**
   * Two hook instances over one local storage (the provider's and the
   * settings page's): clearing through one empties only that one's list and
   * the key; the other's next append writes its old entries back.
   */
  method ClearThroughOneAppendThroughOther(
    a: MoodHistoryStore, b: MoodHistoryStore,
    mood: Mood, note: string, id: string, date: string, now: int)
    requires a != b && a.storage == b.storage
    modifies a, b, a.storage
    ensures a.moodHistory == []
    ensures b.moodHistory == old(b.moodHistory) + [MoodEntry(id, date, Label(mood), note, now)]
    ensures HistoryKey in b.storage.items
    ensures b.storage.items[HistoryKey] == b.codec.encode(old(b.moodHistory) + [MoodEntry(id, date, Label(mood), note, now)])
  {
    a.ClearHistory();
    assert b.moodHistory == old(b.moodHistory);
    b.AddEntry(mood, note, id, date, now, true);
  }

  /** Clearing twice leaves the same list and storage as clearing once. */
  method ClearTwice(store: MoodHistoryStore)
    modifies store, store.storage
    ensures store.moodHistory == []
    ensures store.storage.items == old(store.storage.items) - {HistoryKey}
  {
    store.ClearHistory();
    store.ClearHistory();
  }
}
