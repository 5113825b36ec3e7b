// `MoodProvider`: the current mood of the browsing session, mirrored into
// the `currentMood` key of session storage, next to the provider's own
// mood-history store.

module MoodContext {
  import opened MoodTypes
  import opened Storage
  import opened MoodHistory

  const CurrentMoodKey := "currentMood"

  /**
   * What the mount effect makes of the session value: a non-empty stored
   * string becomes the current mood as it is (a cast, not a check that it
   * names one of the five moods); otherwise the mood is left as it was.
   */
  function Restored(current: Option<string>, session: map<string, string>): (r: Option<string>)
    ensures CurrentMoodKey in session && session[CurrentMoodKey] != "" ==> r == Some(session[CurrentMoodKey])
    ensures CurrentMoodKey !in session || session[CurrentMoodKey] == "" ==> r == current
  {
    if CurrentMoodKey in session && session[CurrentMoodKey] != "" then Some(session[CurrentMoodKey]) else current
  }

  /** A stored string that is not a mood label is still restored. */
  lemma RestoreDoesNotValidate(session: map<string, string>)
    requires CurrentMoodKey in session && session[CurrentMoodKey] != ""
    requires ParseMood(session[CurrentMoodKey]).None?
    ensures Restored(None, session).Some?
    ensures ParseMood(Restored(None, session).value).None?
  {
  }

  /** The pair the provider keeps in step: its state and the session record. */
  datatype SessionState = SessionState(currentMood: Option<string>, session: map<string, string>)

  /** A call of `setMood` (whose session write may be refused) or of `clearMood`. */
  datatype MoodCall = SetMoodCall(mood: Mood, accept: bool) | ClearMoodCall

  /**
   * One call. Afterwards a stored session mood implies a current mood, the
   * current mood (if any) is a mood label, and no other session key moves.
   */
  function Step(s: SessionState, call: MoodCall): (r: SessionState)
    ensures CurrentMoodKey in r.session ==> r.currentMood.Some?
    ensures r.currentMood.Some? ==> ParseMood(r.currentMood.value).Some?
    ensures OthersKept(s.session, r.session)
  {
    match call
    case SetMoodCall(m, accept) =>
      SessionState(Some(Label(m)), if accept then s.session[CurrentMoodKey := Label(m)] else s.session)
    case ClearMoodCall =>
      SessionState(None, s.session - {CurrentMoodKey})
  }

  /** A second `clearMood` changes nothing. */
  lemma ClearMoodTwice(s: SessionState)
    ensures Step(Step(s, ClearMoodCall), ClearMoodCall) == Step(s, ClearMoodCall)
  {
    assert s.session - {CurrentMoodKey} - {CurrentMoodKey} == s.session - {CurrentMoodKey};
  }

  /** The session keys other than `currentMood` are the same in both records. */
  ghost predicate OthersKept(before: map<string, string>, after: map<string, string>)
  {
    forall k :: k != CurrentMoodKey ==>
      (k in after <==> k in before) && (k in after ==> after[k] == before[k])
  }

  /** A run of calls from `s`, first call first. */
  function Run(s: SessionState, calls: seq<MoodCall>): (r: SessionState)
    ensures calls != [] ==> (CurrentMoodKey in r.session ==> r.currentMood.Some?)
    ensures calls != [] ==> (r.currentMood.Some? ==> ParseMood(r.currentMood.value).Some?)
    ensures OthersKept(s.session, r.session)
    decreases calls
  {
    if calls == [] then s
    else
      var next := Step(s, calls[0]);
      var r := Run(next, calls[1..]);
      assert calls[1..] == [] ==> r == next;
      r
  }

  lemma {:induction false} RunAppend(s: SessionState, calls: seq<MoodCall>, last: MoodCall)
    ensures Run(s, calls + [last]) == Step(Run(s, calls), last)
    decreases calls
  {
    if calls != [] {
      assert (calls + [last])[1..] == calls[1..] + [last];
      RunAppend(Step(s, calls[0]), calls[1..], last);
    }
  }

  /**
   * For any sequence of calls, the last one decides the current mood, and
   * an accepted `setMood` or a `clearMood` last decides the session record.
   */
  lemma LastCallWins(s: SessionState, calls: seq<MoodCall>, last: MoodCall)
    ensures last.SetMoodCall? ==> Run(s, calls + [last]).currentMood == Some(Label(last.mood))
    ensures last.SetMoodCall? && last.accept ==>
      CurrentMoodKey in Run(s, calls + [last]).session &&
      Run(s, calls + [last]).session[CurrentMoodKey] == Label(last.mood)
    ensures last.ClearMoodCall? ==>
      Run(s, calls + [last]).currentMood == None && CurrentMoodKey !in Run(s, calls + [last]).session
  {
    RunAppend(s, calls, last);
  }

  /** An accepted `setMood` last, then a reload: the fresh provider restores that mood. */
  lemma SetThenReload(s: SessionState, calls: seq<MoodCall>, m: Mood)
    ensures Restored(None, Run(s, calls + [SetMoodCall(m, true)]).session) == Some(Label(m))
  {
    RunAppend(s, calls, SetMoodCall(m, true));
  }

  /** `clearMood` last, then a reload: the fresh provider starts with no mood. */
  lemma ClearThenReloadIsUnset(s: SessionState, calls: seq<MoodCall>)
    ensures Restored(None, Run(s, calls + [ClearMoodCall]).session) == None
  {
    RunAppend(s, calls, ClearMoodCall);
  }

  class MoodProvider {
    var currentMood: Option<string>
    const history: MoodHistoryStore
    const session: KeyValueStore

    /** Local and session storage are different storage areas. */
    predicate Valid()
    {
      session != history.storage
    }

    function State(): SessionState
      reads this, session
    {
      SessionState(currentMood, session.items)
    }

    /** Mounting: no mood yet, and a fresh, empty history hook. */
    constructor (local: KeyValueStore, session: KeyValueStore, codec: Codec)
      requires local != session
      ensures Valid()
      ensures currentMood == None
      ensures fresh(history) && history.storage == local && history.codec == codec && history.moodHistory == []
      ensures this.session == session
    {
      currentMood := None;
      history := new MoodHistoryStore(local, codec);
      this.session := session;
    }

    /** The mount effect: load the history, then restore the session mood. */
    method Init()
      requires Valid()
      modifies this, history
      ensures history.moodHistory == Loaded(old(history.moodHistory), history.storage.items, history.codec)
      ensures currentMood == Restored(old(currentMood), session.items)
    {
      history.LoadHistory();
      var savedMood := session.GetItem(CurrentMoodKey);
      if savedMood.Some? && savedMood.value != "" {
        currentMood := savedMood;
      }
    }

    method SetMood(mood: Mood, accept: bool)
      requires Valid()
      modifies this, session
      ensures currentMood == Some(Label(mood))
      ensures session.items == if accept then old(session.items)[CurrentMoodKey := Label(mood)] else old(session.items)
      ensures State() == Step(old(State()), SetMoodCall(mood, accept))
      ensures history.moodHistory == old(history.moodHistory)
      ensures history.storage.items == old(history.storage.items)
    {
      currentMood := Some(Label(mood));
      session.SetItem(CurrentMoodKey, Label(mood), accept);
    }

    method ClearMood()
      requires Valid()
      modifies this, session
      ensures currentMood == None
      ensures session.items == old(session.items) - {CurrentMoodKey}
      ensures State() == Step(old(State()), ClearMoodCall)
      ensures history.moodHistory == old(history.moodHistory)
      ensures history.storage.items == old(history.storage.items)
    {
      currentMood := None;
      session.RemoveItem(CurrentMoodKey);
    }

    /** Delegates to the history store; the session mood is not touched. */
    method AddMoodEntry(mood: Mood, note: string, id: string, date: string, now: int, accept: bool)
      requires Valid()
      modifies history, history.storage
      ensures history.moodHistory == old(history.moodHistory) + [MoodEntry(id, date, Label(mood), note, now)]
      ensures history.storage.items ==
        if accept then old(history.storage.items)[HistoryKey := history.codec.encode(history.moodHistory)]
        else old(history.storage.items)
      ensures currentMood == old(currentMood)
      ensures session.items == old(session.items)
    {
      history.AddEntry(mood, note, id, date, now, accept);
    }
  }

  /** A page reload after `clearMood`: the new provider's mood is unset. */
  method ClearThenReload(p: MoodProvider, local: KeyValueStore, codec: Codec) returns (q: MoodProvider)
    requires p.Valid() && local != p.session
    modifies p, p.session, local
    ensures fresh(q) && q.session == p.session
    ensures q.currentMood == None
  {
    p.ClearMood();
    q := new MoodProvider(local, p.session, codec);
    q.Init();
  }
}
