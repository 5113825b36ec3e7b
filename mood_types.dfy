// The records shared by every part of the mood layer: the closed set of
// moods, a diary entry, a shop item, and the Option wrapper used for values
// that may be absent (a JavaScript `null`/`undefined`).

module MoodTypes {

  datatype Option<T> = None | Some(value: T)

  /** The five moods of the closed `Mood` union type. */
  datatype Mood = Happy | Sad | Energetic | Calm | Angry

  /** The string a mood is at run time (and in storage). */
  function Label(m: Mood): (s: string)
    ensures s != ""
  {
    match m
    case Happy => "happy"
    case Sad => "sad"
    case Energetic => "energetic"
    case Calm => "calm"
    case Angry => "angry"
  }

  /** The upper-case form of a lower-case ASCII letter. */
  function Upper(c: char): (u: char)
    requires 'a' <= c <= 'z'
    ensures 'A' <= u <= 'Z' && u as int - c as int == 'A' as int - 'a' as int
  {
    (c as int - 'a' as int + 'A' as int) as char
  }

  /** The display name of a mood: its label with the first letter capitalised. */
  function MoodName(m: Mood): (s: string)
    ensures |s| == |Label(m)| && s[1..] == Label(m)[1..]
    ensures 'a' <= Label(m)[0] <= 'z' && s[0] == Upper(Label(m)[0])
  {
    match m
    case Happy => "Happy"
    case Sad => "Sad"
    case Energetic => "Energetic"
    case Calm => "Calm"
    case Angry => "Angry"
  }

  /** The emoji a mood is shown with. */
  function MoodEmoji(m: Mood): (e: string)
    ensures |e| == 1
  {
    match m
    case Happy => "\U{1F60A}"
    case Sad => "\U{1F622}"
    case Energetic => "\U{26A1}"
    case Calm => "\U{1F60C}"
    case Angry => "\U{1F620}"
  }

  /** Different moods have different names and different emojis. */
  lemma NamesAndEmojisDistinct()
    ensures forall a: Mood, b: Mood :: MoodName(a) == MoodName(b) ==> a == b
    ensures forall a: Mood, b: Mood :: MoodEmoji(a) == MoodEmoji(b) ==> a == b
  {
  }

  /** The mood a string names, if it names one. */
  function ParseMood(s: string): (r: Option<Mood>)
    ensures r.Some? ==> Label(r.value) == s
  {
    if s == "happy" then Some(Happy)
    else if s == "sad" then Some(Sad)
    else if s == "energetic" then Some(Energetic)
    else if s == "calm" then Some(Calm)
    else if s == "angry" then Some(Angry)
    else None
  }

  /** Labels are pairwise distinct, so a label names exactly one mood. */
  lemma ParseLabel(m: Mood)
    ensures ParseMood(Label(m)) == Some(m)
  {
  }

  /** Every label parses back to its mood. */
  lemma LabelsParse()
    ensures forall m: Mood :: ParseMood(Label(m)) == Some(m)
  {
    forall m: Mood ensures ParseMood(Label(m)) == Some(m) {
      ParseLabel(m);
    }
  }

  /**
   * A diary entry. `mood` holds the label string as it was stored: entries
   * read back from storage are cast, not validated, so it need not be one of
   * the five labels.
   */
  datatype MoodEntry = MoodEntry(id: string, date: string, mood: string, note: string, timestamp: int)

  function Ids(h: seq<MoodEntry>): set<string>
  {
    set e | e in h :: e.id
  }

  predicate DistinctIds(h: seq<MoodEntry>)
  {
    forall i, j :: 0 <= i < j < |h| ==> h[i].id != h[j].id
  }

  /** Appending an entry whose id is new keeps the ids pairwise distinct. */
  lemma AppendFreshId(h: seq<MoodEntry>, e: MoodEntry)
    requires DistinctIds(h)
    requires e.id !in Ids(h)
    ensures DistinctIds(h + [e])
    ensures Ids(h + [e]) == Ids(h) + {e.id}
  {
    var h' := h + [e];
    forall i, j | 0 <= i < j < |h'| ensures h'[i].id != h'[j].id {
      if j == |h| {
        assert h'[i] in h;
      }
    }
  }

  datatype Category = Books | Clothing | Tech | Decor | Wellness

  function CategoryLabel(c: Category): string
  {
    match c
    case Books => "Books"
    case Clothing => "Clothing"
    case Tech => "Tech"
    case Decor => "Decor"
    case Wellness => "Wellness"
  }

  /** A shop item; prices are only compared, so they are exact reals. */
  datatype ShopItem = ShopItem(
    id: string,
    name: string,
    description: string,
    imageUrl: string,
    price: real,
    category: Category,
    moodTags: seq<Mood>)
}
