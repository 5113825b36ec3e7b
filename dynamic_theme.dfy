// `useDynamicTheme`: the mood -> theme table, and applying or removing a
// theme on the document (CSS custom properties on the root element's style,
// and the `data-mood-animation` attribute of the body).

module DynamicTheme {
  import opened MoodTypes
  import opened MoodContext

  datatype MoodTheme = MoodTheme(
    primary: string,
    secondary: string,
    background: string,
    text: string,
    accent: string,
    cardBg: string,
    gradientStart: string,
    gradientEnd: string,
    animation: string)

  /** `moodThemes`, a record with one theme per mood. */
  const MoodThemes: map<Mood, MoodTheme> := map[
    Happy := MoodTheme("#f59e0b", "#fbbf24", "#fffbeb", "#78350f", "#fcd34d", "#fef3c7", "#fef3c7", "#fde68a", "bounce"),
    Sad := MoodTheme("#3b82f6", "#60a5fa", "#eff6ff", "#1e3a8a", "#93c5fd", "#dbeafe", "#dbeafe", "#bfdbfe", "fadeIn"),
    Energetic := MoodTheme("#ef4444", "#f87171", "#fef2f2", "#7f1d1d", "#fca5a5", "#fee2e2", "#fee2e2", "#fecaca", "pulse"),
    Calm := MoodTheme("#10b981", "#34d399", "#ecfdf5", "#064e3b", "#6ee7b7", "#d1fae5", "#d1fae5", "#a7f3d0", "fadeIn"),
    Angry := MoodTheme("#dc2626", "#ef4444", "#fef2f2", "#7f1d1d", "#f87171", "#fee2e2", "#fee2e2", "#fca5a5", "shake")
  ]

  /** The table has an entry for every mood, and no two moods share a theme. */
  lemma MoodThemesTotal()
    ensures forall m: Mood :: m in MoodThemes
    ensures forall a: Mood, b: Mood :: a != b ==> MoodThemes[a] != MoodThemes[b]
  {
    forall m: Mood ensures m in MoodThemes {
      match m
      case Happy =>
      case Sad =>
      case Energetic =>
      case Calm =>
      case Angry =>
    }
  }

  function GetThemeColors(mood: Mood): (theme: MoodTheme)
    ensures mood in MoodThemes && theme == MoodThemes[mood]
  {
    MoodThemesTotal();
    MoodThemes[mood]
  }

  /**
   * `moodThemes[mood]` indexed by the string a caller holds: a theme for
   * a mood's label, undefined for any other string.
   */
  function LookupTheme(name: string): (r: Option<MoodTheme>)
    ensures r.Some? <==> ParseMood(name).Some?
    ensures r.Some? ==> r.value == GetThemeColors(ParseMood(name).value)
  {
    match ParseMood(name)
    case Some(m) => Some(GetThemeColors(m))
    case None => None
  }

  /** Looking up a mood's label finds that mood's theme. */
  lemma LookupLabel()
    ensures forall m: Mood :: LookupTheme(Label(m)) == Some(GetThemeColors(m))
  {
    LabelsParse();
  }

  /**
   * A non-empty session value that names no mood is restored as the
   * current mood, and no theme exists for it.
   */
  lemma UnknownRestoredMoodHasNoTheme(session: map<string, string>)
    requires CurrentMoodKey in session && session[CurrentMoodKey] != ""
    requires ParseMood(session[CurrentMoodKey]).None?
    ensures Restored(None, session).Some?
    ensures LookupTheme(Restored(None, session).value).None?
  {
  }

  /** The ten custom properties a theme sets. */
  const ThemeProperties: set<string> := {
    "--primary", "--primary-foreground", "--secondary", "--secondary-foreground",
    "--accent", "--accent-foreground", "--background", "--foreground",
    "--card", "--card-foreground"
  }

  const AnimationAttribute := "data-mood-animation"

  /** The values `applyThemeStyles` gives the ten properties. */
  function ThemeStyle(theme: MoodTheme): (vars: map<string, string>)
    ensures vars.Keys == ThemeProperties
  {
    map[
      "--primary" := theme.primary,
      "--primary-foreground" := "#ffffff",
      "--secondary" := theme.secondary,
      "--secondary-foreground" := "#ffffff",
      "--accent" := theme.accent,
      "--accent-foreground" := theme.text,
      "--background" := theme.background,
      "--foreground" := theme.text,
      "--card" := theme.cardBg,
      "--card-foreground" := theme.text
    ]
  }

  /** A style map with a theme applied: the ten properties overwritten, the rest kept. */
  function Styled(style: map<string, string>, theme: MoodTheme): (r: map<string, string>)
    ensures r.Keys == style.Keys + ThemeProperties
    ensures forall p :: p in ThemeProperties ==> r[p] == ThemeStyle(theme)[p]
    ensures forall p :: p in style && p !in ThemeProperties ==> r[p] == style[p]
  {
    style + ThemeStyle(theme)
  }

  /** A style map with the ten properties removed and the rest kept. */
  function Unstyled(style: map<string, string>): (r: map<string, string>)
    ensures r.Keys == style.Keys - ThemeProperties
    ensures forall p :: p in r ==> r[p] == style[p]
  {
    style - ThemeProperties
  }

  /** The ten `setProperty` calls, in source order, amount to `Styled`. */
  lemma StyledByUpdates(style: map<string, string>, theme: MoodTheme)
    ensures Styled(style, theme) ==
      style["--primary" := theme.primary]["--primary-foreground" := "#ffffff"]
           ["--secondary" := theme.secondary]["--secondary-foreground" := "#ffffff"]
           ["--accent" := theme.accent]["--accent-foreground" := theme.text]
           ["--background" := theme.background]["--foreground" := theme.text]
           ["--card" := theme.cardBg]["--card-foreground" := theme.text]
  {
  }

  /** The ten `removeProperty` calls, in source order, amount to `Unstyled`. */
  lemma UnstyledByRemovals(style: map<string, string>)
    ensures Unstyled(style) ==
      style - {"--primary"} - {"--primary-foreground"} - {"--secondary"} - {"--secondary-foreground"}
           - {"--accent"} - {"--accent-foreground"} - {"--background"} - {"--foreground"}
           - {"--card"} - {"--card-foreground"}
  {
  }

  /** What the ten properties hold after a theme is applied. */
  lemma StyledValues(style: map<string, string>, theme: MoodTheme)
    ensures var r := Styled(style, theme);
      && r["--primary"] == theme.primary && r["--secondary"] == theme.secondary
      && r["--accent"] == theme.accent && r["--background"] == theme.background
      && r["--card"] == theme.cardBg
      && r["--primary-foreground"] == "#ffffff" && r["--secondary-foreground"] == "#ffffff"
      && r["--accent-foreground"] == theme.text && r["--foreground"] == theme.text
      && r["--card-foreground"] == theme.text
  {
  }

  /** Applying a second theme leaves no trace of the first. */
  lemma ApplyOverwrites(style: map<string, string>, first: MoodTheme, second: MoodTheme)
    ensures Styled(Styled(style, first), second) == Styled(style, second)
  {
  }

  lemma ApplyIdempotent(style: map<string, string>, theme: MoodTheme)
    ensures Styled(Styled(style, theme), theme) == Styled(style, theme)
  {
    ApplyOverwrites(style, theme, theme);
  }

  lemma ResetIdempotent(style: map<string, string>)
    ensures Unstyled(Unstyled(style)) == Unstyled(style)
  {
  }

  /** Apply then reset: none of the ten properties remain, everything else is as before. */
  lemma ResetUndoesApply(style: map<string, string>, theme: MoodTheme)
    ensures Unstyled(Styled(style, theme)) == Unstyled(style)
    ensures forall p :: p in ThemeProperties ==> p !in Unstyled(Styled(style, theme))
  {
  }

  /** The document: the root element's inline style and the body's attributes. */
  class Document {
    var rootStyle: map<string, string>
    var bodyAttributes: map<string, string>

    constructor (rootStyle: map<string, string>, bodyAttributes: map<string, string>)
      ensures this.rootStyle == rootStyle && this.bodyAttributes == bodyAttributes
    {
      this.rootStyle := rootStyle;
      this.bodyAttributes := bodyAttributes;
    }

    method SetProperty(name: string, value: string)
      modifies this
      ensures rootStyle == old(rootStyle)[name := value]
      ensures bodyAttributes == old(bodyAttributes)
    {
      rootStyle := rootStyle[name := value];
    }

    method RemoveProperty(name: string)
      modifies this
      ensures rootStyle == old(rootStyle) - {name}
      ensures bodyAttributes == old(bodyAttributes)
    {
      rootStyle := rootStyle - {name};
    }

    method SetAttribute(name: string, value: string)
      modifies this
      ensures bodyAttributes == old(bodyAttributes)[name := value]
      ensures rootStyle == old(rootStyle)
    {
      bodyAttributes := bodyAttributes[name := value];
    }

    method RemoveAttribute(name: string)
      modifies this
      ensures bodyAttributes == old(bodyAttributes) - {name}
      ensures rootStyle == old(rootStyle)
    {
      bodyAttributes := bodyAttributes - {name};
    }
  }

  method ApplyThemeStyles(doc: Document, mood: Mood) returns (theme: MoodTheme)
    modifies doc
    ensures theme == GetThemeColors(mood)
    ensures doc.rootStyle == Styled(old(doc.rootStyle), theme)
    ensures doc.rootStyle["--primary"] == theme.primary && doc.rootStyle["--secondary"] == theme.secondary
    ensures doc.rootStyle["--accent"] == theme.accent && doc.rootStyle["--background"] == theme.background
    ensures doc.rootStyle["--card"] == theme.cardBg
    ensures doc.rootStyle["--primary-foreground"] == "#ffffff" && doc.rootStyle["--secondary-foreground"] == "#ffffff"
    ensures doc.rootStyle["--accent-foreground"] == theme.text && doc.rootStyle["--foreground"] == theme.text
    ensures doc.rootStyle["--card-foreground"] == theme.text
    ensures doc.bodyAttributes == old(doc.bodyAttributes)[AnimationAttribute := theme.animation]
  {
    theme := GetThemeColors(mood);
    doc.SetProperty("--primary", theme.primary);
    doc.SetProperty("--primary-foreground", "#ffffff");
    doc.SetProperty("--secondary", theme.secondary);
    doc.SetProperty("--secondary-foreground", "#ffffff");
    doc.SetProperty("--accent", theme.accent);
    doc.SetProperty("--accent-foreground", theme.text);
    doc.SetProperty("--background", theme.background);
    doc.SetProperty("--foreground", theme.text);
    doc.SetProperty("--card", theme.cardBg);
    doc.SetProperty("--card-foreground", theme.text);
    doc.SetAttribute(AnimationAttribute, theme.animation);
    StyledByUpdates(old(doc.rootStyle), theme);
    StyledValues(old(doc.rootStyle), theme);
  }

  method ResetTheme(doc: Document)
    modifies doc
    ensures doc.rootStyle == Unstyled(old(doc.rootStyle))
    ensures doc.bodyAttributes == old(doc.bodyAttributes) - {AnimationAttribute}
  {
    doc.RemoveProperty("--primary");
    doc.RemoveProperty("--primary-foreground");
    doc.RemoveProperty("--secondary");
    doc.RemoveProperty("--secondary-foreground");
    doc.RemoveProperty("--accent");
    doc.RemoveProperty("--accent-foreground");
    doc.RemoveProperty("--background");
    doc.RemoveProperty("--foreground");
    doc.RemoveProperty("--card");
    doc.RemoveProperty("--card-foreground");
    doc.RemoveAttribute(AnimationAttribute);
    UnstyledByRemovals(old(doc.rootStyle));
  }
}
