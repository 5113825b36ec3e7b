// `ShopGrid`: the category list of the catalog, and the filter-then-sort
// pipeline that turns the catalog, a search term, a category and a sort
// option into the items shown. Locale-dependent string operations
// (`toLowerCase`, `localeCompare`) are parameters.

module ShopGrid {
  import opened MoodTypes
  import opened StableSort

  datatype SortOption = Recommended | PriceAsc | PriceDesc | ByName

  /** `String.prototype.toLowerCase` and `String.prototype.localeCompare`. */
  datatype Locale = Locale(lower: string -> string, collate: (string, string) -> int)

  // ---------------------------------------------------------------------
  // Categories

  /** Each string once, in order of first occurrence (a `Set` built from `s`). */
  function Distinct(s: seq<string>): (r: seq<string>)
    ensures forall x :: x in r <==> x in s
    ensures forall i, j :: 0 <= i < j < |r| ==> r[i] != r[j]
  {
    if s == [] then []
    else
      var prefix := s[..|s| - 1];
      var last := s[|s| - 1];
      assert s == prefix + [last];
      var r := Distinct(prefix);
      if last in r then r else r + [last]
  }

  /** The index of the first occurrence of `x` in `s`. */
  function FirstIndex(s: seq<string>, x: string): (k: nat)
    requires x in s
    ensures k < |s| && s[k] == x
    ensures forall j :: 0 <= j < k ==> s[j] != x
  {
    if s[0] == x then 0 else 1 + FirstIndex(s[1..], x)
  }

  lemma FirstIndexInPrefix(s: seq<string>, n: nat, x: string)
    requires n <= |s| && x in s[..n]
    ensures FirstIndex(s, x) == FirstIndex(s[..n], x)
  {
    var k := FirstIndex(s[..n], x);
    assert s[k] == x;
    var m := FirstIndex(s, x);
    assert m <= k;
  }

  /** `Distinct` lists the strings in the order they first occur. */
  lemma {:induction false} DistinctFirstOccurrenceOrder(s: seq<string>)
    ensures forall i, j :: 0 <= i < j < |Distinct(s)| ==> FirstIndex(s, Distinct(s)[i]) < FirstIndex(s, Distinct(s)[j])
  {
    if s != [] {
      var n := |s| - 1;
      var prefix := s[..n];
      assert s == prefix + [s[n]];
      DistinctFirstOccurrenceOrder(prefix);
      var r := Distinct(prefix);
      forall i | 0 <= i < |r| ensures FirstIndex(s, r[i]) == FirstIndex(prefix, r[i]) < n {
        FirstIndexInPrefix(s, n, r[i]);
      }
      forall i, j | 0 <= i < j < |r| ensures FirstIndex(s, r[i]) < FirstIndex(s, r[j]) {
        assert FirstIndex(prefix, r[i]) < FirstIndex(prefix, r[j]);
      }
      if s[n] !in r {
        NewLastElement(s, r);
        assert Distinct(s) == r + [s[n]];
      } else {
        assert Distinct(s) == r;
      }
    }
  }

  /** Appending a string seen only at the end keeps the first-occurrence order. */
  lemma NewLastElement(s: seq<string>, r: seq<string>)
    requires s != [] && s[|s| - 1] !in s[..|s| - 1]
    requires forall x :: x in r ==> x in s
    requires forall i, j :: 0 <= i < j < |r| ==> FirstIndex(s, r[i]) < FirstIndex(s, r[j])
    requires forall i :: 0 <= i < |r| ==> FirstIndex(s, r[i]) < |s| - 1
    ensures var r' := r + [s[|s| - 1]];
      forall i, j :: 0 <= i < j < |r'| ==> FirstIndex(s, r'[i]) < FirstIndex(s, r'[j])
  {
    var n := |s| - 1;
    assert FirstIndex(s, s[n]) == n;
  }

  function CategoryLabels(catalog: seq<ShopItem>): (r: seq<string>)
    ensures |r| == |catalog|
    ensures forall i :: 0 <= i < |r| ==> r[i] == CategoryLabel(catalog[i].category)
  {
    if catalog == [] then [] else [CategoryLabel(catalog[0].category)] + CategoryLabels(catalog[1..])
  }

  /** `categories`: 'All', then every catalog category once, in first-occurrence order. */
  function Categories(catalog: seq<ShopItem>): (r: seq<string>)
    ensures |r| >= 1 && r[0] == "All"
    ensures forall c :: c in r[1..] <==> exists item :: item in catalog && CategoryLabel(item.category) == c
    ensures forall i, j :: 1 <= i < j < |r| ==> r[i] != r[j]
  {
    var labels := CategoryLabels(catalog);
    assert forall c :: c in labels <==> exists item :: item in catalog && CategoryLabel(item.category) == c by {
      forall c | c in labels ensures exists item :: item in catalog && CategoryLabel(item.category) == c {
        var i :| 0 <= i < |labels| && labels[i] == c;
        assert catalog[i] in catalog;
      }
      forall item | item in catalog ensures CategoryLabel(item.category) in labels {
        var i :| 0 <= i < |catalog| && catalog[i] == item;
        assert labels[i] == CategoryLabel(item.category);
      }
    }
    var r := ["All"] + Distinct(labels);
    assert r[1..] == Distinct(labels);
    r
  }

  /** The category entries after 'All' appear in the order of their first catalog item. */
  lemma CategoriesInFirstOccurrenceOrder(catalog: seq<ShopItem>)
    ensures var r := Categories(catalog);
      forall i, j :: 1 <= i < j < |r| ==>
        FirstIndex(CategoryLabels(catalog), r[i]) < FirstIndex(CategoryLabels(catalog), r[j])
  {
    var labels := CategoryLabels(catalog);
    var r := Categories(catalog);
    DistinctFirstOccurrenceOrder(labels);
    assert r[1..] == Distinct(labels);
    forall i, j | 1 <= i < j < |r| ensures FirstIndex(labels, r[i]) < FirstIndex(labels, r[j]) {
      assert r[i] == Distinct(labels)[i - 1] && r[j] == Distinct(labels)[j - 1];
    }
  }

  // ---------------------------------------------------------------------
  // Filtering

  function IsPrefix(p: string, s: string): (b: bool)
    ensures b <==> |p| <= |s| && s[..|p|] == p
  {
    |p| <= |s| && (p == [] || (p[0] == s[0] && IsPrefix(p[1..], s[1..])))
  }

  /** `sub` occurs in `s` starting at index `i`. */
  predicate OccursAt(s: string, sub: string, i: int)
  {
    0 <= i <= |s| - |sub| && s[i..i + |sub|] == sub
  }

  lemma OccursShift(s: string, sub: string, i: int)
    requires s != [] && i >= 0
    ensures OccursAt(s[1..], sub, i) <==> OccursAt(s, sub, i + 1)
  {
    if 0 <= i <= |s[1..]| - |sub| {
      assert s[1..][i..i + |sub|] == s[i + 1..i + 1 + |sub|];
    }
  }

  /** `String.prototype.includes`. */
  function Includes(s: string, sub: string): (b: bool)
    ensures b <==> exists i :: OccursAt(s, sub, i)
    decreases |s|
  {
    if IsPrefix(sub, s) then
      assert OccursAt(s, sub, 0);
      true
    else if s == [] then false
    else
      var b := Includes(s[1..], sub);
      assert b <==> exists i :: OccursAt(s, sub, i) by {
        if b {
          var i :| OccursAt(s[1..], sub, i);
          OccursShift(s, sub, i);
        }
        if i :| OccursAt(s, sub, i) {
          assert i != 0;
          OccursShift(s, sub, i - 1);
        }
      }
      b
  }

  /** Every string includes the empty string. */
  lemma IncludesEmpty(s: string)
    ensures Includes(s, "")
  {
    assert OccursAt(s, "", 0);
  }

  /** `selectedCategory === 'All' || !selectedCategory ? true : item.category === selectedCategory`. */
  function MatchesCategory(selected: Option<string>, item: ShopItem): (b: bool)
    ensures selected == None || selected == Some("All") ==> b
    ensures selected.Some? && selected.value != "All" && selected.value != "" ==>
      (b <==> CategoryLabel(item.category) == selected.value)
  {
    if selected == Some("All") || selected == None || selected == Some("") then true
    else CategoryLabel(item.category) == selected.value
  }

  /** The search test: the lowered term occurs in the lowered name or description. */
  function MatchesSearch(loc: Locale, search: string, item: ShopItem): (b: bool)
    ensures b <==> (
      || (exists i :: OccursAt(loc.lower(item.name), loc.lower(search), i))
      || (exists i :: OccursAt(loc.lower(item.description), loc.lower(search), i)))
    ensures loc.lower(search) == "" ==> b
    ensures b ==> |loc.lower(search)| <= |loc.lower(item.name)| || |loc.lower(search)| <= |loc.lower(item.description)|
  {
    IncludesEmpty(loc.lower(item.name));
    Includes(loc.lower(item.name), loc.lower(search)) || Includes(loc.lower(item.description), loc.lower(search))
  }

  /** The `filter` stage: the items passing both tests, in catalog order. */
  function FilterItems(loc: Locale, catalog: seq<ShopItem>, search: string, selected: Option<string>): (r: seq<ShopItem>)
    ensures forall x :: x in r <==> x in catalog && MatchesSearch(loc, search, x) && MatchesCategory(selected, x)
    ensures |r| <= |catalog|
  {
    if catalog == [] then []
    else
      assert catalog == [catalog[0]] + catalog[1..];
      var rest := FilterItems(loc, catalog[1..], search, selected);
      if MatchesSearch(loc, search, catalog[0]) && MatchesCategory(selected, catalog[0]) then [catalog[0]] + rest else rest
  }

  /** A search that lowers to the empty string, with no category, keeps the whole catalog. */
  lemma {:induction false} EmptySearchKeepsAll(loc: Locale, catalog: seq<ShopItem>, search: string)
    requires loc.lower(search) == ""
    ensures FilterItems(loc, catalog, search, None) == catalog
  {
    if catalog != [] {
      IncludesEmpty(loc.lower(catalog[0].name));
      EmptySearchKeepsAll(loc, catalog[1..], search);
    }
  }

  // ---------------------------------------------------------------------
  // Sorting

  /** The JavaScript truthiness of `currentMood`. */
  function HasMood(mood: Option<string>): (b: bool)
    ensures mood.Some? && ParseMood(mood.value).Some? ==> b
  {
    mood.Some? && mood.value != ""
  }

  /** `item.moodTags.includes(mood)`: compares the tags' labels with the string. */
  function TagsInclude(tags: seq<Mood>, mood: string): (b: bool)
    ensures b <==> ParseMood(mood).Some? && ParseMood(mood).value in tags
  {
    LabelsParse();
    exists t :: t in tags && Label(t) == mood
  }

  /** The `matchesMood` flag an item is rendered with. */
  function MatchesMood(mood: Option<string>, item: ShopItem): (b: bool)
    ensures b <==> mood.Some? && ParseMood(mood.value).Some? && ParseMood(mood.value).value in item.moodTags
  {
    if HasMood(mood) then TagsInclude(item.moodTags, mood.value) else false
  }

  /** A mood string that names no mood matches no item. */
  lemma UnknownMoodMatchesNothing(mood: Option<string>, item: ShopItem)
    requires mood.Some? && ParseMood(mood.value).None?
    ensures !MatchesMood(mood, item)
  {
  }

  /** The comparator passed to `sort` for each option. */
  function Comparator(order: SortOption, mood: Option<string>, loc: Locale): (cmp: (ShopItem, ShopItem) -> int)
    ensures order != ByName ==> forall a, b :: cmp(a, b) == -cmp(b, a)
    ensures order != ByName ==> forall a, b :: -1 <= cmp(a, b) <= 1
  {
    match order
    case PriceAsc =>
      var cmp := (a: ShopItem, b: ShopItem) => Sign(a.price - b.price);
      assert forall a, b :: cmp(a, b) == -cmp(b, a) && -1 <= cmp(a, b) <= 1 by {
        forall a: ShopItem, b: ShopItem ensures cmp(a, b) == -cmp(b, a) && -1 <= cmp(a, b) <= 1 {
          SignNegate(a.price - b.price);
        }
      }
      cmp
    case PriceDesc =>
      var cmp := (a: ShopItem, b: ShopItem) => Sign(b.price - a.price);
      assert forall a, b :: cmp(a, b) == -cmp(b, a) && -1 <= cmp(a, b) <= 1 by {
        forall a: ShopItem, b: ShopItem ensures cmp(a, b) == -cmp(b, a) && -1 <= cmp(a, b) <= 1 {
          SignNegate(b.price - a.price);
        }
      }
      cmp
    case ByName => (a: ShopItem, b: ShopItem) => loc.collate(a.name, b.name)
    case Recommended =>
      (a: ShopItem, b: ShopItem) =>
        if HasMood(mood) then
          var aMoodMatch := TagsInclude(a.moodTags, mood.value);
          var bMoodMatch := TagsInclude(b.moodTags, mood.value);
          if aMoodMatch && !bMoodMatch then -1
          else if !aMoodMatch && bMoodMatch then 1
          else 0
        else 0
  }

  /** `filteredItems`: filter, then a stable sort of that fresh array. */
  function FilteredItems(loc: Locale, catalog: seq<ShopItem>, search: string, selected: Option<string>,
                         order: SortOption, mood: Option<string>): (r: seq<ShopItem>)
    ensures multiset(r) == multiset(FilterItems(loc, catalog, search, selected))
    ensures forall x :: x in r <==> x in catalog && MatchesSearch(loc, search, x) && MatchesCategory(selected, x)
  {
    var filtered := FilterItems(loc, catalog, search, selected);
    var r := Sort(filtered, Comparator(order, mood, loc));
    assert forall x :: x in r <==> x in multiset(r);
    assert forall x :: x in filtered <==> x in multiset(filtered);
    r
  }

  lemma PriceAscending(loc: Locale, catalog: seq<ShopItem>, search: string, selected: Option<string>, mood: Option<string>)
    ensures var r := FilteredItems(loc, catalog, search, selected, PriceAsc, mood);
      forall i, j :: 0 <= i < j < |r| ==> r[i].price <= r[j].price
  {
    var cmp := Comparator(PriceAsc, mood, loc);
    KeyDifferenceIsPreorder(cmp, (x: ShopItem) => x.price);
    SortIsSorted(FilterItems(loc, catalog, search, selected), cmp);
  }

  lemma PriceDescending(loc: Locale, catalog: seq<ShopItem>, search: string, selected: Option<string>, mood: Option<string>)
    ensures var r := FilteredItems(loc, catalog, search, selected, PriceDesc, mood);
      forall i, j :: 0 <= i < j < |r| ==> r[i].price >= r[j].price
  {
    var cmp := Comparator(PriceDesc, mood, loc);
    KeyDifferenceIsPreorder(cmp, (x: ShopItem) => -x.price);
    SortIsSorted(FilterItems(loc, catalog, search, selected), cmp);
  }

  /** Under a collation that is a consistent total preorder, the name sort follows it. */
  lemma NameOrdered(loc: Locale, catalog: seq<ShopItem>, search: string, selected: Option<string>, mood: Option<string>)
    requires TotalPreorder(loc.collate)
    ensures var r := FilteredItems(loc, catalog, search, selected, ByName, mood);
      forall i, j :: 0 <= i < j < |r| ==> loc.collate(r[i].name, r[j].name) <= 0
  {
    var cmp := Comparator(ByName, mood, loc);
    forall a: ShopItem, b: ShopItem ensures cmp(a, b) <= 0 || cmp(b, a) <= 0 {
      assert loc.collate(a.name, b.name) <= 0 || loc.collate(b.name, a.name) <= 0;
    }
    forall a: ShopItem, b: ShopItem, c: ShopItem | cmp(a, b) <= 0 && cmp(b, c) <= 0 ensures cmp(a, c) <= 0 {
      assert loc.collate(a.name, b.name) <= 0 && loc.collate(b.name, c.name) <= 0;
    }
    SortIsSorted(FilterItems(loc, catalog, search, selected), cmp);
  }

  function Matching(s: seq<ShopItem>, mood: Option<string>): (r: seq<ShopItem>)
    ensures forall k :: 0 <= k < |r| ==> MatchesMood(mood, r[k])
  {
    if s == [] then []
    else if MatchesMood(mood, s[0]) then [s[0]] + Matching(s[1..], mood)
    else Matching(s[1..], mood)
  }

  function NotMatching(s: seq<ShopItem>, mood: Option<string>): (r: seq<ShopItem>)
    ensures forall k :: 0 <= k < |r| ==> !MatchesMood(mood, r[k])
  {
    if s == [] then []
    else if MatchesMood(mood, s[0]) then NotMatching(s[1..], mood)
    else [s[0]] + NotMatching(s[1..], mood)
  }

  lemma ConcatAssoc(a: seq<ShopItem>, b: seq<ShopItem>, c: seq<ShopItem>)
    ensures a + b + c == a + (b + c)
  {
  }

  lemma SplitFront(a: seq<ShopItem>, b: seq<ShopItem>)
    requires a != []
    ensures [a[0]] + (a[1..] + b) == a + b
  {
    assert a == [a[0]] + a[1..];
  }

  /** The recommended comparator, read through the mood flag. */
  lemma RecommendedCompare(mood: Option<string>, loc: Locale, a: ShopItem, b: ShopItem)
    ensures Comparator(Recommended, mood, loc)(a, b) ==
      if MatchesMood(mood, a) && !MatchesMood(mood, b) then -1
      else if !MatchesMood(mood, a) && MatchesMood(mood, b) then 1
      else 0
  {
  }

  /** An item inserted among matching-then-not-matching items joins its own group, at its front. */
  lemma {:induction false} InsertIntoPartition(x: ShopItem, m: seq<ShopItem>, n: seq<ShopItem>, mood: Option<string>, loc: Locale)
    requires forall k :: 0 <= k < |m| ==> MatchesMood(mood, m[k])
    requires forall k :: 0 <= k < |n| ==> !MatchesMood(mood, n[k])
    ensures Insert(x, m + n, Comparator(Recommended, mood, loc)) ==
      if MatchesMood(mood, x) then [x] + m + n else m + [x] + n
  {
    var cmp := Comparator(Recommended, mood, loc);
    if m == [] {
      assert m + n == n && [x] + m == [x] && m + [x] == [x];
      if n != [] {
        RecommendedCompare(mood, loc, x, n[0]);
      }
    } else {
      var s := m + n;
      assert s[0] == m[0] && s[1..] == m[1..] + n;
      RecommendedCompare(mood, loc, x, m[0]);
      if !MatchesMood(mood, x) {
        assert Insert(x, s, cmp) == [m[0]] + Insert(x, m[1..] + n, cmp);
        InsertIntoPartition(x, m[1..], n, mood, loc);
        SplitFront(m, [x] + n);
        ConcatAssoc(m, [x], n);
      } else {
        assert Insert(x, s, cmp) == [x] + s;
      }
    }
  }

  /**
   * "Recommended": the items matching the mood, then the others, each group
   * in catalog order; with no mood both are read as ties and the filtered
   * order is kept.
   */
  lemma {:induction false} RecommendedIsStablePartition(s: seq<ShopItem>, mood: Option<string>, loc: Locale)
    ensures Sort(s, Comparator(Recommended, mood, loc)) == Matching(s, mood) + NotMatching(s, mood)
  {
    if s != [] {
      var cmp := Comparator(Recommended, mood, loc);
      var m, n := Matching(s[1..], mood), NotMatching(s[1..], mood);
      RecommendedIsStablePartition(s[1..], mood, loc);
      assert Sort(s, cmp) == Insert(s[0], m + n, cmp);
      InsertIntoPartition(s[0], m, n, mood, loc);
      if MatchesMood(mood, s[0]) {
        assert Matching(s, mood) == [s[0]] + m && NotMatching(s, mood) == n;
      } else {
        assert Matching(s, mood) == m && NotMatching(s, mood) == [s[0]] + n;
        ConcatAssoc(m, [s[0]], n);
      }
    }
  }

  lemma {:induction false} NoMoodMatchesNothing(s: seq<ShopItem>, mood: Option<string>)
    requires !HasMood(mood)
    ensures Matching(s, mood) == [] && NotMatching(s, mood) == s
  {
    if s != [] {
      NoMoodMatchesNothing(s[1..], mood);
    }
  }

  lemma RecommendedOrder(loc: Locale, catalog: seq<ShopItem>, search: string, selected: Option<string>, mood: Option<string>)
    ensures var f := FilterItems(loc, catalog, search, selected);
      FilteredItems(loc, catalog, search, selected, Recommended, mood) == Matching(f, mood) + NotMatching(f, mood)
    ensures !HasMood(mood) ==>
      FilteredItems(loc, catalog, search, selected, Recommended, mood) == FilterItems(loc, catalog, search, selected)
  {
    var f := FilterItems(loc, catalog, search, selected);
    RecommendedIsStablePartition(f, mood, loc);
    if !HasMood(mood) {
      NoMoodMatchesNothing(f, mood);
      assert [] + f == f;
    }
  }

  // ---------------------------------------------------------------------
  // Rendering

  datatype ShopView = NoItemsFound | Cards(cards: seq<(ShopItem, bool)>)

  /** `renderShopItems`: the empty-result message, or one card per item with its flag. */
  function RenderShopItems(items: seq<ShopItem>, mood: Option<string>): (v: ShopView)
    ensures v.NoItemsFound? <==> items == []
    ensures v.Cards? ==> |v.cards| == |items|
    ensures v.Cards? ==> forall k :: 0 <= k < |items| ==> v.cards[k] == (items[k], MatchesMood(mood, items[k]))
  {
    if |items| == 0 then NoItemsFound
    else Cards(seq(|items|, k requires 0 <= k < |items| => (items[k], MatchesMood(mood, items[k]))))
  }

  /** Under 'recommended', every flagged item comes before every unflagged one. */
  lemma FlaggedFirst(loc: Locale, catalog: seq<ShopItem>, search: string, selected: Option<string>, mood: Option<string>)
    ensures var r := FilteredItems(loc, catalog, search, selected, Recommended, mood);
      forall i, j :: 0 <= i < j < |r| && MatchesMood(mood, r[j]) ==> MatchesMood(mood, r[i])
  {
    RecommendedOrder(loc, catalog, search, selected, mood);
    var f := FilterItems(loc, catalog, search, selected);
    var m, n := Matching(f, mood), NotMatching(f, mood);
    var r := m + n;
    forall i, j | 0 <= i < j < |r| && MatchesMood(mood, r[j]) ensures MatchesMood(mood, r[i]) {
      assert r[i] == m[i];
    }
  }

  /**
   * Every category button after 'All' names a category some catalogue item
   * has, so with an empty search choosing it never yields the empty grid.
   */
  lemma CategoryChoiceNonEmpty(loc: Locale, catalog: seq<ShopItem>, search: string, c: string)
    requires c in Categories(catalog)[1..]
    requires loc.lower(search) == ""
    ensures FilterItems(loc, catalog, search, Some(c)) != []
  {
    var item :| item in catalog && CategoryLabel(item.category) == c;
    assert item in FilterItems(loc, catalog, search, Some(c));
  }
}
