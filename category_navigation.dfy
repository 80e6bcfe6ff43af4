/**
 * src/components/CategoryNavigation.tsx: the category picker. It lists
 * 'All' followed by every category, and gives each entry a label, a count
 * badge and a selected flag; the four layout variants differ only in the
 * label of the 'All' entry.
 */
module CategoryNavigation {
  import opened Prelude
  import opened ProductTypes

  /** The `variant` prop; 'tabs' is the default. */
  datatype Variant = Tabs | Sidebar | Dropdown | ScrollableTabs

  /** The category entries, one per key, in key order. */
  function OnlyEach(keys: seq<Category>): (entries: seq<Selection>)
    ensures |entries| == |keys|
    ensures forall i :: 0 <= i < |keys| ==> entries[i] == Only(keys[i])
    decreases |keys|
  {
    if keys == [] then [] else OnlyEach(Init(keys)) + [Only(Last(keys))]
  }

  /** allCategories: 'All', then the keys of CATEGORIES in declaration order. */
  function AllCategories(): seq<Selection> {
    [All] + OnlyEach(CategoryKeys)
  }

  /** There are ten entries, 'All' first, and every selection is listed exactly once. */
  lemma AllCategoriesListsEachOnce()
    ensures |AllCategories()| == 10 && AllCategories()[0] == All
    ensures forall i :: 0 <= i < 9 ==> AllCategories()[i + 1] == Only(CategoryKeys[i])
    ensures forall s: Selection :: s in AllCategories()
    ensures forall i, j :: 0 <= i < j < |AllCategories()| ==> AllCategories()[i] != AllCategories()[j]
  {
    var entries := AllCategories();
    CategoryKeysComplete();
    forall s: Selection ensures s in entries {
      if s.Only? {
        assert s.category in CategoryKeys;
        var k :| 0 <= k < |CategoryKeys| && CategoryKeys[k] == s.category;
        assert entries[k + 1] == s;
      } else {
        assert entries[0] == s;
      }
    }
    forall i, j | 0 <= i < j < |entries| ensures entries[i] != entries[j] {
      if i > 0 {
        assert entries[i] == Only(CategoryKeys[i - 1]) && entries[j] == Only(CategoryKeys[j - 1]);
      }
    }
  }

  /**
   * The badge: for 'All' the sum of every count, otherwise the category's
   * count, or 0 when it has none (`categoryCounts[category] || 0`).
   */
  function EntryCount(counts: map<Category, nat>, entry: Selection): nat {
    match entry
    case All => SumCounts(counts)
    case Only(c) => CountFor(counts, c)
  }

  /** The entry's text: 'All' reads "All" in the default tabs and "All Products" elsewhere. */
  function EntryLabel(variant: Variant, entry: Selection): (text: string)
    ensures entry.All? ==> (text == "All" <==> variant == Tabs)
    ensures entry.All? && variant != Tabs ==> text == "All Products"
    ensures entry.Only? ==> text == CategoryName(entry.category)
  {
    match entry
    case All => if variant == Tabs then "All" else "All Products"
    case Only(c) => CategoryName(c)
  }

  /** What one button (or option) shows. */
  datatype Entry = Entry(selection: Selection, caption: string, count: nat, selected: bool)

  /** The rendered list: allCategories.map(...) */
  function Entries(variant: Variant, counts: map<Category, nat>, selected: Selection): (view: seq<Entry>)
    ensures |view| == |AllCategories()|
    ensures forall i :: 0 <= i < |view| ==> view[i].selection == AllCategories()[i]
  {
    var all := AllCategories();
    seq(|all|, i requires 0 <= i < |all| =>
      Entry(all[i], EntryLabel(variant, all[i]), EntryCount(counts, all[i]), selected == all[i]))
  }

  /** Sum of the badges of a run of entries. */
  function SumBadges(view: seq<Entry>): nat {
    if view == [] then 0 else SumBadges(Init(view)) + Last(view).count
  }

  lemma {:induction false} SumBadgesOver(view: seq<Entry>, keys: seq<Category>, counts: map<Category, nat>)
    requires |view| == |keys|
    requires forall i :: 0 <= i < |keys| ==> view[i].count == CountFor(counts, keys[i])
    ensures SumBadges(view) == SumOver(keys, counts)
    decreases |keys|
  {
    if keys != [] {
      SumBadgesOver(Init(view), Init(keys), counts);
    }
  }

  /**
   * Exactly one entry is selected, whatever the selection; and the 'All'
   * badge is the sum of the nine category badges after it.
   */
  lemma {:induction false} EntriesSpec(variant: Variant, counts: map<Category, nat>, selected: Selection)
    ensures var view := Entries(variant, counts, selected);
      && |view| == 10
      && (exists i :: 0 <= i < |view| && view[i].selected)
      && (forall i, j :: 0 <= i < |view| && 0 <= j < |view| && view[i].selected && view[j].selected ==> i == j)
      && view[0].count == SumBadges(view[1..])
  {
    var view := Entries(variant, counts, selected);
    AllCategoriesListsEachOnce();
    var all := AllCategories();
    assert selected in all;
    var k :| 0 <= k < |all| && all[k] == selected;
    assert view[k].selected;
    forall i, j | 0 <= i < |view| && 0 <= j < |view| && view[i].selected && view[j].selected
      ensures i == j
    {
      assert all[i] == selected == all[j];
    }
    SumBadgesOver(view[1..], CategoryKeys, counts);
  }

  /** A category's badge never exceeds the total. */
  lemma {:induction false} CountWithinSum(keys: seq<Category>, counts: map<Category, nat>, c: Category)
    requires c in keys
    ensures CountFor(counts, c) <= SumOver(keys, counts)
    decreases |keys|
  {
    if Last(keys) != c {
      assert keys == Init(keys) + [Last(keys)];
      CountWithinSum(Init(keys), counts, c);
    }
  }

  lemma CategoryBadgeAtMostAll(counts: map<Category, nat>, c: Category)
    ensures EntryCount(counts, Only(c)) <= EntryCount(counts, All)
  {
    CategoryKeysComplete();
    CountWithinSum(CategoryKeys, counts, c);
  }

  /** With the counts of a product list, 'All' shows the list's length and each category its occurrences. */
  lemma BadgesOfTally(cats: seq<Category>, c: Category)
    ensures EntryCount(TallyOf(cats), All) == |cats|
    ensures EntryCount(TallyOf(cats), Only(c)) == multiset(cats)[c]
  {
    TallySum(cats);
  }

  /** Without counts (the default `{}`) every badge is 0. */
  lemma DefaultCountsAreZero(entry: Selection)
    ensures EntryCount(map[], entry) == 0
  {
    SumOverEmpty(CategoryKeys);
  }

  /** Different categories have different names, so the entries' captions (and React keys) are distinct. */
  lemma CategoryNameInjective(a: Category, b: Category)
    requires CategoryName(a) == CategoryName(b)
    ensures a == b
  {
    match a
    case Bulks => assert CategoryName(a)[0] == 'B' && |CategoryName(a)| == 5;
    case Lollies =>
    case Kulfi => assert CategoryName(a)[1] == 'u' && |CategoryName(a)| == 5;
    case Kasata =>
    case Balls => assert CategoryName(a)[0] == 'B' && CategoryName(a)[1] == 'a' && |CategoryName(a)| == 5;
    case JumboRefill =>
    case BlackForest =>
    case HalfLiters =>
    case OneLiter =>
  }

  lemma {:induction false} LabelsDistinct(variant: Variant, counts: map<Category, nat>, selected: Selection)
    ensures var view := Entries(variant, counts, selected);
      forall i, j :: 0 <= i < j < |view| ==> view[i].caption != view[j].caption
  {
    var view := Entries(variant, counts, selected);
    AllCategoriesListsEachOnce();
    forall i, j | 0 <= i < j < |view| ensures view[i].caption != view[j].caption {
      var a, b := AllCategories()[i], AllCategories()[j];
      assert a != b && b.Only?;
      assert view[j].caption == CategoryName(b.category);
      if a.All? {
        AllLabelIsNoCategory(variant, b.category);
      } else if view[i].caption == view[j].caption {
        CategoryNameInjective(a.category, b.category);
      }
    }
  }

  /** Neither "All" nor "All Products" is the name of a category. */
  lemma AllLabelIsNoCategory(variant: Variant, c: Category)
    ensures EntryLabel(variant, All) != CategoryName(c)
  {
    var text := EntryLabel(variant, All);
    assert text[0] == 'A';
    assert CategoryName(c)[0] != 'A' by {
      match c
      case Bulks =>
      case Lollies =>
      case Kulfi =>
      case Kasata =>
      case Balls =>
      case JumboRefill =>
      case BlackForest =>
      case HalfLiters =>
      case OneLiter =>
    }
  }
}
