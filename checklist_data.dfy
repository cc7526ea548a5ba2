/** The built-in chimney checklist and the helper that flattens a checklist into the
    `{ category, name }` rows inserted for a new inspection. */
module ChecklistData {
  import opened Types
  import T = ChecklistTemplateService

  /** A category of the built-in checklist: a name and the item names. */
  datatype DataCategory = DataCategory(name: string, items: seq<string>)

  /** One row to insert: the item name and the category it belongs to. */
  datatype Entry = Entry(category: string, name: string)

  const DEFAULT_CHECKLIST: seq<DataCategory> := [
    DataCategory("Chimney Cap", ["Cap condition", "Spark arrestor", "Animal guard", "Proper sizing"]),
    DataCategory("Chimney Crown", ["Cracks or deterioration", "Proper slope", "Sealant condition", "Overhang adequate"]),
    DataCategory("Flue", ["Liner condition", "Creosote buildup", "Obstructions", "Proper sizing", "Joints sealed"]),
    DataCategory("Firebox", ["Firebrick condition", "Mortar joints", "Smoke chamber", "Back wall integrity", "Floor condition"]),
    DataCategory("Damper", ["Operation", "Seal condition", "Handle/controls", "Rust or corrosion"]),
    DataCategory("Hearth Extension", ["Size adequate", "Material condition", "Clearance to combustibles"]),
    DataCategory("Exterior Masonry", ["Brick condition", "Mortar joints", "Flashing", "Waterproofing", "Structural integrity"]),
    DataCategory("Cleanout", ["Door condition", "Seal intact", "Accessible"])
  ]

  /** The entries of one category, in item order. */
  function CategoryEntries(category: string, items: seq<string>): seq<Entry>
  {
    if items == [] then []
    else CategoryEntries(category, items[..|items| - 1]) + [Entry(category, items[|items| - 1])]
  }

  /** The reference flattening: categories in order, then items in order. */
  function Entries(categories: seq<DataCategory>): seq<Entry>
  {
    if categories == [] then []
    else
      var last := categories[|categories| - 1];
      Entries(categories[..|categories| - 1]) + CategoryEntries(last.name, last.items)
  }

  /** The number of item names over all categories. */
  function ItemCount(categories: seq<DataCategory>): nat
  {
    if categories == [] then 0
    else ItemCount(categories[..|categories| - 1]) + |categories[|categories| - 1].items|
  }

  /** `flattenChecklist`: nested loops that push one entry per item name. */
  method FlattenChecklist(categories: seq<DataCategory>) returns (items: seq<Entry>)
    ensures items == Entries(categories)
  {
    items := [];
    var i := 0;
    while i < |categories|
      invariant 0 <= i <= |categories|
      invariant items == Entries(categories[..i])
    {
      var category := categories[i];
      var j := 0;
      while j < |category.items|
        invariant 0 <= j <= |category.items|
        invariant items == Entries(categories[..i]) + CategoryEntries(category.name, category.items[..j])
      {
        items := items + [Entry(category.name, category.items[j])];
        assert category.items[..j + 1][..j] == category.items[..j];
        j := j + 1;
      }
      assert category.items[..j] == category.items;
      assert categories[..i + 1][..i] == categories[..i];
      i := i + 1;
    }
    assert categories[..i] == categories;
  }

  lemma {:induction false} CategoryEntriesLength(category: string, items: seq<string>)
    ensures |CategoryEntries(category, items)| == |items|
  {
    if items != [] {
      CategoryEntriesLength(category, items[..|items| - 1]);
    }
  }

  /** The flattened list has one entry per item name: nothing is dropped or merged. */
  lemma {:induction false} EntriesLength(categories: seq<DataCategory>)
    ensures |Entries(categories)| == ItemCount(categories)
  {
    if categories != [] {
      var last := categories[|categories| - 1];
      EntriesLength(categories[..|categories| - 1]);
      CategoryEntriesLength(last.name, last.items);
    }
  }

  // ---------------------------------------------------------------- agreement with the template service

  /** Item names read as bare template items. */
  function BareItems(names: seq<string>): (r: seq<T.ChecklistItem>)
    ensures |r| == |names|
    ensures forall j :: 0 <= j < |names| ==> r[j] == T.Bare(names[j])
  {
    if names == [] then [] else BareItems(names[..|names| - 1]) + [T.Bare(names[|names| - 1])]
  }

  /** The checklist read as a template whose items are all bare names. */
  function AsTemplateCategories(categories: seq<DataCategory>): (r: seq<T.ChecklistCategory>)
    ensures |r| == |categories|
    ensures forall i :: 0 <= i < |categories| ==> r[i] == T.ChecklistCategory(categories[i].name, BareItems(categories[i].items))
  {
    if categories == [] then []
    else
      var last := categories[|categories| - 1];
      AsTemplateCategories(categories[..|categories| - 1]) + [T.ChecklistCategory(last.name, BareItems(last.items))]
  }

  /** The category and name of each flattened template entry. */
  function Project(items: seq<T.FlatItem>): (r: seq<Entry>)
    ensures |r| == |items|
    ensures forall k :: 0 <= k < |items| ==> r[k] == Entry(items[k].category, items[k].name)
  {
    seq(|items|, k requires 0 <= k < |items| => Entry(items[k].category, items[k].name))
  }

  lemma {:induction false} CategoryAgrees(name: string, names: seq<string>, items: seq<T.ChecklistItem>)
    requires |items| == |names| && forall j :: 0 <= j < |names| ==> items[j] == T.Bare(names[j])
    ensures CategoryEntries(name, names) == Project(T.FlattenCategory(name, items))
  {
    T.FlattenCategoryLength(name, items);
    if names != [] {
      var n := |names|;
      CategoryAgrees(name, names[..n - 1], items[..n - 1]);
      T.FlattenCategoryLength(name, items[..n - 1]);
      assert T.FlattenCategory(name, items) == T.FlattenCategory(name, items[..n - 1]) + [T.FlattenItem(name, items[n - 1])];
    }
  }

  /** Projecting a concatenation projects each part: `Project` maps entry by entry. */
  lemma ProjectAppend(a: seq<T.FlatItem>, b: seq<T.FlatItem>)
    ensures Project(a + b) == Project(a) + Project(b)
  {
  }

  /** On name-only categories the two flattenings agree on every entry's category and name. */
  lemma {:induction false} AgreesWithTemplateFlattening(categories: seq<DataCategory>)
    ensures Entries(categories) == Project(T.Flatten(AsTemplateCategories(categories)))
  {
    if categories != [] {
      var n := |categories|;
      var init := categories[..n - 1];
      var last := categories[n - 1];
      var tc := AsTemplateCategories(categories);
      AgreesWithTemplateFlattening(init);
      assert AsTemplateCategories(init) == tc[..n - 1];
      assert tc[n - 1] == T.ChecklistCategory(last.name, BareItems(last.items));
      CategoryAgrees(last.name, last.items, BareItems(last.items));
      ProjectAppend(T.Flatten(tc[..n - 1]), T.FlattenCategory(last.name, BareItems(last.items)));
    }
  }

  lemma ItemCountStep(categories: seq<DataCategory>, i: nat)
    requires i < |categories|
    ensures ItemCount(categories[..i + 1]) == ItemCount(categories[..i]) + |categories[i].items|
  {
    assert categories[..i + 1][..i] == categories[..i];
  }

  lemma {:induction false} CategoryEntryAt(category: string, items: seq<string>, j: nat)
    requires j < |items|
    ensures |CategoryEntries(category, items)| == |items|
    ensures CategoryEntries(category, items)[j] == Entry(category, items[j])
  {
    CategoryEntriesLength(category, items);
    if j < |items| - 1 {
      CategoryEntryAt(category, items[..|items| - 1], j);
    }
  }

  /** Item `j` of category `i` is the entry after all items of the earlier categories
      and the first `j` of its own, labelled with its category's name: order is category
      order, then item order. */
  lemma {:induction false} EntryAt(categories: seq<DataCategory>, i: nat, j: nat)
    requires i < |categories| && j < |categories[i].items|
    ensures ItemCount(categories[..i]) + j < |Entries(categories)|
    ensures Entries(categories)[ItemCount(categories[..i]) + j] == Entry(categories[i].name, categories[i].items[j])
  {
    var n := |categories|;
    var init := categories[..n - 1];
    var last := categories[n - 1];
    EntriesLength(init);
    EntriesLength(categories);
    CategoryEntriesLength(last.name, last.items);
    if i == n - 1 {
      assert categories[..i] == init;
      CategoryEntryAt(last.name, last.items, j);
    } else {
      assert init[i] == categories[i];
      assert init[..i] == categories[..i];
      EntryAt(init, i, j);
    }
  }

  // ---------------------------------------------------------------- the built-in checklist

  /** How many items each category of the built-in checklist has before it. */
  lemma DefaultPrefixCounts()
    ensures ItemCount(DEFAULT_CHECKLIST[..0]) == 0
    ensures ItemCount(DEFAULT_CHECKLIST[..2]) == 8
    ensures ItemCount(DEFAULT_CHECKLIST[..3]) == 13
    ensures ItemCount(DEFAULT_CHECKLIST[..6]) == 25
    ensures ItemCount(DEFAULT_CHECKLIST[..7]) == 30
    ensures ItemCount(DEFAULT_CHECKLIST[..8]) == 33
  {
    DefaultCategorySizes();
    PrefixCountsOfSizes(DEFAULT_CHECKLIST);
  }

  /** The built-in checklist's categories have 4, 4, 5, 5, 4, 3, 5 and 3 items. */
  lemma DefaultCategorySizes()
    ensures HasDefaultSizes(DEFAULT_CHECKLIST)
  {
    var d := DEFAULT_CHECKLIST;
    assert |d[0].items| == 4 && |d[1].items| == 4 && |d[2].items| == 5 && |d[3].items| == 5;
    assert |d[4].items| == 4 && |d[5].items| == 3 && |d[6].items| == 5 && |d[7].items| == 3;
  }

  predicate HasDefaultSizes(d: seq<DataCategory>)
  {
    |d| == 8 &&
    |d[0].items| == 4 && |d[1].items| == 4 && |d[2].items| == 5 && |d[3].items| == 5 &&
    |d[4].items| == 4 && |d[5].items| == 3 && |d[6].items| == 5 && |d[7].items| == 3
  }

  lemma PrefixCountsOfSizes(d: seq<DataCategory>)
    requires HasDefaultSizes(d)
    ensures ItemCount(d[..0]) == 0 && ItemCount(d[..2]) == 8 && ItemCount(d[..3]) == 13
    ensures ItemCount(d[..6]) == 25 && ItemCount(d[..7]) == 30 && ItemCount(d[..8]) == 33
  {
    assert d[..0] == [];
    ItemCountStep(d, 0);
    ItemCountStep(d, 1);
    ItemCountStep(d, 2);
    ItemCountStep(d, 3);
    ItemCountStep(d, 4);
    ItemCountStep(d, 5);
    ItemCountStep(d, 6);
    ItemCountStep(d, 7);
  }

  /** The built-in checklist has 8 categories and 33 items, flattened to 33 rows. */
  lemma DefaultChecklistSize()
    ensures |DEFAULT_CHECKLIST| == 8
    ensures ItemCount(DEFAULT_CHECKLIST) == 33
    ensures |Entries(DEFAULT_CHECKLIST)| == 33
  {
    DefaultPrefixCounts();
    assert DEFAULT_CHECKLIST[..8] == DEFAULT_CHECKLIST;
    EntriesLength(DEFAULT_CHECKLIST);
  }

  /** The first row is the chimney cap's condition and the last the cleanout's accessibility. */
  lemma DefaultChecklistEnds()
    ensures |Entries(DEFAULT_CHECKLIST)| == 33
    ensures Entries(DEFAULT_CHECKLIST)[0] == Entry("Chimney Cap", "Cap condition")
    ensures Entries(DEFAULT_CHECKLIST)[32] == Entry("Cleanout", "Accessible")
  {
    DefaultChecklistSize();
    DefaultPrefixCounts();
    EntryAt(DEFAULT_CHECKLIST, 0, 0);
    EntryAt(DEFAULT_CHECKLIST, 7, 2);
  }

  /** Names repeated in different categories are kept, once per category. */
  lemma DefaultChecklistKeepsDuplicates()
    ensures |Entries(DEFAULT_CHECKLIST)| == 33
    ensures Entries(DEFAULT_CHECKLIST)[3] == Entry("Chimney Cap", "Proper sizing")
    ensures Entries(DEFAULT_CHECKLIST)[11] == Entry("Flue", "Proper sizing")
    ensures Entries(DEFAULT_CHECKLIST)[14] == Entry("Firebox", "Mortar joints")
    ensures Entries(DEFAULT_CHECKLIST)[26] == Entry("Exterior Masonry", "Mortar joints")
  {
    DefaultChecklistSize();
    DefaultPrefixCounts();
    DefaultEntryIs(0, 3, 3);
    DefaultEntryIs(2, 3, 11);
    DefaultEntryIs(3, 1, 14);
    DefaultEntryIs(6, 1, 26);
  }

  lemma DefaultEntryIs(i: nat, j: nat, k: nat)
    requires i < |DEFAULT_CHECKLIST| && j < |DEFAULT_CHECKLIST[i].items|
    requires k == ItemCount(DEFAULT_CHECKLIST[..i]) + j
    ensures k < |Entries(DEFAULT_CHECKLIST)|
    ensures Entries(DEFAULT_CHECKLIST)[k] == Entry(DEFAULT_CHECKLIST[i].name, DEFAULT_CHECKLIST[i].items[j])
  {
    EntryAt(DEFAULT_CHECKLIST, i, j);
  }
}
