/** The checklist-template service: template records, flattening a template into the
    rows to insert, the lookups over the company/template join table, and the three
    operations that change `company_checklist_templates`. */
module ChecklistTemplateService {
  import opened Wrappers
  import opened Types

  /** A template item: a bare name, or an object whose `item_type` may be absent. */
  datatype ChecklistItem =
    | Bare(name: string)
    | Structured(name: string, itemType: Option<ItemType>, description: Option<string>)

  datatype ChecklistCategory = ChecklistCategory(name: string, items: seq<ChecklistItem>)

  datatype ChecklistTemplate = ChecklistTemplate(
    id: string,
    name: string,
    description: Option<string>,
    industry: Option<string>,
    categories: seq<ChecklistCategory>,
    isSystem: bool,
    companyId: Option<string>)

  /** One entry of a flattened template; `itemType` is always set. */
  datatype FlatItem = FlatItem(category: string, name: string, itemType: ItemType, description: Option<string>)

  // ---------------------------------------------------------------- flattening

  /** The entry one template item becomes inside category `category`. */
  function FlattenItem(category: string, item: ChecklistItem): FlatItem
  {
    match item
    case Bare(name) => FlatItem(category, name, StatusItem, None)
    case Structured(name, t, d) => FlatItem(category, name, if t.Some? then t.value else StatusItem, d)
  }

  /** The entries of the items of one category, in item order. */
  function FlattenCategory(category: string, items: seq<ChecklistItem>): seq<FlatItem>
  {
    if items == [] then []
    else FlattenCategory(category, items[..|items| - 1]) + [FlattenItem(category, items[|items| - 1])]
  }

  /** The reference flattening: categories in declaration order, items in order. */
  function Flatten(categories: seq<ChecklistCategory>): seq<FlatItem>
  {
    if categories == [] then []
    else
      var last := categories[|categories| - 1];
      Flatten(categories[..|categories| - 1]) + FlattenCategory(last.name, last.items)
  }

  /** The number of items over all categories (`reduce((sum, cat) => sum + cat.items.length, 0)`). */
  function TotalItems(categories: seq<ChecklistCategory>): nat
  {
    if categories == [] then 0
    else TotalItems(categories[..|categories| - 1]) + |categories[|categories| - 1].items|
  }

  /** Where the entries of category `i` start in the flattened list. */
  function Offset(categories: seq<ChecklistCategory>, i: nat): nat
    requires i <= |categories|
  {
    TotalItems(categories[..i])
  }

  /** `flattenTemplateCategories`: nested loops that push one entry per item. */
  method FlattenTemplateCategories(categories: seq<ChecklistCategory>) returns (items: seq<FlatItem>)
    ensures items == Flatten(categories)
  {
    items := [];
    var i := 0;
    while i < |categories|
      invariant 0 <= i <= |categories|
      invariant items == Flatten(categories[..i])
    {
      var category := categories[i];
      var j := 0;
      while j < |category.items|
        invariant 0 <= j <= |category.items|
        invariant items == Flatten(categories[..i]) + FlattenCategory(category.name, category.items[..j])
      {
        var item := category.items[j];
        match item {
          case Bare(name) =>
            items := items + [FlatItem(category.name, name, StatusItem, None)];
          case Structured(name, t, d) =>
            items := items + [FlatItem(category.name, name, if t.Some? then t.value else StatusItem, d)];
        }
        assert category.items[..j + 1][..j] == category.items[..j];
        j := j + 1;
      }
      assert category.items[..j] == category.items;
      assert categories[..i + 1][..i] == categories[..i];
      i := i + 1;
    }
    assert categories[..i] == categories;
  }

  lemma {:induction false} FlattenCategoryLength(category: string, items: seq<ChecklistItem>)
    ensures |FlattenCategory(category, items)| == |items|
  {
    if items != [] {
      FlattenCategoryLength(category, items[..|items| - 1]);
    }
  }

  lemma {:induction false} FlattenCategoryAt(category: string, items: seq<ChecklistItem>, j: nat)
    requires j < |items|
    ensures |FlattenCategory(category, items)| == |items|
    ensures FlattenCategory(category, items)[j] == FlattenItem(category, items[j])
  {
    FlattenCategoryLength(category, items);
    if j < |items| - 1 {
      FlattenCategoryAt(category, items[..|items| - 1], j);
    }
  }

  /** The flattened list has exactly one entry per item of the template. */
  lemma {:induction false} FlattenLength(categories: seq<ChecklistCategory>)
    ensures |Flatten(categories)| == TotalItems(categories)
  {
    if categories != [] {
      var last := categories[|categories| - 1];
      FlattenLength(categories[..|categories| - 1]);
      FlattenCategoryLength(last.name, last.items);
    }
  }

  /** Category `i` starts right after the items of the categories before it. */
  lemma OffsetStep(categories: seq<ChecklistCategory>, i: nat)
    requires i < |categories|
    ensures Offset(categories, i + 1) == Offset(categories, i) + |categories[i].items|
  {
    assert categories[..i + 1][..i] == categories[..i];
  }

  lemma {:induction false} OffsetBound(categories: seq<ChecklistCategory>, i: nat)
    requires i <= |categories|
    ensures Offset(categories, i) <= TotalItems(categories)
    decreases |categories| - i
  {
    if i < |categories| {
      OffsetStep(categories, i);
      OffsetBound(categories, i + 1);
    } else {
      assert categories[..i] == categories;
    }
  }

  /** Item `j` of category `i` lands at position `Offset(i) + j`, carrying its
      category's name: a bare name becomes a status item without description, an
      object keeps its name and description and defaults its type to status. */
  lemma {:induction false} FlattenAt(categories: seq<ChecklistCategory>, i: nat, j: nat)
    requires i < |categories| && j < |categories[i].items|
    ensures Offset(categories, i) + j < |Flatten(categories)|
    ensures Flatten(categories)[Offset(categories, i) + j] == FlattenItem(categories[i].name, categories[i].items[j])
    ensures Flatten(categories)[Offset(categories, i) + j].category == categories[i].name
    ensures categories[i].items[j].Bare? ==>
      Flatten(categories)[Offset(categories, i) + j] == FlatItem(categories[i].name, categories[i].items[j].name, StatusItem, None)
  {
    var n := |categories|;
    var init := categories[..n - 1];
    var last := categories[n - 1];
    FlattenLength(init);
    FlattenCategoryLength(last.name, last.items);
    if i == n - 1 {
      assert categories[..i] == init;
      FlattenCategoryAt(last.name, last.items, j);
    } else {
      assert init[i] == categories[i];
      assert init[..i] == categories[..i];
      FlattenAt(init, i, j);
    }
  }

  /** Every position of the flattened list comes from some item: together with
      `FlattenAt` and `OffsetStep`, positions and items are in one-to-one correspondence. */
  lemma {:induction false} Locate(categories: seq<ChecklistCategory>, k: nat) returns (i: nat, j: nat)
    requires k < |Flatten(categories)|
    ensures i < |categories| && j < |categories[i].items|
    ensures k == Offset(categories, i) + j
  {
    var n := |categories|;
    var init := categories[..n - 1];
    var last := categories[n - 1];
    FlattenLength(init);
    FlattenCategoryLength(last.name, last.items);
    assert categories[..n - 1] == init;
    if k < |Flatten(init)| {
      i, j := Locate(init, k);
      assert init[..i] == categories[..i];
    } else {
      i, j := n - 1, k - |Flatten(init)|;
    }
  }

  // ---------------------------------------------------------------- lookups

  /** A row of the join `company_checklist_templates` → `checklist_templates`;
      the join yields no template when the template row is missing. */
  datatype JoinRow = JoinRow(template: Option<ChecklistTemplate>)

  /** `data.map(item => item.template).filter(Boolean)`. */
  function PresentTemplates(rows: seq<JoinRow>): (r: seq<ChecklistTemplate>)
    ensures |r| == |rows| - multiset(rows)[JoinRow(None)]
    ensures forall t :: t in r <==> JoinRow(Some(t)) in rows
  {
    if rows == [] then []
    else
      var rest := PresentTemplates(rows[1..]);
      assert forall t :: JoinRow(Some(t)) in rows <==> rows[0] == JoinRow(Some(t)) || JoinRow(Some(t)) in rows[1..];
      assert rows == [rows[0]] + rows[1..];
      if rows[0].template.Some? then [rows[0].template.value] + rest else rest
  }

  /** The filter keeps the templates in the order of their rows, one for each row that
      has one: it maps a concatenation to a concatenation, a row with a template to that
      template and a row without one to nothing. */
  lemma {:induction false} PresentTemplatesInOrder(a: seq<JoinRow>, b: seq<JoinRow>, t: ChecklistTemplate)
    ensures PresentTemplates(a + b) == PresentTemplates(a) + PresentTemplates(b)
    ensures PresentTemplates([JoinRow(Some(t))]) == [t]
    ensures PresentTemplates([JoinRow(None)]) == []
  {
    if a != [] {
      assert (a + b)[1..] == a[1..] + b;
      PresentTemplatesInOrder(a[1..], b, t);
    } else {
      assert a + b == b;
    }
  }

  /** A template appears in the result as many times as rows carry it. */
  lemma {:induction false} PresentTemplatesCount(rows: seq<JoinRow>, t: ChecklistTemplate)
    ensures multiset(PresentTemplates(rows))[t] == multiset(rows)[JoinRow(Some(t))]
  {
    if rows != [] {
      PresentTemplatesCount(rows[1..], t);
      assert rows == [rows[0]] + rows[1..];
    }
  }

  /** `getAvailableTemplates`: an error is passed on; otherwise the templates that the
      join found, and the empty list (not null) when the query returned no data. */
  function GetAvailableTemplates(response: DbResponse<seq<JoinRow>>): (r: ApiResponse<seq<ChecklistTemplate>>)
    ensures response.error.Some? ==> r == Err(response.error.value.message)
    ensures response.error.None? ==> r.error.None? && r.data.Some?
    ensures response.error.None? && response.data.None? ==> r.data == Some([])
    ensures response.error.None? && response.data.Some? ==>
      r.data == Some(PresentTemplates(response.data.value)) &&
      forall t :: t in r.data.value <==> JoinRow(Some(t)) in response.data.value
  {
    if response.error.Some? then Err(response.error.value.message)
    else Ok(if response.data.Some? then PresentTemplates(response.data.value) else [])
  }

  /** `getDefaultTemplate`: "no rows" is success with no template; any other error is
      returned as its message. */
  function GetDefaultTemplate(response: DbResponse<JoinRow>): (r: ApiResponse<ChecklistTemplate>)
    ensures r.error.Some? <==> response.error.Some? && response.error.value.code != NO_ROWS
    ensures r.error.Some? ==> r.data.None? && r.error.value == response.error.value.message
    ensures r.error.None? ==> r.data == (if response.data.Some? then response.data.value.template else None)
    ensures response.error.Some? && response.error.value.code == NO_ROWS && response.data.None? ==>
      r == ApiResponse(None, None)
  {
    if response.error.Some? && response.error.value.code != NO_ROWS then Err(response.error.value.message)
    else ApiResponse(if response.data.Some? then response.data.value.template else None, None)
  }

  // ---------------------------------------------------------------- the company/template table

  /** A row of `company_checklist_templates` (its id and timestamp are left out). */
  datatype TemplateRow = TemplateRow(companyId: string, templateId: string, isDefault: bool)

  predicate SameKey(a: TemplateRow, b: TemplateRow) {
    a.companyId == b.companyId && a.templateId == b.templateId
  }

  /** The table's unique key `(company_id, template_id)`. */
  predicate KeysUnique(rows: seq<TemplateRow>) {
    forall i, j :: 0 <= i < j < |rows| ==> !SameKey(rows[i], rows[j])
  }

  /** No company has two default rows. */
  predicate OneDefaultPerCompany(rows: seq<TemplateRow>) {
    forall i, j :: 0 <= i < j < |rows| && rows[i].isDefault && rows[j].isDefault ==>
      rows[i].companyId != rows[j].companyId
  }

  /** `update({ is_default: false }).eq('company_id', companyId)`. */
  function UnsetDefaults(rows: seq<TemplateRow>, companyId: string): (r: seq<TemplateRow>)
    ensures |r| == |rows|
    ensures forall i :: 0 <= i < |rows| ==> SameKey(r[i], rows[i])
    ensures forall i :: 0 <= i < |rows| ==>
      r[i].isDefault == (rows[i].isDefault && rows[i].companyId != companyId)
  {
    if rows == [] then []
    else [rows[0].(isDefault := rows[0].isDefault && rows[0].companyId != companyId)]
         + UnsetDefaults(rows[1..], companyId)
  }

  /** Clearing the defaults keeps the keys unique, and never creates a second default. */
  lemma UnsetDefaultsKeepsInvariants(rows: seq<TemplateRow>, companyId: string)
    requires KeysUnique(rows)
    ensures KeysUnique(UnsetDefaults(rows, companyId))
    ensures OneDefaultPerCompany(rows) ==> OneDefaultPerCompany(UnsetDefaults(rows, companyId))
  {
    var u := UnsetDefaults(rows, companyId);
    forall i, j | 0 <= i < j < |u| ensures !SameKey(u[i], u[j]) {
      assert SameKey(u[i], rows[i]) && SameKey(u[j], rows[j]);
    }
  }

  /** Upsert on `(company_id, template_id)`: the row with the same key is replaced in
      place, or the new row is appended when there is none. */
  function Upsert(rows: seq<TemplateRow>, row: TemplateRow): (r: seq<TemplateRow>)
    requires KeysUnique(rows)
    ensures (exists i :: 0 <= i < |rows| && SameKey(rows[i], row)) ==> |r| == |rows|
    ensures (forall i :: 0 <= i < |rows| ==> !SameKey(rows[i], row)) ==> r == rows + [row]
    ensures forall i :: 0 <= i < |rows| ==> r[i] == if SameKey(rows[i], row) then row else rows[i]
  {
    if rows == [] then [row]
    else if SameKey(rows[0], row) then [row] + rows[1..]
    else [rows[0]] + Upsert(rows[1..], row)
  }

  /** `delete().eq('company_id', c).eq('template_id', t)`. */
  function DeleteRow(rows: seq<TemplateRow>, companyId: string, templateId: string): (r: seq<TemplateRow>)
    ensures |r| <= |rows|
    ensures forall x :: x in r <==> x in rows && !(x.companyId == companyId && x.templateId == templateId)
  {
    if rows == [] then []
    else
      var rest := DeleteRow(rows[1..], companyId, templateId);
      assert forall x :: x in rows <==> x == rows[0] || x in rows[1..];
      if rows[0].companyId == companyId && rows[0].templateId == templateId then rest else [rows[0]] + rest
  }

  /** `update({ is_default: true }).eq('company_id', c).eq('template_id', t)`. */
  function MarkDefault(rows: seq<TemplateRow>, companyId: string, templateId: string): (r: seq<TemplateRow>)
    ensures |r| == |rows|
    ensures forall i :: 0 <= i < |rows| ==> SameKey(r[i], rows[i])
    ensures forall i :: 0 <= i < |rows| ==>
      r[i].isDefault == (rows[i].isDefault || (rows[i].companyId == companyId && rows[i].templateId == templateId))
  {
    if rows == [] then []
    else [rows[0].(isDefault := rows[0].isDefault || (rows[0].companyId == companyId && rows[0].templateId == templateId))]
         + MarkDefault(rows[1..], companyId, templateId)
  }

  lemma KeysUniqueTail(rows: seq<TemplateRow>)
    requires rows != [] && KeysUnique(rows)
    ensures KeysUnique(rows[1..])
  {
    var rest := rows[1..];
    forall i, j | 0 <= i < j < |rest| ensures !SameKey(rest[i], rest[j]) {
      assert rest[i] == rows[i + 1] && rest[j] == rows[j + 1];
    }
  }

  lemma KeysUniqueCons(a: TemplateRow, u: seq<TemplateRow>)
    requires KeysUnique(u) && forall x :: x in u ==> !SameKey(a, x)
    ensures KeysUnique([a] + u)
  {
    var r := [a] + u;
    forall i, j | 0 <= i < j < |r| ensures !SameKey(r[i], r[j]) {
      assert r[j] == u[j - 1];
      if i > 0 {
        assert r[i] == u[i - 1];
      } else {
        assert u[j - 1] in u;
      }
    }
  }

  /** The upsert never produces a second row for a key, and its row is then the only
      one with that key. */
  lemma {:induction false} UpsertKeepsKeysUnique(rows: seq<TemplateRow>, row: TemplateRow)
    requires KeysUnique(rows)
    ensures KeysUnique(Upsert(rows, row))
    ensures row in Upsert(rows, row)
    ensures forall x :: x in Upsert(rows, row) ==> x == row || x in rows
    ensures forall x :: x in Upsert(rows, row) && SameKey(x, row) ==> x == row
  {
    if rows != [] && !SameKey(rows[0], row) {
      var rest := rows[1..];
      KeysUniqueTail(rows);
      UpsertKeepsKeysUnique(rest, row);
      var u := Upsert(rest, row);
      assert Upsert(rows, row) == [rows[0]] + u;
      forall x | x in u ensures !SameKey(rows[0], x) {
        if x != row {
          var k :| 0 <= k < |rest| && rest[k] == x;
          assert rows[k + 1] == x;
        }
      }
      KeysUniqueCons(rows[0], u);
    } else if rows != [] {
      var r := Upsert(rows, row);
      forall i, j | 0 <= i < j < |r| ensures !SameKey(r[i], r[j]) {
        assert SameKey(r[0], rows[0]);
        assert r[i] == rows[i] || i == 0;
      }
      assert r[0] == row;
    }
  }

  /** Deleting rows keeps the keys unique, and never creates a second default. */
  lemma DeleteKeepsInvariants(rows: seq<TemplateRow>, companyId: string, templateId: string)
    requires KeysUnique(rows)
    ensures KeysUnique(DeleteRow(rows, companyId, templateId))
    ensures OneDefaultPerCompany(rows) ==> OneDefaultPerCompany(DeleteRow(rows, companyId, templateId))
  {
    if rows != [] {
      KeysUniqueTail(rows);
      DeleteKeepsInvariants(rows[1..], companyId, templateId);
    }
  }

  /** Marking a row as default changes no key, so the keys stay unique. */
  lemma MarkDefaultKeepsKeysUnique(rows: seq<TemplateRow>, companyId: string, templateId: string)
    requires KeysUnique(rows)
    ensures KeysUnique(MarkDefault(rows, companyId, templateId))
  {
    var r := MarkDefault(rows, companyId, templateId);
    forall i, j | 0 <= i < j < |r| ensures !SameKey(r[i], r[j]) {
      assert SameKey(r[i], rows[i]) && SameKey(r[j], rows[j]);
    }
  }

  /** The rows of company `c` hold no default. */
  predicate NoDefaultFor(rows: seq<TemplateRow>, c: string) {
    forall i :: 0 <= i < |rows| && rows[i].companyId == c ==> !rows[i].isDefault
  }

  /** After the upsert of a default row into rows with no default for its company, that
      row is the company's only default. */
  lemma UpsertDefaultRow(u: seq<TemplateRow>, row: TemplateRow, k: nat)
    requires KeysUnique(u) && row.isDefault && NoDefaultFor(u, row.companyId)
    requires k < |Upsert(u, row)| && Upsert(u, row)[k].companyId == row.companyId
    ensures Upsert(u, row)[k].isDefault <==> Upsert(u, row)[k].templateId == row.templateId
  {
    var r := Upsert(u, row);
    if k < |u| {
      assert r[k] == if SameKey(u[k], row) then row else u[k];
    } else {
      assert r == u + [row];
    }
  }

  /** The upsert of a default row into rows with no default for its company keeps one
      default per company. */
  lemma UpsertDefaultOneDefault(u: seq<TemplateRow>, row: TemplateRow)
    requires KeysUnique(u) && OneDefaultPerCompany(u) && row.isDefault && NoDefaultFor(u, row.companyId)
    ensures OneDefaultPerCompany(Upsert(u, row))
  {
    var r := Upsert(u, row);
    forall i, j | 0 <= i < j < |r| && r[i].isDefault && r[j].isDefault ensures r[i].companyId != r[j].companyId {
      assert r[i] == if SameKey(u[i], row) then row else u[i];
      if j < |u| {
        assert r[j] == if SameKey(u[j], row) then row else u[j];
      } else {
        assert r == u + [row];
      }
    }
  }

  /** Enabling as default clears the company's other defaults first, so afterwards the
      company's only default row is this template's. */
  lemma EnableAsDefaultLeavesOneDefault(rows: seq<TemplateRow>, companyId: string, templateId: string)
    requires KeysUnique(rows)
    ensures var r := Upsert(UnsetDefaults(rows, companyId), TemplateRow(companyId, templateId, true));
      KeysUnique(r) && (OneDefaultPerCompany(rows) ==> OneDefaultPerCompany(r)) &&
      forall x :: x in r && x.companyId == companyId ==> (x.isDefault <==> x.templateId == templateId)
  {
    var u := UnsetDefaults(rows, companyId);
    var row := TemplateRow(companyId, templateId, true);
    UnsetDefaultsKeepsInvariants(rows, companyId);
    assert NoDefaultFor(u, companyId);
    UpsertKeepsKeysUnique(u, row);
    if OneDefaultPerCompany(rows) {
      UpsertDefaultOneDefault(u, row);
    }
    var r := Upsert(u, row);
    forall x | x in r && x.companyId == companyId ensures x.isDefault <==> x.templateId == templateId {
      var k :| 0 <= k < |r| && r[k] == x;
      UpsertDefaultRow(u, row, k);
    }
  }

  /** Enabling without the default flag keeps the defaults of every company except that
      the enabled row itself is not a default. */
  lemma EnablePlainKeepsOneDefault(rows: seq<TemplateRow>, companyId: string, templateId: string)
    requires KeysUnique(rows)
    ensures var r := Upsert(rows, TemplateRow(companyId, templateId, false));
      KeysUnique(r) && (OneDefaultPerCompany(rows) ==> OneDefaultPerCompany(r))
  {
    var row := TemplateRow(companyId, templateId, false);
    UpsertKeepsKeysUnique(rows, row);
    var r := Upsert(rows, row);
    if OneDefaultPerCompany(rows) {
      forall i, j | 0 <= i < j < |r| && r[i].isDefault && r[j].isDefault ensures r[i].companyId != r[j].companyId {
        assert j < |rows|;
        assert r[i] == rows[i] && r[j] == rows[j];
      }
    }
  }

  /** The clearing update's result is never read. When it fails, a default upsert adds a
      second default to the company's existing one: the upsert keeps every other row as
      it was and stores the new default row. */
  lemma EnableAsDefaultWithoutClear(rows: seq<TemplateRow>, companyId: string, templateId: string)
    requires KeysUnique(rows)
    ensures var r := Upsert(rows, TemplateRow(companyId, templateId, true));
      KeysUnique(r) && TemplateRow(companyId, templateId, true) in r &&
      forall x :: x in rows && x.isDefault && !(x.companyId == companyId && x.templateId == templateId) ==> x in r
  {
    var row := TemplateRow(companyId, templateId, true);
    UpsertKeepsKeysUnique(rows, row);
    var r := Upsert(rows, row);
    forall x | x in rows && x.isDefault && !(x.companyId == companyId && x.templateId == templateId) ensures x in r {
      var k :| 0 <= k < |rows| && rows[k] == x;
      assert r[k] == x;
    }
  }

  /** An instance of that: template `a` is the default of company `c`; enabling `b` as
      default with a failed clear, or marking `b` after a failed clear, leaves `c` with two
      defaults. */
  lemma FailedClearLeavesTwoDefaults()
    ensures var before := [TemplateRow("c", "a", true)];
      KeysUnique(before) && OneDefaultPerCompany(before) &&
      Upsert(before, TemplateRow("c", "b", true)) == [TemplateRow("c", "a", true), TemplateRow("c", "b", true)] &&
      !OneDefaultPerCompany(Upsert(before, TemplateRow("c", "b", true)))
    ensures var before := [TemplateRow("c", "a", true), TemplateRow("c", "b", false)];
      KeysUnique(before) && OneDefaultPerCompany(before) &&
      MarkDefault(before, "c", "b") == [TemplateRow("c", "a", true), TemplateRow("c", "b", true)] &&
      !OneDefaultPerCompany(MarkDefault(before, "c", "b"))
  {
    var one := [TemplateRow("c", "a", true)];
    assert !SameKey(one[0], TemplateRow("c", "b", true));
    var upserted := Upsert(one, TemplateRow("c", "b", true));
    assert upserted == [TemplateRow("c", "a", true), TemplateRow("c", "b", true)];
    assert upserted[0].isDefault && upserted[1].isDefault && upserted[0].companyId == upserted[1].companyId;
    var two := [TemplateRow("c", "a", true), TemplateRow("c", "b", false)];
    assert !SameKey(two[0], two[1]);
    var marked := MarkDefault(two, "c", "b");
    assert marked[0] == TemplateRow("c", "a", true) && marked[1] == TemplateRow("c", "b", true);
  }

  /** After `setDefaultTemplate` the company's default rows are exactly the row of
      `templateId` (none when the template is not enabled); other companies keep theirs. */
  lemma SetDefaultLeavesOnlyThatDefault(rows: seq<TemplateRow>, companyId: string, templateId: string)
    requires KeysUnique(rows)
    ensures var r := MarkDefault(UnsetDefaults(rows, companyId), companyId, templateId);
      |r| == |rows| && KeysUnique(r) && (OneDefaultPerCompany(rows) ==> OneDefaultPerCompany(r)) &&
      (forall i :: 0 <= i < |r| && r[i].companyId == companyId ==> (r[i].isDefault <==> r[i].templateId == templateId)) &&
      (forall i :: 0 <= i < |r| && r[i].companyId != companyId ==> r[i] == rows[i])
  {
    var u := UnsetDefaults(rows, companyId);
    var r := MarkDefault(u, companyId, templateId);
    forall i, j | 0 <= i < j < |r| ensures !SameKey(r[i], r[j]) {
      assert SameKey(r[i], rows[i]) && SameKey(r[j], rows[j]);
    }
    if OneDefaultPerCompany(rows) {
      forall i, j | 0 <= i < j < |r| && r[i].isDefault && r[j].isDefault ensures r[i].companyId != r[j].companyId {
        assert SameKey(r[i], rows[i]) && SameKey(r[j], rows[j]);
      }
    }
  }

  /** The table `company_checklist_templates`, updated in place by the service. Its key
      is unique; one default per company is kept only while every clearing update
      succeeds, because the service does not read that update's result. */
  class TemplateTable {
    var rows: seq<TemplateRow>

    ghost predicate Valid()
      reads this
    {
      KeysUnique(rows)
    }

    constructor ()
      ensures Valid() && rows == []
    {
      rows := [];
    }

    /** `enableTemplate`: with `isDefault` the company's defaults are cleared first, by
        an update whose refusal `clearError` nobody reads; then the upsert, which the
        backend may refuse with `upsertError`. */
    method EnableTemplate(companyId: string, templateId: string, isDefault: bool,
                          clearError: Option<string>, upsertError: Option<string>)
      returns (r: ApiResponse<TemplateRow>)
      requires Valid()
      modifies this
      ensures Valid()
      ensures var cleared := if isDefault && clearError.None? then UnsetDefaults(old(rows), companyId) else old(rows);
        rows == if upsertError.Some? then cleared else Upsert(cleared, TemplateRow(companyId, templateId, isDefault))
      ensures r == if upsertError.Some? then Err(upsertError.value) else Ok(TemplateRow(companyId, templateId, isDefault))
      ensures old(OneDefaultPerCompany(rows)) && (!isDefault || clearError.None?) ==> OneDefaultPerCompany(rows)
      ensures isDefault && clearError.None? && upsertError.None? ==>
        forall x :: x in rows && x.companyId == companyId ==> (x.isDefault <==> x.templateId == templateId)
    {
      var row := TemplateRow(companyId, templateId, isDefault);
      if isDefault && clearError.None? {
        EnableAsDefaultLeavesOneDefault(rows, companyId, templateId);
        UnsetDefaultsKeepsInvariants(rows, companyId);
        rows := UnsetDefaults(rows, companyId);
      } else if isDefault {
        EnableAsDefaultWithoutClear(rows, companyId, templateId);
      } else {
        EnablePlainKeepsOneDefault(rows, companyId, templateId);
      }
      if upsertError.Some? {
        return Err(upsertError.value);
      }
      rows := Upsert(rows, row);
      return Ok(row);
    }

    /** `disableTemplate`: deletes only the `(company, template)` row. */
    method DisableTemplate(companyId: string, templateId: string, deleteError: Option<string>)
      returns (r: ApiResponse<()>)
      requires Valid()
      modifies this
      ensures Valid()
      ensures rows == if deleteError.Some? then old(rows) else DeleteRow(old(rows), companyId, templateId)
      ensures r == if deleteError.Some? then Err(deleteError.value) else ApiResponse(None, None)
      ensures old(OneDefaultPerCompany(rows)) ==> OneDefaultPerCompany(rows)
    {
      if deleteError.Some? {
        return Err(deleteError.value);
      }
      DeleteKeepsInvariants(rows, companyId, templateId);
      rows := DeleteRow(rows, companyId, templateId);
      return ApiResponse(None, None);
    }

    /** `setDefaultTemplate`: clears the company's defaults, by an update whose refusal
        `clearError` nobody reads, then marks `templateId`. The two updates are separate:
        when the second fails, a cleared company is left without a default; when the
        first fails and the second succeeds, the old default stays beside the new one. */
    method SetDefaultTemplate(companyId: string, templateId: string,
                              clearError: Option<string>, updateError: Option<string>)
      returns (r: ApiResponse<()>)
      requires Valid()
      modifies this
      ensures Valid()
      ensures var cleared := if clearError.None? then UnsetDefaults(old(rows), companyId) else old(rows);
        rows == if updateError.Some? then cleared else MarkDefault(cleared, companyId, templateId)
      ensures r == if updateError.Some? then Err(updateError.value) else ApiResponse(None, None)
      ensures old(OneDefaultPerCompany(rows)) && clearError.None? ==> OneDefaultPerCompany(rows)
      ensures clearError.None? && updateError.None? ==>
        forall i :: 0 <= i < |rows| && rows[i].companyId == companyId ==> (rows[i].isDefault <==> rows[i].templateId == templateId)
    {
      if clearError.None? {
        SetDefaultLeavesOnlyThatDefault(rows, companyId, templateId);
        UnsetDefaultsKeepsInvariants(rows, companyId);
        rows := UnsetDefaults(rows, companyId);
      }
      if updateError.Some? {
        return Err(updateError.value);
      }
      MarkDefaultKeepsKeysUnique(rows, companyId, templateId);
      rows := MarkDefault(rows, companyId, templateId);
      return ApiResponse(None, None);
    }
  }
}
