/** The inspection service: creating inspections, the patches its update functions
    send, the rows it inserts for new items, the paging arithmetic of the inspection
    list, and the tables `inspections` and `inspection_items` it changes. */
module InspectionService {
  import opened Wrappers
  import opened Types
  import opened Text

  const INSPECTION_NOT_FOUND: string := "Inspection not found or access denied"
  const ITEM_NOT_FOUND: string := "Item not found or access denied"

  // ---------------------------------------------------------------- creating an inspection

  /** The fields a caller passes to `createInspection`. */
  datatype NewInspection = NewInspection(
    projectName: string,
    projectAddress: Option<string>,
    clientName: Option<string>,
    clientEmail: Option<string>,
    scheduledDate: Option<string>,
    hcpJobId: Option<string>,
    hcpJobNumber: Option<string>,
    hcpAssignedEmployee: Option<string>)

  /** The row the insert stores; `id` and `createdAt` are the values the backend assigns. */
  function NewInspectionRow(companyId: string, inspectorId: string, data: NewInspection, id: string, createdAt: string)
    : (r: Inspection)
    ensures r.status == Draft
    ensures r.companyId == companyId && r.inspectorId == inspectorId && r.id == id
    ensures r.projectName == data.projectName && r.projectAddress == data.projectAddress
    ensures r.clientName == data.clientName && r.clientEmail == data.clientEmail
    ensures r.scheduledDate == data.scheduledDate && r.hcpJobId == data.hcpJobId
    ensures r.hcpJobNumber == data.hcpJobNumber && r.hcpAssignedEmployee == data.hcpAssignedEmployee
    ensures r.createdAt == createdAt
    ensures r.completedDate.None? && r.hcpSyncedAt.None? && r.notes.None? && r.completionPercentage == 0
  {
    Inspection(id, companyId, inspectorId, data.projectName, data.projectAddress, data.clientName,
      data.clientEmail, data.scheduledDate, None, Draft, None, 0, createdAt, None,
      data.hcpJobId, data.hcpJobNumber, data.hcpAssignedEmployee, None)
  }

  // ---------------------------------------------------------------- patches

  /** A `Partial<Inspection>` restricted to the fields the application updates. */
  datatype InspectionPatch = InspectionPatch(
    status: Option<InspectionStatus>,
    completedDate: Option<string>,
    notes: Option<string>,
    scheduledDate: Option<string>)

  function ApplyInspectionPatch(i: Inspection, p: InspectionPatch): Inspection
  {
    i.(status := if p.status.Some? then p.status.value else i.status,
       completedDate := if p.completedDate.Some? then p.completedDate else i.completedDate,
       notes := if p.notes.Some? then p.notes else i.notes,
       scheduledDate := if p.scheduledDate.Some? then p.scheduledDate else i.scheduledDate)
  }

  /** The patch of `updateInspectionStatus`: the status, and the completion time `now`
      exactly when the new status is `completed`. */
  function StatusPatch(status: InspectionStatus, now: string): (p: InspectionPatch)
    ensures forall i :: (ApplyInspectionPatch(i, p) ==
                         i.(status := status, completedDate := if status == Completed then Some(now) else i.completedDate))
  {
    InspectionPatch(Some(status), if status == Completed then Some(now) else None, None, None)
  }

  /** `updateInspectionStatus` builds its `updates` object in two steps. */
  method BuildStatusPatch(status: InspectionStatus, now: string) returns (updates: InspectionPatch)
    ensures updates == StatusPatch(status, now)
    ensures updates.completedDate.Some? <==> status == Completed
  {
    updates := InspectionPatch(Some(status), None, None, None);
    if status == Completed {
      updates := updates.(completedDate := Some(now));
    }
  }

  /** A `Partial<InspectionItem>` restricted to the fields the application updates. */
  datatype ItemPatch = ItemPatch(status: Option<ItemStatus>, value: Option<MeasurementValue>, notes: Option<string>)

  function ApplyItemPatch(item: InspectionItem, p: ItemPatch): InspectionItem
  {
    item.(status := if p.status.Some? then p.status.value else item.status,
          value := if p.value.Some? then p.value else item.value,
          notes := if p.notes.Some? then p.notes else item.notes)
  }

  /** `updateItemStatus` changes the status and nothing else. */
  function ItemStatusPatch(status: ItemStatus): (p: ItemPatch)
    ensures forall item :: ApplyItemPatch(item, p) == item.(status := status)
  {
    ItemPatch(Some(status), None, None)
  }

  /** `updateItemMeasurement` stores the value and marks the item satisfactory,
      whatever its status was. */
  function MeasurementPatch(value: MeasurementValue): (p: ItemPatch)
    ensures forall item :: ApplyItemPatch(item, p) == item.(value := Some(value), status := Satisfactory)
  {
    ItemPatch(Some(Satisfactory), Some(value), None)
  }

  // ---------------------------------------------------------------- rows by id

  /** The first inspection with id `id`. */
  function FindInspection(rows: seq<Inspection>, id: string): (r: Option<Inspection>)
    ensures r.None? <==> forall k :: 0 <= k < |rows| ==> rows[k].id != id
    ensures r.Some? ==> r.value in rows && r.value.id == id
  {
    if rows == [] then None
    else if rows[0].id == id then Some(rows[0])
    else FindInspection(rows[1..], id)
  }

  /** `update(patch).eq('id', id)` on `inspections`. */
  function PatchInspections(rows: seq<Inspection>, id: string, p: InspectionPatch): (r: seq<Inspection>)
    ensures |r| == |rows|
    ensures forall k :: 0 <= k < |rows| ==> r[k] == if rows[k].id == id then ApplyInspectionPatch(rows[k], p) else rows[k]
  {
    if rows == [] then []
    else [if rows[0].id == id then ApplyInspectionPatch(rows[0], p) else rows[0]] + PatchInspections(rows[1..], id, p)
  }

  function FindItem(rows: seq<InspectionItem>, id: string): (r: Option<InspectionItem>)
    ensures r.None? <==> forall k :: 0 <= k < |rows| ==> rows[k].id != id
    ensures r.Some? ==> r.value in rows && r.value.id == id
  {
    if rows == [] then None
    else if rows[0].id == id then Some(rows[0])
    else FindItem(rows[1..], id)
  }

  /** `update(patch).eq('id', id)` on `inspection_items`. */
  function PatchItems(rows: seq<InspectionItem>, id: string, p: ItemPatch): (r: seq<InspectionItem>)
    ensures |r| == |rows|
    ensures forall k :: 0 <= k < |rows| ==> r[k] == if rows[k].id == id then ApplyItemPatch(rows[k], p) else rows[k]
  {
    if rows == [] then []
    else [if rows[0].id == id then ApplyItemPatch(rows[0], p) else rows[0]] + PatchItems(rows[1..], id, p)
  }

  /** The patched row the update returns is the patched copy of the row found by id. */
  lemma {:induction false} FindAfterPatch(rows: seq<Inspection>, id: string, p: InspectionPatch)
    ensures FindInspection(PatchInspections(rows, id, p), id) ==
      if FindInspection(rows, id).Some? then Some(ApplyInspectionPatch(FindInspection(rows, id).value, p)) else None
  {
    if rows != [] {
      FindAfterPatch(rows[1..], id, p);
      assert PatchInspections(rows, id, p)[1..] == PatchInspections(rows[1..], id, p);
    }
  }

  // ---------------------------------------------------------------- item rows

  /** The input of `bulkAddInspectionItems`: a flattened template entry. */
  datatype NewItem = NewItem(category: string, name: string, itemType: Option<ItemType>, description: Option<string>)

  /** A row of `itemsToInsert`. */
  datatype ItemInsert = ItemInsert(
    inspectionId: string,
    category: string,
    name: string,
    itemType: ItemType,
    description: Option<string>,
    status: ItemStatus,
    sortOrder: int)

  /** `items.map((item, index) => ...)`: one pending row per input, numbered by position;
      an absent type becomes `status` and an absent or empty description `null`. */
  function BulkRows(inspectionId: string, items: seq<NewItem>): (r: seq<ItemInsert>)
    ensures |r| == |items|
    ensures forall k :: 0 <= k < |items| ==>
      r[k].inspectionId == inspectionId && r[k].sortOrder == k && r[k].status == Pending &&
      r[k].category == items[k].category && r[k].name == items[k].name &&
      r[k].itemType == (if items[k].itemType.Some? then items[k].itemType.value else StatusItem) &&
      r[k].description == (if Truthy(items[k].description) then items[k].description else None)
  {
    seq(|items|, k requires 0 <= k < |items| =>
      ItemInsert(inspectionId, items[k].category, items[k].name,
        if items[k].itemType.Some? then items[k].itemType.value else StatusItem,
        OrNull(items[k].description, None), Pending, k))
  }

  /** The stored item for an inserted row; `id` is the value the backend assigns. */
  function StoredItem(row: ItemInsert, id: string): InspectionItem
  {
    InspectionItem(id, row.inspectionId, row.category, row.name, row.description, row.status,
      row.itemType, None, None, row.sortOrder, [])
  }

  /** The items of one inspection. */
  function ItemsOf(rows: seq<InspectionItem>, inspectionId: string): (r: seq<InspectionItem>)
    ensures forall x :: x in r <==> x in rows && x.inspectionId == inspectionId
  {
    if rows == [] then []
    else
      var rest := ItemsOf(rows[1..], inspectionId);
      assert forall x :: x in rows <==> x == rows[0] || x in rows[1..];
      if rows[0].inspectionId == inspectionId then [rows[0]] + rest else rest
  }

  /** The largest sort order in a non-empty list of items. */
  function MaxSortOrder(rows: seq<InspectionItem>): (m: int)
    requires rows != []
    ensures exists x :: x in rows && x.sortOrder == m
    ensures forall x :: x in rows ==> x.sortOrder <= m
  {
    if |rows| == 1 then rows[0].sortOrder
    else
      var rest := MaxSortOrder(rows[1..]);
      assert forall x :: x in rows <==> x == rows[0] || x in rows[1..];
      if rows[0].sortOrder >= rest then rows[0].sortOrder else rest
  }

  /** The sort order `addInspectionItem` gives a new item: one more than the largest of
      the inspection's items, 0 when it has none or when the lookup failed (its error is
      not checked, so `existing` is then null). */
  function NextSortOrder(rows: seq<InspectionItem>, inspectionId: string, lookupFailed: bool): (n: int)
    ensures lookupFailed || ItemsOf(rows, inspectionId) == [] ==> n == 0
    ensures !lookupFailed ==> forall x :: x in rows && x.inspectionId == inspectionId ==> x.sortOrder < n
    ensures !lookupFailed && ItemsOf(rows, inspectionId) != [] ==>
      exists x :: x in rows && x.inspectionId == inspectionId && x.sortOrder == n - 1
  {
    var existing := ItemsOf(rows, inspectionId);
    if lookupFailed || existing == [] then 0 else MaxSortOrder(existing) + 1
  }

  lemma {:induction false} ItemsOfAppend(rows: seq<InspectionItem>, x: InspectionItem, inspectionId: string)
    ensures ItemsOf(rows + [x], inspectionId) ==
      ItemsOf(rows, inspectionId) + (if x.inspectionId == inspectionId then [x] else [])
  {
    if rows != [] {
      ItemsOfAppend(rows[1..], x, inspectionId);
      assert (rows + [x])[1..] == rows[1..] + [x];
    }
  }

  /** Adding an item continues the numbering: the next item of the same inspection comes
      right after it, and the items of other inspections do not move its numbering. */
  lemma NextSortOrderAfterAdd(rows: seq<InspectionItem>, x: InspectionItem, inspectionId: string)
    requires x.inspectionId == inspectionId ==> x.sortOrder == NextSortOrder(rows, inspectionId, false)
    ensures x.inspectionId == inspectionId ==> NextSortOrder(rows + [x], inspectionId, false) == x.sortOrder + 1
    ensures x.inspectionId != inspectionId ==>
      NextSortOrder(rows + [x], inspectionId, false) == NextSortOrder(rows, inspectionId, false)
  {
    ItemsOfAppend(rows, x, inspectionId);
    var before := ItemsOf(rows, inspectionId);
    var after := ItemsOf(rows + [x], inspectionId);
    if x.inspectionId == inspectionId {
      assert x in after;
      var m := MaxSortOrder(after);
      if before != [] {
        var y :| y in rows && y.inspectionId == inspectionId && y.sortOrder == x.sortOrder - 1;
        assert y in after;
      }
      assert m == x.sortOrder;
    }
  }

  /** Items of the inspection numbered 0, 1, ... in order. */
  predicate NumberedInOrder(added: seq<InspectionItem>, inspectionId: string)
  {
    forall k :: 0 <= k < |added| ==> added[k].inspectionId == inspectionId && added[k].sortOrder == k
  }

  /** After a bulk insert into an inspection without items, which numbers its rows
      0, 1, ..., an added item is numbered right after the inserted ones. */
  lemma {:induction false} NextSortOrderAfterBulk(rows: seq<InspectionItem>, inspectionId: string,
                                                  added: seq<InspectionItem>)
    requires ItemsOf(rows, inspectionId) == []
    requires NumberedInOrder(added, inspectionId)
    ensures NextSortOrder(rows + added, inspectionId, false) == |added|
  {
    if added == [] {
      assert rows + added == rows;
    } else {
      var n := |added|;
      var init := added[..n - 1];
      assert NumberedInOrder(init, inspectionId) by {
        assert forall k :: 0 <= k < |init| ==> init[k] == added[k];
      }
      NextSortOrderAfterBulk(rows, inspectionId, init);
      assert added == init + [added[n - 1]];
      NextSortOrderStep(rows, inspectionId, init, added[n - 1]);
    }
  }

  lemma NextSortOrderStep(rows: seq<InspectionItem>, inspectionId: string, init: seq<InspectionItem>, x: InspectionItem)
    requires NextSortOrder(rows + init, inspectionId, false) == |init|
    requires x.inspectionId == inspectionId && x.sortOrder == |init|
    ensures NextSortOrder(rows + (init + [x]), inspectionId, false) == |init| + 1
  {
    assert rows + (init + [x]) == (rows + init) + [x];
    NextSortOrderAfterAdd(rows + init, x, inspectionId);
  }

  /** The rows a bulk insert stores are numbered 0, 1, ... within the inspection. */
  lemma BulkRowsNumbered(inspectionId: string, newItems: seq<NewItem>, assignId: nat -> string)
    ensures var bulk := BulkRows(inspectionId, newItems);
      forall k :: 0 <= k < |bulk| ==>
        StoredItem(bulk[k], assignId(k)).inspectionId == inspectionId && StoredItem(bulk[k], assignId(k)).sortOrder == k
  {
  }

  // ---------------------------------------------------------------- listing

  /** The options of `getCompanyInspections`. */
  datatype ListOptions = ListOptions(
    status: Option<InspectionStatus>,
    inspectorId: Option<string>,
    limit: Option<int>,
    offset: Option<int>)

  /** The query `getCompanyInspections` sends; `range` is the inclusive row window. */
  datatype ListQuery = ListQuery(
    companyId: string,
    status: Option<InspectionStatus>,
    inspectorId: Option<string>,
    limit: Option<int>,
    range: Option<(int, int)>)

  /** Each filter is added only when its option is truthy; a truthy offset adds the
      window starting at the offset that spans `limit || 20` rows. */
  function ListInspectionsQuery(companyId: string, options: ListOptions): (q: ListQuery)
    ensures q.companyId == companyId
    ensures q.status == options.status
    ensures q.inspectorId == (if Truthy(options.inspectorId) then options.inspectorId else None)
    ensures q.limit == (if TruthyNumber(options.limit) then options.limit else None)
    ensures q.range.Some? <==> TruthyNumber(options.offset)
    ensures q.range.Some? ==> q.range.value.0 == options.offset.value
    ensures q.range.Some? ==>
      q.range.value.1 - q.range.value.0 + 1 == (if TruthyNumber(options.limit) then options.limit.value else 20)
  {
    ListQuery(companyId, options.status,
      if Truthy(options.inspectorId) then options.inspectorId else None,
      if TruthyNumber(options.limit) then options.limit else None,
      if TruthyNumber(options.offset) then
        var lim := if TruthyNumber(options.limit) then options.limit.value else 20;
        Some((options.offset.value, options.offset.value + lim - 1))
      else None)
  }

  /** `eq('hcp_job_id', hcpJobId)`: the rows imported from that Housecall Pro job, in
      table order. Nothing makes the column unique, so there can be several. */
  function HcpJobMatches(rows: seq<Inspection>, hcpJobId: string): (r: seq<Inspection>)
    ensures |r| <= |rows|
    ensures forall x :: x in r ==> x in rows && x.hcpJobId == Some(hcpJobId)
  {
    if rows == [] then []
    else if rows[0].hcpJobId == Some(hcpJobId) then [rows[0]] + HcpJobMatches(rows[1..], hcpJobId)
    else HcpJobMatches(rows[1..], hcpJobId)
  }

  /** There is no match exactly when no row has the job id. */
  lemma {:induction false} NoHcpJobMatches(rows: seq<Inspection>, hcpJobId: string)
    ensures HcpJobMatches(rows, hcpJobId) == [] <==> forall k :: 0 <= k < |rows| ==> rows[k].hcpJobId != Some(hcpJobId)
  {
    if rows != [] {
      NoHcpJobMatches(rows[1..], hcpJobId);
      assert forall k :: 1 <= k < |rows| ==> rows[k] == rows[1..][k - 1];
    }
  }

  /** When the row at `k` is the only one with the job id, it is the one match. */
  lemma {:induction false} OnlyHcpJobMatch(rows: seq<Inspection>, hcpJobId: string, k: int)
    requires 0 <= k < |rows| && rows[k].hcpJobId == Some(hcpJobId)
    requires forall j :: 0 <= j < |rows| && j != k ==> rows[j].hcpJobId != Some(hcpJobId)
    ensures HcpJobMatches(rows, hcpJobId) == [rows[k]]
  {
    assert forall j :: 1 <= j < |rows| ==> rows[j] == rows[1..][j - 1];
    if k == 0 {
      NoHcpJobMatches(rows[1..], hcpJobId);
    } else {
      OnlyHcpJobMatch(rows[1..], hcpJobId, k - 1);
    }
  }

  /** Two rows with the job id give at least two matches. */
  lemma {:induction false} SeveralHcpJobMatches(rows: seq<Inspection>, hcpJobId: string, i: int, j: int)
    requires 0 <= i < j < |rows|
    requires rows[i].hcpJobId == Some(hcpJobId) && rows[j].hcpJobId == Some(hcpJobId)
    ensures |HcpJobMatches(rows, hcpJobId)| >= 2
  {
    assert rows[j] == rows[1..][j - 1];
    if i == 0 {
      NoHcpJobMatches(rows[1..], hcpJobId);
    } else {
      assert rows[i] == rows[1..][i - 1];
      SeveralHcpJobMatches(rows[1..], hcpJobId, i - 1, j - 1);
    }
  }

  /** The message `maybeSingle` reports, with code PGRST116, when more than one row
      matches. */
  const MULTIPLE_ROWS: string := "JSON object requested, multiple (or no) rows returned"

  // ---------------------------------------------------------------- the tables

  /** The tables `inspections` and `inspection_items`, as far as the service changes them. */
  class InspectionStore {
    var inspections: seq<Inspection>
    var items: seq<InspectionItem>

    constructor ()
      ensures inspections == [] && items == []
    {
      inspections := [];
      items := [];
    }

    /** `createInspection`: the stored row is always a draft of the given company and inspector. */
    method CreateInspection(companyId: string, inspectorId: string, data: NewInspection,
                            id: string, createdAt: string, insertError: Option<string>)
      returns (r: ApiResponse<Inspection>)
      modifies this
      ensures items == old(items)
      ensures insertError.Some? ==> r == Err(insertError.value) && inspections == old(inspections)
      ensures insertError.None? ==>
        r == Ok(NewInspectionRow(companyId, inspectorId, data, id, createdAt)) &&
        inspections == old(inspections) + [r.data.value] && r.data.value.status == Draft
    {
      if insertError.Some? {
        return Err(insertError.value);
      }
      var row := NewInspectionRow(companyId, inspectorId, data, id, createdAt);
      inspections := inspections + [row];
      return Ok(row);
    }

    /** `getInspectionByHcpJobId`: `maybeSingle` gives null data for no matching row, the
        row for exactly one, and its multiple-rows error for more than one. */
    method GetInspectionByHcpJobId(hcpJobId: string, queryError: Option<string>)
      returns (r: ApiResponse<Inspection>)
      ensures queryError.Some? ==> r == Err(queryError.value)
      ensures queryError.None? && (forall k :: 0 <= k < |inspections| ==> inspections[k].hcpJobId != Some(hcpJobId)) ==>
        r == ApiResponse(None, None)
      ensures forall k ::
        (queryError.None? && 0 <= k < |inspections| && inspections[k].hcpJobId == Some(hcpJobId) &&
         forall j :: 0 <= j < |inspections| && j != k ==> inspections[j].hcpJobId != Some(hcpJobId)) ==>
        r == Ok(inspections[k])
      ensures (queryError.None? &&
               exists i, j :: 0 <= i < j < |inspections| &&
                 inspections[i].hcpJobId == Some(hcpJobId) && inspections[j].hcpJobId == Some(hcpJobId)) ==>
        r == Err(MULTIPLE_ROWS)
    {
      if queryError.Some? {
        return Err(queryError.value);
      }
      var matches := HcpJobMatches(inspections, hcpJobId);
      NoHcpJobMatches(inspections, hcpJobId);
      forall k | 0 <= k < |inspections| && inspections[k].hcpJobId == Some(hcpJobId) &&
          (forall j :: 0 <= j < |inspections| && j != k ==> inspections[j].hcpJobId != Some(hcpJobId))
        ensures matches == [inspections[k]]
      {
        OnlyHcpJobMatch(inspections, hcpJobId, k);
      }
      forall i, j | 0 <= i < j < |inspections| && inspections[i].hcpJobId == Some(hcpJobId) && inspections[j].hcpJobId == Some(hcpJobId)
        ensures |matches| >= 2
      {
        SeveralHcpJobMatches(inspections, hcpJobId, i, j);
      }
      if |matches| == 0 {
        return ApiResponse(None, None);
      } else if |matches| == 1 {
        return Ok(matches[0]);
      }
      return Err(MULTIPLE_ROWS);
    }

    /** `updateInspection`: an update that matches no row is reported as not found. */
    method UpdateInspection(id: string, updates: InspectionPatch, updateError: Option<string>)
      returns (r: ApiResponse<Inspection>)
      modifies this
      ensures items == old(items)
      ensures r == if updateError.Some? then Err(updateError.value)
                  else if FindInspection(old(inspections), id).None? then Err(INSPECTION_NOT_FOUND)
                  else Ok(ApplyInspectionPatch(FindInspection(old(inspections), id).value, updates))
      ensures inspections == if updateError.Some? then old(inspections) else PatchInspections(old(inspections), id, updates)
    {
      if updateError.Some? {
        return Err(updateError.value);
      }
      var updated := PatchInspections(inspections, id, updates);
      FindAfterPatch(inspections, id, updates);
      var found := FindInspection(updated, id);
      inspections := updated;
      if found.None? {
        return Err(INSPECTION_NOT_FOUND);
      }
      return Ok(found.value);
    }

    /** `updateInspectionStatus`: the completion time is written only for `completed`. */
    method UpdateInspectionStatus(id: string, status: InspectionStatus, now: string, updateError: Option<string>)
      returns (r: ApiResponse<Inspection>)
      modifies this
      ensures items == old(items)
      ensures inspections == if updateError.Some? then old(inspections)
                             else PatchInspections(old(inspections), id, StatusPatch(status, now))
      ensures r == if updateError.Some? then Err(updateError.value)
                  else if FindInspection(old(inspections), id).None? then Err(INSPECTION_NOT_FOUND)
                  else Ok(ApplyInspectionPatch(FindInspection(old(inspections), id).value, StatusPatch(status, now)))
      ensures r.data.Some? <==> updateError.None? && FindInspection(old(inspections), id).Some?
      ensures r.data.Some? ==> r.data.value.status == status
      ensures r.data.Some? && status == Completed ==> r.data.value.completedDate == Some(now)
      ensures r.data.Some? && status != Completed ==>
        r.data.value.completedDate == FindInspection(old(inspections), id).value.completedDate
    {
      var updates := BuildStatusPatch(status, now);
      r := UpdateInspection(id, updates, updateError);
    }

    /** `addInspectionItem`: appended after the inspection's last item, pending unless a
        status is given. */
    method AddInspectionItem(inspectionId: string, category: string, name: string, status: Option<ItemStatus>,
                             notes: Option<string>, lookupFailed: bool, id: string, insertError: Option<string>)
      returns (r: ApiResponse<InspectionItem>)
      modifies this
      ensures inspections == old(inspections)
      ensures insertError.Some? ==> r == Err(insertError.value) && items == old(items)
      ensures insertError.None? ==> r.data.Some? && r.error.None? && items == old(items) + [r.data.value]
      ensures insertError.None? ==>
        var x := r.data.value;
        x.id == id && x.inspectionId == inspectionId && x.category == category && x.name == name &&
        x.notes == notes && x.status == (if status.Some? then status.value else Pending) &&
        x.sortOrder == NextSortOrder(old(items), inspectionId, lookupFailed)
      ensures insertError.None? ==>
        var x := r.data.value;
        x.description.None? && x.itemType == StatusItem && x.value.None? && x.photos == []
    {
      var sortOrder := NextSortOrder(items, inspectionId, lookupFailed);
      if insertError.Some? {
        return Err(insertError.value);
      }
      var row := InspectionItem(id, inspectionId, category, name, None,
        if status.Some? then status.value else Pending, StatusItem, None, notes, sortOrder, []);
      items := items + [row];
      return Ok(row);
    }

    /** `bulkAddInspectionItems`: one row per input, in input order. */
    method BulkAddInspectionItems(inspectionId: string, newItems: seq<NewItem>, assignId: nat -> string,
                                  insertError: Option<string>)
      returns (r: ApiResponse<seq<InspectionItem>>)
      modifies this
      ensures inspections == old(inspections)
      ensures insertError.Some? ==> r == Err(insertError.value) && items == old(items)
      ensures insertError.None? ==> r.data.Some? && r.error.None? && items == old(items) + r.data.value
      ensures insertError.None? ==> |r.data.value| == |newItems|
      ensures insertError.None? ==>
        forall k :: 0 <= k < |newItems| ==> r.data.value[k] == StoredItem(BulkRows(inspectionId, newItems)[k], assignId(k))
    {
      var rows := BulkRows(inspectionId, newItems);
      if insertError.Some? {
        return Err(insertError.value);
      }
      var stored := seq(|rows|, k requires 0 <= k < |rows| => StoredItem(rows[k], assignId(k)));
      items := items + stored;
      return Ok(stored);
    }

    /** `updateInspectionItem`: an update that matches no row is reported as not found. */
    method UpdateInspectionItem(id: string, updates: ItemPatch, updateError: Option<string>)
      returns (r: ApiResponse<InspectionItem>)
      modifies this
      ensures inspections == old(inspections)
      ensures r == if updateError.Some? then Err(updateError.value)
                  else if FindItem(old(items), id).None? then Err(ITEM_NOT_FOUND)
                  else Ok(ApplyItemPatch(FindItem(old(items), id).value, updates))
      ensures items == if updateError.Some? then old(items) else PatchItems(old(items), id, updates)
    {
      if updateError.Some? {
        return Err(updateError.value);
      }
      var found := FindItem(items, id);
      items := PatchItems(items, id, updates);
      if found.None? {
        return Err(ITEM_NOT_FOUND);
      }
      return Ok(ApplyItemPatch(found.value, updates));
    }

    /** `updateItemStatus`. */
    method UpdateItemStatus(id: string, status: ItemStatus, updateError: Option<string>)
      returns (r: ApiResponse<InspectionItem>)
      modifies this
      ensures inspections == old(inspections)
      ensures items == if updateError.Some? then old(items) else PatchItems(old(items), id, ItemStatusPatch(status))
      ensures r == if updateError.Some? then Err(updateError.value)
                  else if FindItem(old(items), id).None? then Err(ITEM_NOT_FOUND)
                  else Ok(FindItem(old(items), id).value.(status := status))
      ensures r.data.Some? ==> r.data.value == FindItem(old(items), id).value.(status := status)
    {
      r := UpdateInspectionItem(id, ItemStatusPatch(status), updateError);
    }

    /** `updateItemMeasurement`: the stored item is satisfactory afterwards. */
    method UpdateItemMeasurement(id: string, value: MeasurementValue, updateError: Option<string>)
      returns (r: ApiResponse<InspectionItem>)
      modifies this
      ensures inspections == old(inspections)
      ensures items == if updateError.Some? then old(items) else PatchItems(old(items), id, MeasurementPatch(value))
      ensures updateError.None? ==> forall k :: 0 <= k < |items| && items[k].id == id ==>
        items[k].status == Satisfactory && items[k].value == Some(value)
      ensures r == if updateError.Some? then Err(updateError.value)
                  else if FindItem(old(items), id).None? then Err(ITEM_NOT_FOUND)
                  else Ok(FindItem(old(items), id).value.(value := Some(value), status := Satisfactory))
      ensures r.data.Some? ==> r.data.value == FindItem(old(items), id).value.(value := Some(value), status := Satisfactory)
    {
      r := UpdateInspectionItem(id, MeasurementPatch(value), updateError);
    }
  }
}
