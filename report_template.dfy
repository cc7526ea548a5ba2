/** The inspection report: the status badges, the measurement text, and the structure
    of the generated page (which blocks appear, in which order, with which text). The
    style sheet and inline styles are not part of the model. */
module ReportTemplate {
  import opened Wrappers
  import opened Types
  import opened Text

  // ---------------------------------------------------------------- status badges

  datatype StatusConfig = StatusConfig(text: string, color: string, bgColor: string)

  const SATISFACTORY_CONFIG: StatusConfig := StatusConfig("Satisfactory", "#15803d", "#dcfce7")
  const RECOMMENDED_CONFIG: StatusConfig := StatusConfig("Recommended", "#ca8a04", "#fef9c3")
  const UNSAFE_CONFIG: StatusConfig := StatusConfig("Unsafe", "#dc2626", "#fee2e2")
  const NA_CONFIG: StatusConfig := StatusConfig("N/A", "#2563eb", "#dbeafe")
  const PENDING_CONFIG: StatusConfig := StatusConfig("Pending", "#6b7280", "#f3f4f6")

  /** The badge of a config that is an inherited built-in: it has no `label`, `color` or
      `bgColor`, and the template literal prints each `undefined` as that word. */
  const INHERITED_CONFIG: StatusConfig := StatusConfig("undefined", "undefined", "undefined")

  /** `STATUS_CONFIG[status] || STATUS_CONFIG.pending`, as the badge prints it: a key of
      the record gives its badge, an inherited key its built-in, and anything else
      falls back to `pending`. */
  function StatusConfigFor(status: string): (c: StatusConfig)
    ensures status !in {"satisfactory", "recommended", "unsafe", "na", "pending"} && !InheritedKey(status) ==>
      c == PENDING_CONFIG
    ensures InheritedKey(status) ==> c == INHERITED_CONFIG
  {
    if status == "satisfactory" then SATISFACTORY_CONFIG
    else if status == "recommended" then RECOMMENDED_CONFIG
    else if status == "unsafe" then UNSAFE_CONFIG
    else if status == "na" then NA_CONFIG
    else if status == "pending" then PENDING_CONFIG
    else if InheritedKey(status) then INHERITED_CONFIG
    else PENDING_CONFIG
  }

  /** Each of the five item statuses gets its own badge: no two share a label or a
      colour, and a status's badge is never the fallback unless it is `pending`. */
  lemma StatusBadgesDistinct(s: ItemStatus, t: ItemStatus)
    ensures s != t ==> StatusConfigFor(ItemStatusName(s)).text != StatusConfigFor(ItemStatusName(t)).text
    ensures s != t ==> StatusConfigFor(ItemStatusName(s)).color != StatusConfigFor(ItemStatusName(t)).color
    ensures StatusConfigFor(ItemStatusName(s)) == PENDING_CONFIG <==> s == Pending
  {
  }

  // ---------------------------------------------------------------- measurements

  /** What `formatMeasurement` shows: `-` for no value or a zero length, otherwise the
      non-zero parts `F'` and `I"` separated by one space. */
  function MeasurementText(value: Option<MeasurementValue>): string
  {
    if value.None? || (value.value.feet == 0 && value.value.inches == 0) then "-"
    else if value.value.inches == 0 then IntToString(value.value.feet) + "'"
    else if value.value.feet == 0 then IntToString(value.value.inches) + "\""
    else IntToString(value.value.feet) + "'" + " " + IntToString(value.value.inches) + "\""
  }

  /** `formatMeasurement`: pushes the non-zero parts, then joins them. */
  method FormatMeasurement(value: Option<MeasurementValue>) returns (s: string)
    ensures s == MeasurementText(value)
  {
    if value.None? {
      return "-";
    }
    var parts: seq<string> := [];
    if value.value.feet != 0 {
      parts := parts + [IntToString(value.value.feet) + "'"];
    }
    if value.value.inches != 0 {
      parts := parts + [IntToString(value.value.inches) + "\""];
    }
    if |parts| > 0 {
      s := Join(parts, " ");
      assert |parts| == 2 ==> s == parts[0] + " " + Join(parts[1..], " ");
    } else {
      s := "-";
    }
  }

  lemma IntToStringHasNoMarks(i: int)
    ensures '\'' !in IntToString(i) && '"' !in IntToString(i) && ' ' !in IntToString(i)
  {
    var d := NatToString(if i < 0 then 0 - i else i);
    assert forall k :: 0 <= k < |d| ==> IsDigit(d[k]);
  }

  /** The text shows a feet mark exactly when there are feet and an inch mark exactly
      when there are inches, and it is `-` exactly when there is nothing to show. */
  lemma MeasurementTextMarks(value: Option<MeasurementValue>)
    ensures var s := MeasurementText(value);
      ('\'' in s <==> value.Some? && value.value.feet != 0) &&
      ('"' in s <==> value.Some? && value.value.inches != 0) &&
      (s == "-" <==> value.None? || (value.value.feet == 0 && value.value.inches == 0))
  {
    if value.Some? {
      IntToStringHasNoMarks(value.value.feet);
      IntToStringHasNoMarks(value.value.inches);
      if value.value.inches != 0 && value.value.feet == 0 {
        assert (IntToString(value.value.inches) + "\"")[|IntToString(value.value.inches)|] == '"';
      }
      if value.value.inches == 0 && value.value.feet != 0 {
        assert (IntToString(value.value.feet) + "'")[|IntToString(value.value.feet)|] == '\'';
      }
    }
  }

  /** The text reads back: `parseInt` of it gives the feet, or the inches when there are
      no feet. */
  lemma MeasurementTextReadsBack(value: MeasurementValue)
    ensures value.feet != 0 ==> ParseInt(MeasurementText(Some(value))) == Some(value.feet)
    ensures value.feet == 0 && value.inches != 0 ==> ParseInt(MeasurementText(Some(value))) == Some(value.inches)
  {
    var s := MeasurementText(Some(value));
    if value.feet != 0 {
      var rest := s[|IntToString(value.feet)|..];
      assert s == IntToString(value.feet) + rest;
      ParseIntOfIntToStringThen(value.feet, rest);
    } else if value.inches != 0 {
      ParseIntOfIntToStringThen(value.inches, "\"");
    }
  }

  // ---------------------------------------------------------------- the report

  /** The items of one category, in the order the caller grouped them. */
  datatype CategoryGroup = CategoryGroup(category: string, items: seq<InspectionItem>)

  datatype Image = Image(src: string, alt: string)

  /** The right-hand side of an item row: the measurement text or the status badge. */
  datatype RowDetail = MeasurementDetail(text: string) | StatusBadge(config: StatusConfig)

  /** One item row; `description` is shown only when present and non-empty. */
  datatype ItemRow = ItemRow(
    name: string,
    description: Option<string>,
    detail: RowDetail,
    bordered: bool,
    photos: Option<seq<Image>>)

  /** One category section: the heading and the item rows. */
  datatype Section = Section(heading: string, rows: seq<ItemRow>)

  /** The blocks of the generated page, top to bottom. Dates are already formatted. */
  datatype Report = Report(
    logo: Option<Image>,
    title: string,
    projectName: string,
    reportNumber: string,
    headerDate: string,
    address: string,
    client: string,
    inspectionDate: string,
    inspector: string,
    sections: seq<Section>,
    notes: Option<string>,
    nextInspectionDate: string,
    generatedOn: string,
    companyLine: Option<string>)

  /** `formatDate`: a missing or empty date is `N/A`; the locale formatting itself is
      the parameter `format`. */
  function FormatDate(date: Option<string>, format: string -> string): (r: string)
    ensures !Truthy(date) ==> r == "N/A"
    ensures Truthy(date) ==> r == format(date.value)
  {
    if Truthy(date) then format(date.value) else "N/A"
  }

  /** The photo strip of an item: absent without photos, else one image per photo in
      stored order, captioned by the photo's caption or else the item's name. */
  function PhotoStrip(item: InspectionItem): (r: Option<seq<Image>>)
    ensures r.None? <==> item.photos == []
    ensures r.Some? ==> |r.value| == |item.photos|
    ensures r.Some? ==> forall k :: 0 <= k < |item.photos| ==>
      r.value[k] == Image(item.photos[k].photoUrl, OrElse(item.photos[k].caption, item.name))
  {
    if item.photos == [] then None
    else Some(seq(|item.photos|, k requires 0 <= k < |item.photos| =>
      Image(item.photos[k].photoUrl, OrElse(item.photos[k].caption, item.name))))
  }

  /** The row of one item: a measurement row exactly for measurement items, otherwise a
      status badge; every row but the last of its section has a bottom border. */
  function RenderItem(item: InspectionItem, isLast: bool): (r: ItemRow)
    ensures r.name == item.name
    ensures r.bordered <==> !isLast
    ensures r.detail.MeasurementDetail? <==> item.itemType == MeasurementItem
    ensures r.detail.MeasurementDetail? ==> r.detail.text == MeasurementText(item.value)
    ensures r.detail.StatusBadge? ==> r.detail.config == StatusConfigFor(ItemStatusName(item.status))
    ensures r.description == if Truthy(item.description) then item.description else None
    ensures r.photos == PhotoStrip(item)
  {
    ItemRow(item.name, if Truthy(item.description) then item.description else None,
      if item.itemType == MeasurementItem then MeasurementDetail(MeasurementText(item.value))
      else StatusBadge(StatusConfigFor(ItemStatusName(item.status))),
      !isLast, PhotoStrip(item))
  }

  /** One section per group: each item renders once, in order. */
  function RenderSection(group: CategoryGroup): (r: Section)
    ensures r.heading == group.category
    ensures |r.rows| == |group.items|
    ensures forall k :: 0 <= k < |group.items| ==> r.rows[k] == RenderItem(group.items[k], k == |group.items| - 1)
  {
    Section(group.category, seq(|group.items|, k requires 0 <= k < |group.items| =>
      RenderItem(group.items[k], k == |group.items| - 1)))
  }

  /** The footer's company line `name | phone | email`, leaving out what is empty. */
  function CompanyLine(company: Company): (r: string)
    ensures company.name <= r
    ensures !Truthy(company.phone) && !Truthy(company.email) ==> r == company.name
  {
    company.name
    + (if Truthy(company.phone) then " | " + company.phone.value else "")
    + (if Truthy(company.email) then " | " + company.email.value else "")
  }

  /** `generateReportHtml`; the current time enters as the formatted `generatedOn` and
      the date one year ahead as `nextYear`. */
  function GenerateReport(inspection: Inspection, categories: seq<CategoryGroup>, company: Option<Company>,
                          format: string -> string, generatedOn: string, nextYear: string): (r: Report)
    ensures r.logo.Some? <==> company.Some? && Truthy(company.value.logoUrl)
    ensures r.logo.Some? ==> r.logo.value == Image(company.value.logoUrl.value, company.value.name)
    ensures r.title == if company.Some? && company.value.name != "" then company.value.name else "Inspection Report"
    ensures r.reportNumber == ToUpperAscii(Prefix(inspection.id, 8))
    ensures r.headerDate == FormatDate(Some(OrElse(inspection.scheduledDate, inspection.createdAt)), format)
    ensures r.address == OrElse(inspection.projectAddress, "N/A")
    ensures r.client == OrElse(inspection.clientName, "N/A")
    ensures r.inspectionDate == FormatDate(inspection.scheduledDate, format)
    ensures r.inspector == OrElse(if inspection.inspector.Some? then inspection.inspector.value.fullName else None,
                                  OrElse(inspection.hcpAssignedEmployee, "N/A"))
    ensures |r.sections| == |categories|
    ensures forall k :: 0 <= k < |categories| ==> r.sections[k] == RenderSection(categories[k])
    ensures r.notes.Some? <==> Truthy(inspection.notes)
    ensures r.notes.Some? ==> r.notes == inspection.notes
    ensures r.nextInspectionDate == FormatDate(Some(nextYear), format)
    ensures r.companyLine == if company.Some? then Some(CompanyLine(company.value)) else None
  {
    Report(
      if company.Some? && Truthy(company.value.logoUrl) then Some(Image(company.value.logoUrl.value, company.value.name)) else None,
      OrElse(if company.Some? then Some(company.value.name) else None, "Inspection Report"),
      inspection.projectName,
      ToUpperAscii(Prefix(inspection.id, 8)),
      FormatDate(Some(OrElse(inspection.scheduledDate, inspection.createdAt)), format),
      OrElse(inspection.projectAddress, "N/A"),
      OrElse(inspection.clientName, "N/A"),
      FormatDate(inspection.scheduledDate, format),
      OrElse(if inspection.inspector.Some? then inspection.inspector.value.fullName else None,
             OrElse(inspection.hcpAssignedEmployee, "N/A")),
      seq(|categories|, k requires 0 <= k < |categories| => RenderSection(categories[k])),
      if Truthy(inspection.notes) then inspection.notes else None,
      FormatDate(Some(nextYear), format),
      generatedOn,
      if company.Some? then Some(CompanyLine(company.value)) else None)
  }

  /** The report number is the upper-cased first eight characters of the id (all of it
      when shorter); for the lower-case hexadecimal of an id it is upper-case hexadecimal. */
  lemma ReportNumberShape(id: string)
    ensures |ToUpperAscii(Prefix(id, 8))| == if |id| < 8 then |id| else 8
    ensures forall k :: 0 <= k < |ToUpperAscii(Prefix(id, 8))| ==> ToUpperAscii(Prefix(id, 8))[k] == UpperChar(id[k])
    ensures (forall k :: 0 <= k < |id| ==> ('0' <= id[k] <= '9' || 'a' <= id[k] <= 'f' || id[k] == '-')) ==>
      forall k :: 0 <= k < |ToUpperAscii(Prefix(id, 8))| ==>
        var c := ToUpperAscii(Prefix(id, 8))[k]; '0' <= c <= '9' || 'A' <= c <= 'F' || c == '-'
  {
  }

  /** Every item of every group appears exactly once, at its own position in its own
      section, and nothing else does. */
  lemma EveryItemRendered(inspection: Inspection, categories: seq<CategoryGroup>, company: Option<Company>,
                          format: string -> string, generatedOn: string, nextYear: string, i: nat, k: nat)
    requires i < |categories| && k < |categories[i].items|
    ensures var r := GenerateReport(inspection, categories, company, format, generatedOn, nextYear);
      |r.sections[i].rows| == |categories[i].items| &&
      r.sections[i].heading == categories[i].category &&
      r.sections[i].rows[k].name == categories[i].items[k].name &&
      (r.sections[i].rows[k].bordered <==> k + 1 < |categories[i].items|)
  {
  }
}
