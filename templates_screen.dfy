/** The checklist-templates settings screen: the enabled set and the default it keeps
    for the company, the toggle and set-default handlers, and the industry icon and
    colour of a template card. Service calls are given by their error. */
module TemplatesScreen {
  import opened Wrappers
  import opened Text
  import opened ChecklistTemplateService

  const PRIMARY_COLOR: string := "#1E3A5F"
  const DEFAULT_ICON: string := "home-outline"

  /** `getIndustryIcon`. */
  function IndustryIcon(industry: Option<string>): string
  {
    if industry == Some("chimney") then "flame-outline"
    else if industry == Some("hvac") then "thermometer-outline"
    else if industry == Some("plumbing") then "water-outline"
    else if industry == Some("electrical") then "flash-outline"
    else DEFAULT_ICON
  }

  /** `getIndustryColor`. */
  function IndustryColor(industry: Option<string>): string
  {
    if industry == Some("chimney") then "#ef4444"
    else if industry == Some("hvac") then "#3b82f6"
    else if industry == Some("plumbing") then "#06b6d4"
    else if industry == Some("electrical") then "#f59e0b"
    else PRIMARY_COLOR
  }

  predicate KnownIndustry(industry: Option<string>)
  {
    industry in {Some("chimney"), Some("hvac"), Some("plumbing"), Some("electrical")}
  }

  /** The four known industries get four different icons and colours, none of them the
      default; any other industry, or none, gets the default icon and the brand colour. */
  lemma IndustryStyles(a: Option<string>, b: Option<string>)
    ensures !KnownIndustry(a) ==> IndustryIcon(a) == DEFAULT_ICON && IndustryColor(a) == PRIMARY_COLOR
    ensures KnownIndustry(a) ==> IndustryIcon(a) != DEFAULT_ICON && IndustryColor(a) != PRIMARY_COLOR
    ensures KnownIndustry(a) && KnownIndustry(b) ==>
      (IndustryIcon(a) == IndustryIcon(b) <==> a == b) && (IndustryColor(a) == IndustryColor(b) <==> a == b)
  {
  }

  /** The counts a template card shows: `<n> categories, <m> items`. */
  datatype CardSummary = CardSummary(categories: nat, items: nat)

  /** The card's item count is the length of the template's flattened item list. */
  function Summary(template: ChecklistTemplate): (s: CardSummary)
    ensures s.categories == |template.categories|
    ensures s.items == |Flatten(template.categories)|
  {
    FlattenLength(template.categories);
    CardSummary(|template.categories|, TotalItems(template.categories))
  }

  // ---------------------------------------------------------------- loading

  /** The template ids of the company's rows. */
  function EnabledIds(rows: seq<TemplateRow>): set<string>
  {
    set r | r in rows :: r.templateId
  }

  /** `companyTemplates.find(ct => ct.is_default)?.template_id || null`. */
  function FirstDefaultId(rows: seq<TemplateRow>): (d: Option<string>)
    ensures d.Some? ==> d.value != "" && d.value in EnabledIds(rows)
    ensures d.Some? ==> exists k :: 0 <= k < |rows| && rows[k].isDefault && rows[k].templateId == d.value &&
                                   (forall j :: 0 <= j < k ==> !rows[j].isDefault)
    ensures (forall k :: 0 <= k < |rows| ==> !rows[k].isDefault) ==> d.None?
  {
    if rows == [] then None
    else if rows[0].isDefault then (if rows[0].templateId != "" then Some(rows[0].templateId) else None)
    else
      var rest := FirstDefaultId(rows[1..]);
      assert forall k :: 1 <= k < |rows| ==> rows[k] == rows[1..][k - 1];
      assert rest.Some? ==> rows[1..][0] in rows;
      rest
  }

  /** A first default row with a non-empty id gives that id. */
  lemma {:induction false} FirstDefaultFound(rows: seq<TemplateRow>, k: nat)
    requires k < |rows| && rows[k].isDefault && rows[k].templateId != ""
    requires forall j :: 0 <= j < k ==> !rows[j].isDefault
    ensures FirstDefaultId(rows) == Some(rows[k].templateId)
  {
    if k > 0 {
      FirstDefaultFound(rows[1..], k - 1);
    }
  }

  // ---------------------------------------------------------------- the screen

  /** The service call a handler made. */
  datatype ServiceCall = NoCall | Disable(templateId: string) | Enable(templateId: string, isDefault: bool) | SetDefault(templateId: string)

  class TemplatesScreenState {
    var isLoading: bool
    var systemTemplates: seq<ChecklistTemplate>
    var enabledIds: set<string>
    var defaultId: Option<string>
    var isUpdating: Option<string>

    /** The default is none or one of the enabled templates. */
    ghost predicate DefaultIsEnabled()
      reads this
    {
      defaultId.None? || defaultId.value in enabledIds
    }

    /** 'Set as Default' is shown for an enabled template that is not the default. */
    predicate ShowsSetDefault(templateId: string)
      reads this
    {
      templateId in enabledIds && defaultId != Some(templateId)
    }

    /** The banner asking to enable at least one template. */
    predicate ShowsNoTemplatesWarning()
      reads this
    {
      |enabledIds| == 0
    }

    constructor ()
      ensures isLoading && systemTemplates == [] && enabledIds == {} && defaultId.None? && isUpdating.None?
      ensures DefaultIsEnabled()
    {
      isLoading := true;
      systemTemplates := [];
      enabledIds := {};
      defaultId := None;
      isUpdating := None;
    }

    /** `loadData`: the system templates and the company's rows, each kept as before when
        its query returned no data. */
    method LoadData(hasCompany: bool, templates: Option<seq<ChecklistTemplate>>, companyRows: Option<seq<TemplateRow>>)
      modifies this
      ensures !hasCompany ==> unchanged(this)
      ensures hasCompany ==>
        systemTemplates == (if templates.Some? then templates.value else old(systemTemplates)) &&
        enabledIds == (if companyRows.Some? then EnabledIds(companyRows.value) else old(enabledIds)) &&
        defaultId == (if companyRows.Some? then FirstDefaultId(companyRows.value) else old(defaultId)) &&
        !isLoading && isUpdating == old(isUpdating)
      ensures hasCompany && companyRows.Some? ==> DefaultIsEnabled()
      ensures old(DefaultIsEnabled()) ==> DefaultIsEnabled()
    {
      if !hasCompany {
        return;
      }
      isLoading := true;
      if templates.Some? {
        systemTemplates := templates.value;
      }
      if companyRows.Some? {
        enabledIds := EnabledIds(companyRows.value);
        defaultId := FirstDefaultId(companyRows.value);
      }
      isLoading := false;
    }

    /** `handleToggleTemplate`: disables an enabled template, clearing the default if it
        was that one, or enables it, as the default when nothing was enabled. A service
        error leaves both unchanged and is shown. */
    method HandleToggleTemplate(templateId: string, hasCompany: bool, isAdmin: bool, serviceError: Option<string>)
      returns (call: ServiceCall, alert: Option<string>)
      modifies this
      ensures !hasCompany || !isAdmin ==> call == NoCall && alert.None? && unchanged(this)
      ensures hasCompany && isAdmin ==>
        call == (if templateId in old(enabledIds) then Disable(templateId) else Enable(templateId, |old(enabledIds)| == 0)) &&
        alert == (if Truthy(serviceError) then serviceError else None) &&
        isUpdating.None? && isLoading == old(isLoading) && systemTemplates == old(systemTemplates)
      ensures hasCompany && isAdmin && Truthy(serviceError) ==> enabledIds == old(enabledIds) && defaultId == old(defaultId)
      ensures hasCompany && isAdmin && !Truthy(serviceError) && templateId in old(enabledIds) ==>
        enabledIds == old(enabledIds) - {templateId} &&
        defaultId == (if old(defaultId) == Some(templateId) then None else old(defaultId))
      ensures hasCompany && isAdmin && !Truthy(serviceError) && templateId !in old(enabledIds) ==>
        enabledIds == old(enabledIds) + {templateId} &&
        defaultId == (if |old(enabledIds)| == 0 then Some(templateId) else old(defaultId))
      ensures old(DefaultIsEnabled()) ==> DefaultIsEnabled()
    {
      call := NoCall;
      alert := None;
      if !hasCompany || !isAdmin {
        return;
      }
      isUpdating := Some(templateId);
      var isEnabled := templateId in enabledIds;
      if isEnabled {
        call := Disable(templateId);
        if Truthy(serviceError) {
          alert := serviceError;
        } else {
          enabledIds := enabledIds - {templateId};
          if defaultId == Some(templateId) {
            defaultId := None;
          }
        }
      } else {
        var isFirst := |enabledIds| == 0;
        call := Enable(templateId, isFirst);
        if Truthy(serviceError) {
          alert := serviceError;
        } else {
          enabledIds := enabledIds + {templateId};
          if isFirst {
            defaultId := Some(templateId);
          }
        }
      }
      isUpdating := None;
    }

    /** `handleSetDefault`: on success the template becomes the default. Called from its
        button, that is for an enabled template, it keeps the default enabled. */
    method HandleSetDefault(templateId: string, hasCompany: bool, isAdmin: bool, serviceError: Option<string>)
      returns (call: ServiceCall, alert: Option<string>)
      modifies this
      ensures !hasCompany || !isAdmin ==> call == NoCall && alert.None? && unchanged(this)
      ensures hasCompany && isAdmin ==>
        call == SetDefault(templateId) && alert == (if Truthy(serviceError) then serviceError else None) &&
        enabledIds == old(enabledIds) && isUpdating.None? &&
        isLoading == old(isLoading) && systemTemplates == old(systemTemplates) &&
        defaultId == (if Truthy(serviceError) then old(defaultId) else Some(templateId))
      ensures hasCompany && isAdmin && !Truthy(serviceError) ==> !ShowsSetDefault(templateId)
      ensures old(DefaultIsEnabled()) && old(ShowsSetDefault(templateId)) ==> DefaultIsEnabled()
    {
      call := NoCall;
      alert := None;
      if !hasCompany || !isAdmin {
        return;
      }
      isUpdating := Some(templateId);
      call := SetDefault(templateId);
      if Truthy(serviceError) {
        alert := serviceError;
      } else {
        defaultId := Some(templateId);
      }
      isUpdating := None;
    }
  }
}
