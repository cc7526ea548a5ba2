/** The template picker shown when an inspection is started: loading the available
    templates with its auto-selection, the confirm action, and the category preview of
    each card. */
module TemplateSelector {
  import opened Wrappers
  import opened Text
  import opened ChecklistTemplateService

  /** A tag of the category preview: a category name, or `+<n> more`. */
  datatype Tag = CategoryTag(name: string) | MoreTag(count: int)

  function TagText(t: Tag): string
  {
    match t
    case CategoryTag(name) => name
    case MoreTag(count) => "+" + IntToString(count) + " more"
  }

  /** `getTotalItems` is zero exactly when every category is empty, and at least the size
      of any one category. */
  lemma {:induction false} TotalItemsMeaning(categories: seq<ChecklistCategory>)
    ensures TotalItems(categories) == 0 <==> forall i :: 0 <= i < |categories| ==> categories[i].items == []
    ensures forall i :: 0 <= i < |categories| ==> |categories[i].items| <= TotalItems(categories)
  {
    if categories != [] {
      var init := categories[..|categories| - 1];
      TotalItemsMeaning(init);
      assert forall i :: 0 <= i < |init| ==> init[i] == categories[i];
    }
  }

  /** `categories.slice(0, 3)` as tags, then a `+<n - 3> more` tag when there are more. */
  function CategoryPreview(categories: seq<ChecklistCategory>): (tags: seq<Tag>)
    ensures var shown := if |categories| < 3 then |categories| else 3;
      |tags| == shown + (if |categories| > 3 then 1 else 0) &&
      (forall i :: 0 <= i < shown ==> tags[i] == CategoryTag(categories[i].name)) &&
      (|categories| > 3 ==> tags[3] == MoreTag(|categories| - 3))
  {
    var names := seq(if |categories| < 3 then |categories| else 3, i requires 0 <= i < |categories| => CategoryTag(categories[i].name));
    if |categories| > 3 then names + [MoreTag(|categories| - 3)] else names
  }

  /** The preview accounts for every category: the tags are category names except for
      a `more` tag, which comes fourth and exactly when there are more than three
      categories, and the names shown plus its count make up the number of categories. */
  lemma PreviewAccountsForAll(categories: seq<ChecklistCategory>)
    ensures var tags := CategoryPreview(categories);
      forall i :: 0 <= i < |tags| ==> (tags[i].MoreTag? <==> |categories| > 3 && i == 3)
    ensures var tags := CategoryPreview(categories);
      var more := |categories| > 3;
      (|tags| - (if more then 1 else 0)) + (if more then tags[3].count else 0) == |categories|
  {
  }

  /** What the picker shows. */
  datatype View = Loading | NoTemplates | Choices(confirmEnabled: bool)

  class TemplateSelectorState {
    var templates: seq<ChecklistTemplate>
    var selected: Option<ChecklistTemplate>
    var isLoadingTemplates: bool

    constructor ()
      ensures templates == [] && selected.None? && isLoadingTemplates
    {
      templates := [];
      selected := None;
      isLoadingTemplates := true;
    }

    /** The loading indicator, then the empty state, then the list; the confirm button is
        enabled only with a selection. */
    function CurrentView(): (v: View)
      reads this
      ensures v == Choices(true) <==> !isLoadingTemplates && |templates| > 0 && selected.Some?
    {
      if isLoadingTemplates then Loading
      else if |templates| == 0 then NoTemplates
      else Choices(selected.Some?)
    }

    /** `loadTemplates`: on success the list is replaced, and a single template is
        selected; on an error the list and the selection stay as they were. */
    method LoadTemplates(response: ApiResponse<seq<ChecklistTemplate>>)
      modifies this
      ensures !Truthy(response.error) && response.data.Some? ==>
        templates == response.data.value &&
        selected == (if |response.data.value| == 1 then Some(response.data.value[0]) else old(selected))
      ensures Truthy(response.error) || response.data.None? ==> templates == old(templates) && selected == old(selected)
      ensures !isLoadingTemplates
      ensures old(selected).None? ==>
        (selected.Some? <==> !Truthy(response.error) && response.data.Some? && |response.data.value| == 1)
    {
      isLoadingTemplates := true;
      if !Truthy(response.error) && response.data.Some? {
        templates := response.data.value;
        if |response.data.value| == 1 {
          selected := Some(response.data.value[0]);
        }
      }
      isLoadingTemplates := false;
    }

    /** Tapping a card selects its template. */
    method Choose(t: ChecklistTemplate)
      modifies this
      ensures selected == Some(t) && templates == old(templates) && isLoadingTemplates == old(isLoadingTemplates)
    {
      selected := Some(t);
    }

    /** `handleConfirm`: the template handed to `onSelect`, if any; exactly the selected
        one. */
    method HandleConfirm() returns (chosen: Option<ChecklistTemplate>)
      ensures chosen.Some? <==> selected.Some?
      ensures chosen.Some? ==> chosen.value == selected.value
    {
      chosen := None;
      if selected.Some? {
        chosen := selected;
      }
    }
  }

  /** A first load that fails leaves the picker on its empty state with nothing to
      confirm. */
  method FailedFirstLoad(message: string) returns (v: View, chosen: Option<ChecklistTemplate>)
    requires message != ""
    ensures v == NoTemplates && chosen.None?
  {
    var picker := new TemplateSelectorState();
    picker.LoadTemplates(Err(message));
    v := picker.CurrentView();
    chosen := picker.HandleConfirm();
  }
}
