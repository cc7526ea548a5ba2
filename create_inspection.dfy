/** The new-inspection form: its validation, the payload it sends to `createInspection`
    with every field trimmed, and where the screen goes afterwards. The create call's
    answer is a parameter. */
module CreateInspection {
  import opened Wrappers
  import opened Text
  import opened Types
  import opened InspectionService

  const PROJECT_NAME_REQUIRED: string := "Project name is required"
  const NO_COMPANY_OR_USER: string := "No company or user found"

  // ---------------------------------------------------------------- validation

  /** The error a field can show; the project name's is the only one. */
  datatype FieldError = ProjectNameRequired

  function FieldErrorText(e: FieldError): string
  {
    PROJECT_NAME_REQUIRED
  }

  /** The form's error record; `projectName` is the only key it can hold. */
  datatype FormErrors = FormErrors(projectName: Option<FieldError>)

  const NO_ERRORS: FormErrors := FormErrors(None)

  /** `Object.keys(errors).length`. */
  function ErrorCount(errors: FormErrors): nat
  {
    if errors.projectName.Some? then 1 else 0
  }

  /** The error record `validate` builds. */
  function ValidationErrors(projectName: string): FormErrors
  {
    if Trim(projectName) == "" then FormErrors(Some(ProjectNameRequired)) else NO_ERRORS
  }

  /** The record holds the project-name entry, with its message, exactly when the name is
      blank, and is otherwise empty. */
  lemma ValidationErrorsMeaning(projectName: string)
    ensures ValidationErrors(projectName).projectName.Some? <==> IsBlank(projectName)
    ensures ValidationErrors(projectName).projectName.Some? ==>
      FieldErrorText(ValidationErrors(projectName).projectName.value) == PROJECT_NAME_REQUIRED
    ensures ValidationErrors(projectName) == NO_ERRORS <==> ErrorCount(ValidationErrors(projectName)) == 0
  {
    TrimEmptyIffBlank(projectName);
  }

  // ---------------------------------------------------------------- the payload

  /** A value with no whitespace at either end, as trimming leaves it. */
  predicate IsTrimmed(s: string) { Trim(s) == s }

  /** Absent, or a non-empty trimmed text. */
  predicate Clean(o: Option<string>) { o.Some? ==> o.value != "" && IsTrimmed(o.value) }

  /** `s.trim() || undefined`. */
  function TrimmedOrAbsent(s: string): (r: Option<string>)
  {
    var t := Trim(s);
    if t == "" then None else Some(t)
  }

  /** `s.trim() || undefined` is absent exactly for a blank text, and otherwise the
      trimmed text, which trimming leaves as it is. */
  lemma TrimmedOrAbsentMeaning(s: string)
    ensures TrimmedOrAbsent(s).None? <==> IsBlank(s)
    ensures TrimmedOrAbsent(s).Some? ==> TrimmedOrAbsent(s).value == Trim(s) && Clean(TrimmedOrAbsent(s))
  {
    AbsentIffBlank(s);
    PresentIsTrimmed(s);
  }

  lemma AbsentIffBlank(s: string)
    ensures TrimmedOrAbsent(s).None? <==> IsBlank(s)
  {
    TrimEmptyIffBlank(s);
  }

  lemma PresentIsTrimmed(s: string)
    ensures TrimmedOrAbsent(s).Some? ==> IsTrimmed(TrimmedOrAbsent(s).value)
  {
    TrimIdempotent(s);
  }

  /** The fields `handleCreate` passes. */
  function Payload(projectName: string, projectAddress: string, clientName: string, clientEmail: string): NewInspection
  {
    NewInspection(Trim(projectName), TrimmedOrAbsent(projectAddress), TrimmedOrAbsent(clientName),
      TrimmedOrAbsent(clientEmail), None, None, None, None)
  }

  /** Every text in the payload is trimmed and an optional one is absent rather than
      empty; for a valid form the project name is non-empty. No scheduling or Housecall
      Pro fields are sent. */
  lemma PayloadMeaning(projectName: string, projectAddress: string, clientName: string, clientEmail: string)
    ensures var p := Payload(projectName, projectAddress, clientName, clientEmail);
      IsTrimmed(p.projectName) && (!IsBlank(projectName) <==> p.projectName != "") &&
      Clean(p.projectAddress) && Clean(p.clientName) && Clean(p.clientEmail) &&
      (p.clientEmail.None? <==> IsBlank(clientEmail)) &&
      p.scheduledDate.None? && p.hcpJobId.None?
  {
    TrimIdempotent(projectName);
    TrimEmptyIffBlank(projectName);
    TrimmedOrAbsentMeaning(projectAddress);
    TrimmedOrAbsentMeaning(clientName);
    TrimmedOrAbsentMeaning(clientEmail);
  }

  /** The row the service stores for a valid form is a draft under the trimmed, non-empty
      project name. */
  lemma StoredRowOfValidForm(companyId: string, inspectorId: string, projectName: string, projectAddress: string,
                             clientName: string, clientEmail: string, id: string, createdAt: string)
    requires !IsBlank(projectName)
    ensures var row := NewInspectionRow(companyId, inspectorId,
                                        Payload(projectName, projectAddress, clientName, clientEmail), id, createdAt);
      row.status == Draft && row.projectName == Trim(projectName) && row.projectName != "" &&
      row.companyId == companyId && row.inspectorId == inspectorId
  {
    TrimEmptyIffBlank(projectName);
  }

  // ---------------------------------------------------------------- the screen

  /** `/inspection/<id>`. */
  function InspectionPath(id: string): (p: string)
    ensures |p| == 12 + |id| && p[12..] == id
  {
    "/inspection/" + id
  }

  /** The alerts `handleCreate` shows: its own, or the service's error. */
  datatype CreateAlert = NoCompanyOrUser | ServiceError(message: string)

  function CreateAlertText(a: CreateAlert): string
  {
    match a
    case NoCompanyOrUser => NO_COMPANY_OR_USER
    case ServiceError(message) => message
  }

  /** What `handleCreate` did. */
  datatype CreateCall = CreateCall(companyId: string, inspectorId: string, data: NewInspection)

  class CreateInspectionForm {
    var projectName: string
    var projectAddress: string
    var clientName: string
    var clientEmail: string
    var isLoading: bool
    var errors: FormErrors

    constructor ()
      ensures projectName == "" && projectAddress == "" && clientName == "" && clientEmail == ""
      ensures !isLoading && errors == NO_ERRORS
    {
      projectName := "";
      projectAddress := "";
      clientName := "";
      clientEmail := "";
      isLoading := false;
      errors := NO_ERRORS;
    }

    /** `validate`: records the errors and answers whether there are none. */
    method Validate() returns (valid: bool)
      modifies this
      ensures errors == ValidationErrors(projectName)
      ensures valid <==> errors == NO_ERRORS
      ensures projectName == old(projectName) && projectAddress == old(projectAddress)
      ensures clientName == old(clientName) && clientEmail == old(clientEmail) && isLoading == old(isLoading)
    {
      var name := projectName;
      var newErrors := NO_ERRORS;
      if Trim(name) == "" {
        newErrors := newErrors.(projectName := Some(ProjectNameRequired));
      }
      assert newErrors == ValidationErrors(name);
      errors := newErrors;
      valid := ErrorCount(newErrors) == 0;
    }

    /** `handleCreate`: validate, refuse without a company or user, send the trimmed
        payload, then show the error or go to the new inspection. */
    method HandleCreate(currentCompany: Option<Company>, user: Option<User>, response: ApiResponse<Inspection>)
      returns (call: Option<CreateCall>, alert: Option<CreateAlert>, navigateTo: Option<string>)
      modifies this
      ensures errors == ValidationErrors(old(projectName))
      ensures errors != NO_ERRORS ==> call.None? && alert.None? && navigateTo.None? && isLoading == old(isLoading)
      ensures errors == NO_ERRORS && (currentCompany.None? || user.None?) ==>
        call.None? && alert == Some(NoCompanyOrUser) && navigateTo.None? && isLoading == old(isLoading)
      ensures errors == NO_ERRORS && currentCompany.Some? && user.Some? ==>
        call == Some(CreateCall(currentCompany.value.id, user.value.id,
                                Payload(old(projectName), old(projectAddress), old(clientName), old(clientEmail)))) &&
        !isLoading &&
        alert == (if Truthy(response.error) then Some(ServiceError(response.error.value)) else None) &&
        navigateTo == (if !Truthy(response.error) && response.data.Some? then Some(InspectionPath(response.data.value.id)) else None)
      ensures projectName == old(projectName) && projectAddress == old(projectAddress)
      ensures clientName == old(clientName) && clientEmail == old(clientEmail)
    {
      call, alert, navigateTo := None, None, None;
      var valid := Validate();
      if !valid {
        return;
      }
      if currentCompany.None? || user.None? {
        alert := Some(NoCompanyOrUser);
        return;
      }
      isLoading := true;
      call := Some(CreateCall(currentCompany.value.id, user.value.id,
                              Payload(projectName, projectAddress, clientName, clientEmail)));
      isLoading := false;
      if Truthy(response.error) {
        alert := Some(ServiceError(response.error.value));
      } else if response.data.Some? {
        navigateTo := Some(InspectionPath(response.data.value.id));
      }
    }
  }
}
