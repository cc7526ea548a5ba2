/** The company provider: the user's companies, the selected company and the user's
    membership in it, the derived owner and admin flags, and the handlers that create and
    update companies and change members. Backend answers are parameters; the saved
    company id of the device's key-value storage is a field. */
module CompanyContext {
  import opened Wrappers
  import opened Text
  import opened Types

  // ---------------------------------------------------------------- roles

  /** `membership?.role === 'owner'`. */
  predicate IsOwner(membership: Option<CompanyMember>)
  {
    membership.Some? && membership.value.role == Owner
  }

  /** `membership?.role === 'owner' || membership?.role === 'admin'`. */
  predicate IsAdmin(membership: Option<CompanyMember>)
  {
    membership.Some? && (membership.value.role == Owner || membership.value.role == Admin)
  }

  /** Without a membership the user is neither; an owner is also an admin; an inspector
      is neither. */
  lemma RolesMeaning(membership: Option<CompanyMember>)
    ensures membership.None? ==> !IsOwner(membership) && !IsAdmin(membership)
    ensures membership.Some? ==>
      (IsOwner(membership) <==> membership.value.role == Owner) &&
      (IsAdmin(membership) <==> membership.value.role != Inspector)
    ensures IsOwner(membership) ==> IsAdmin(membership)
  {
  }

  // ---------------------------------------------------------------- the company list

  /** `data || []`. */
  function OrEmpty<T>(data: Option<seq<T>>): seq<T>
  {
    if data.Some? then data.value else []
  }

  /** `list.find(c => c.id === id)`: the first company with that id. */
  function FindById(list: seq<Company>, id: string): (c: Option<Company>)
    ensures c.Some? ==> c.value in list && c.value.id == id
    ensures c.Some? ==> exists k :: 0 <= k < |list| && list[k] == c.value &&
                                   (forall j :: 0 <= j < k ==> list[j].id != id)
    ensures c.None? <==> forall k :: 0 <= k < |list| ==> list[k].id != id
  {
    if list == [] then None
    else if list[0].id == id then Some(list[0])
    else
      var rest := FindById(list[1..], id);
      assert forall k :: 1 <= k < |list| ==> list[k] == list[1..][k - 1];
      rest
  }

  /** The company `loadCompanies` selects: the saved one when the list holds it, otherwise
      the first; an empty or missing list leaves the selection as it was. */
  function SelectOnLoad(saved: Option<string>, data: Option<seq<Company>>, current: Option<Company>): Option<Company>
  {
    if Truthy(saved) && data.Some? then
      var found := FindById(data.value, saved.value);
      if found.Some? then found
      else if |data.value| > 0 then Some(data.value[0])
      else current
    else if data.Some? && |data.value| > 0 then Some(data.value[0])
    else current
  }

  /** What the selection on load means: with a non-empty list the selected company is in
      it, and it is the saved company exactly when a company with the saved id exists;
      with no companies the previous selection stays. */
  lemma SelectOnLoadMeaning(saved: Option<string>, data: Option<seq<Company>>, current: Option<Company>)
    ensures OrEmpty(data) == [] ==> SelectOnLoad(saved, data, current) == current
    ensures OrEmpty(data) != [] ==> SelectOnLoad(saved, data, current).Some? &&
                                    SelectOnLoad(saved, data, current).value in OrEmpty(data)
    ensures Truthy(saved) && OrEmpty(data) != [] ==>
      (SelectOnLoad(saved, data, current).value.id == saved.value <==>
       exists k :: 0 <= k < |OrEmpty(data)| && OrEmpty(data)[k].id == saved.value)
    ensures !Truthy(saved) && OrEmpty(data) != [] ==> SelectOnLoad(saved, data, current) == Some(OrEmpty(data)[0])
  {
    if Truthy(saved) && OrEmpty(data) != [] {
      var list := OrEmpty(data);
      var found := FindById(list, saved.value);
      if found.None? {
        assert list[0].id != saved.value;
      }
    }
  }

  /** `prev.map(c => c.id === data.id ? data : c)`. */
  function ReplaceById(list: seq<Company>, updated: Company): (r: seq<Company>)
    ensures |r| == |list|
    ensures forall k :: 0 <= k < |list| ==> r[k] == if list[k].id == updated.id then updated else list[k]
  {
    if list == [] then [] else [if list[0].id == updated.id then updated else list[0]] + ReplaceById(list[1..], updated)
  }

  /** The updated company is in the list when its id was; with no such id the list is
      unchanged. */
  lemma ReplaceByIdMeaning(list: seq<Company>, updated: Company)
    ensures (exists k :: 0 <= k < |list| && list[k].id == updated.id) ==> updated in ReplaceById(list, updated)
    ensures (forall k :: 0 <= k < |list| ==> list[k].id != updated.id) ==> ReplaceById(list, updated) == list
  {
    var r := ReplaceById(list, updated);
    if exists k :: 0 <= k < |list| && list[k].id == updated.id {
      var k :| 0 <= k < |list| && list[k].id == updated.id;
      assert r[k] == updated;
    } else {
      assert forall k :: 0 <= k < |list| ==> r[k] == list[k];
    }
  }

  /** Replacing twice with the same company changes nothing more. */
  lemma ReplaceByIdIdempotent(list: seq<Company>, updated: Company)
    ensures ReplaceById(ReplaceById(list, updated), updated) == ReplaceById(list, updated)
  {
    var r := ReplaceById(list, updated);
    var rr := ReplaceById(r, updated);
    assert forall k :: 0 <= k < |r| ==> rr[k] == r[k];
  }

  // ---------------------------------------------------------------- members

  /** `user.full_name || user.email`. */
  function InviterName(user: User): (n: string)
    ensures Truthy(user.fullName) ==> n == user.fullName.value
    ensures !Truthy(user.fullName) ==> n == user.email
  {
    OrElse(user.fullName, user.email)
  }

  /** The arguments of `companyService.inviteMember`. */
  datatype Invitation = Invitation(
    companyId: string, email: string, role: MemberRole,
    invitedBy: string, companyName: string, inviterName: string)

  /** The invitation sent for the current company by the signed-in user, when both exist;
      without a company the message is 'No company selected', without a user 'Not
      authenticated'. */
  function InvitationFor(current: Option<Company>, user: Option<User>, email: string, role: MemberRole): (r: Result<Invitation>)
    ensures current.None? ==> r == Failure(NO_COMPANY)
    ensures current.Some? && user.None? ==> r == Failure(NOT_AUTHENTICATED)
    ensures r.Success? ==> (current.Some? && user.Some? &&
      r.value.companyId == current.value.id && r.value.companyName == current.value.name &&
      r.value.invitedBy == user.value.id && r.value.email == email && r.value.role == role &&
      r.value.inviterName == InviterName(user.value))
  {
    if current.None? then Failure(NO_COMPANY)
    else if user.None? then Failure(NOT_AUTHENTICATED)
    else Success(Invitation(current.value.id, email, role, user.value.id, current.value.name, InviterName(user.value)))
  }

  datatype Result<T> = Success(value: T) | Failure(message: string)

  const NOT_AUTHENTICATED: string := "Not authenticated"
  const NO_COMPANY: string := "No company selected"

  // ---------------------------------------------------------------- the provider

  class CompanyProviderState {
    var companies: seq<Company>
    var currentCompany: Option<Company>
    var membership: Option<CompanyMember>
    var members: seq<CompanyMember>
    var isLoading: bool
    /** The value stored under `selected_company_id`. */
    var savedCompanyId: Option<string>
    /** The current company of the render in which `user` last changed. `removeMember` is
        memoised on `[user]`, so the `loadMembers` it calls reads this company. */
    var userRenderCompany: Option<Company>

    constructor (saved: Option<string>)
      ensures companies == [] && currentCompany.None? && membership.None? && members == []
      ensures isLoading && savedCompanyId == saved && userRenderCompany.None?
    {
      companies := [];
      currentCompany := None;
      membership := None;
      members := [];
      isLoading := true;
      savedCompanyId := saved;
      userRenderCompany := None;
    }

    /** The effect on a change of the sign-in state: load the user's companies, or, signed
        out, clear everything except the saved id. When `user` itself changed, the render
        that runs the effect is the one `removeMember` now closes over. */
    method OnUserChange(isAuthenticated: bool, user: Option<User>, userChanged: bool, userCompanies: Option<seq<Company>>)
      modifies this
      ensures isAuthenticated && user.Some? ==>
        companies == OrEmpty(userCompanies) &&
        currentCompany == SelectOnLoad(old(savedCompanyId), userCompanies, old(currentCompany)) &&
        membership == old(membership) && members == old(members)
      ensures !(isAuthenticated && user.Some?) ==>
        companies == [] && currentCompany.None? && membership.None? && members == []
      ensures !isLoading && savedCompanyId == old(savedCompanyId)
      ensures userRenderCompany == if userChanged then old(currentCompany) else old(userRenderCompany)
    {
      if userChanged {
        userRenderCompany := currentCompany;
      }
      if isAuthenticated && user.Some? {
        LoadCompanies(user, userCompanies);
      } else {
        companies := [];
        currentCompany := None;
        membership := None;
        members := [];
        isLoading := false;
      }
    }

    /** `loadCompanies`, also behind `refreshCompanies`. */
    method LoadCompanies(user: Option<User>, userCompanies: Option<seq<Company>>)
      modifies this
      ensures user.None? ==> unchanged(this)
      ensures user.Some? ==>
        companies == OrEmpty(userCompanies) && !isLoading &&
        currentCompany == SelectOnLoad(old(savedCompanyId), userCompanies, old(currentCompany)) &&
        membership == old(membership) && members == old(members) && savedCompanyId == old(savedCompanyId)
      ensures userRenderCompany == old(userRenderCompany)
    {
      if user.None? {
        return;
      }
      isLoading := true;
      companies := OrEmpty(userCompanies);
      var saved := savedCompanyId;
      if Truthy(saved) && userCompanies.Some? {
        var found := FindById(userCompanies.value, saved.value);
        if found.Some? {
          currentCompany := found;
        } else if |userCompanies.value| > 0 {
          currentCompany := Some(userCompanies.value[0]);
        }
      } else if userCompanies.Some? && |userCompanies.value| > 0 {
        currentCompany := Some(userCompanies.value[0]);
      }
      isLoading := false;
    }

    /** The effect on a change of the selected company: load the user's membership and the
        company's members, or clear both when there is no company or no user. */
    method OnCompanyChange(hasUser: bool, userMembership: Option<CompanyMember>, companyMembers: Option<seq<CompanyMember>>)
      modifies this
      ensures currentCompany.Some? && hasUser ==> membership == userMembership && members == OrEmpty(companyMembers)
      ensures !(currentCompany.Some? && hasUser) ==> membership.None? && members == []
      ensures companies == old(companies) && currentCompany == old(currentCompany)
      ensures isLoading == old(isLoading) && savedCompanyId == old(savedCompanyId)
      ensures userRenderCompany == old(userRenderCompany)
    {
      if currentCompany.Some? && hasUser {
        membership := userMembership;
        var _ := ReloadMembers(companyMembers);
      } else {
        membership := None;
        members := [];
      }
    }

    /** `loadMembers` of a render whose current company was `company`: the members of
        that company are requested and stored; nothing happens without a company. */
    method LoadMembers(company: Option<Company>, companyMembers: Option<seq<CompanyMember>>)
      returns (requestedFor: Option<string>)
      modifies this
      ensures requestedFor == if company.Some? then Some(company.value.id) else None
      ensures members == if company.Some? then OrEmpty(companyMembers) else old(members)
      ensures companies == old(companies) && currentCompany == old(currentCompany) && membership == old(membership)
      ensures isLoading == old(isLoading) && savedCompanyId == old(savedCompanyId)
      ensures userRenderCompany == old(userRenderCompany)
    {
      requestedFor := None;
      if company.Some? {
        requestedFor := Some(company.value.id);
        members := OrEmpty(companyMembers);
      }
    }

    /** `refreshMembers`, memoised on `[currentCompany]`: the current company's members. */
    method ReloadMembers(companyMembers: Option<seq<CompanyMember>>) returns (requestedFor: Option<string>)
      modifies this
      ensures requestedFor == if currentCompany.Some? then Some(currentCompany.value.id) else None
      ensures members == if currentCompany.Some? then OrEmpty(companyMembers) else old(members)
      ensures companies == old(companies) && currentCompany == old(currentCompany) && membership == old(membership)
      ensures isLoading == old(isLoading) && savedCompanyId == old(savedCompanyId)
      ensures userRenderCompany == old(userRenderCompany)
    {
      requestedFor := LoadMembers(currentCompany, companyMembers);
    }

    /** `selectCompany`: the company becomes current and its id is saved. */
    method SelectCompany(company: Company)
      modifies this
      ensures currentCompany == Some(company) && savedCompanyId == Some(company.id)
      ensures companies == old(companies) && membership == old(membership) && members == old(members)
      ensures isLoading == old(isLoading) && userRenderCompany == old(userRenderCompany)
    {
      currentCompany := Some(company);
      savedCompanyId := Some(company.id);
    }

    /** `createCompany`: the new company is appended and selected; its id is what a later
        load restores. */
    method CreateCompany(user: Option<User>, response: ApiResponse<Company>) returns (error: Option<string>)
      modifies this
      ensures user.None? ==> error == Some(NOT_AUTHENTICATED) && unchanged(this)
      ensures user.Some? ==> error == response.error
      ensures user.Some? && response.data.Some? ==>
        companies == old(companies) + [response.data.value] &&
        currentCompany == response.data &&
        savedCompanyId == Some(response.data.value.id)
      ensures user.Some? && response.data.None? ==> unchanged(this)
      ensures membership == old(membership) && members == old(members) && isLoading == old(isLoading)
      ensures userRenderCompany == old(userRenderCompany)
    {
      if user.None? {
        return Some(NOT_AUTHENTICATED);
      }
      if response.data.Some? {
        companies := companies + [response.data.value];
        SelectCompany(response.data.value);
      }
      error := response.error;
    }

    /** `updateCompany`: returns the id the update was sent for; on success the returned
        company becomes current and replaces its namesake in the list. */
    method UpdateCompany(response: ApiResponse<Company>) returns (updatedId: Option<string>, error: Option<string>)
      modifies this
      ensures old(currentCompany).None? ==> updatedId.None? && error == Some(NO_COMPANY) && unchanged(this)
      ensures old(currentCompany).Some? ==> updatedId == Some(old(currentCompany).value.id) && error == response.error
      ensures old(currentCompany).Some? && response.data.Some? ==>
        currentCompany == response.data && companies == ReplaceById(old(companies), response.data.value)
      ensures old(currentCompany).Some? && response.data.None? ==> unchanged(this)
      ensures membership == old(membership) && members == old(members)
      ensures isLoading == old(isLoading) && savedCompanyId == old(savedCompanyId)
      ensures userRenderCompany == old(userRenderCompany)
    {
      if currentCompany.None? {
        return None, Some(NO_COMPANY);
      }
      updatedId := Some(currentCompany.value.id);
      if response.data.Some? {
        currentCompany := response.data;
        companies := ReplaceById(companies, response.data.value);
      }
      error := response.error;
    }

    /** `inviteMember`: the members are reloaded only when the invitation succeeded. */
    method InviteMember(user: Option<User>, email: string, role: MemberRole, inviteError: Option<string>,
                        companyMembers: Option<seq<CompanyMember>>)
      returns (sent: Option<Invitation>, error: Option<string>)
      modifies this
      ensures var inv := InvitationFor(old(currentCompany), user, email, role);
        (inv.Failure? ==> sent.None? && error == Some(inv.message) && unchanged(this)) &&
        (inv.Success? ==> (sent == Some(inv.value) && error == inviteError &&
           members == (if Truthy(inviteError) then old(members) else OrEmpty(companyMembers))))
      ensures companies == old(companies) && currentCompany == old(currentCompany) && membership == old(membership)
      ensures isLoading == old(isLoading) && savedCompanyId == old(savedCompanyId)
      ensures userRenderCompany == old(userRenderCompany)
    {
      var inv := InvitationFor(currentCompany, user, email, role);
      if inv.Failure? {
        return None, Some(inv.message);
      }
      sent := Some(inv.value);
      if !Truthy(inviteError) {
        var _ := LoadMembers(currentCompany, companyMembers);
      }
      error := inviteError;
    }

    /** `updateMemberRole`: no guard. It is memoised on `[]`, so it keeps the
        `loadMembers` of the first render, whose current company is still `null`: even
        after a successful update no members are requested and the list stays as it was. */
    method UpdateMemberRole(updateError: Option<string>) returns (reloadedFor: Option<string>, error: Option<string>)
      modifies this
      ensures error == updateError && reloadedFor.None?
      ensures members == old(members)
      ensures companies == old(companies) && currentCompany == old(currentCompany) && membership == old(membership)
      ensures isLoading == old(isLoading) && savedCompanyId == old(savedCompanyId)
      ensures userRenderCompany == old(userRenderCompany)
    {
      reloadedFor := None;
      if !Truthy(updateError) {
        reloadedFor := LoadMembers(None, None);
      }
      error := updateError;
    }

    /** `updateMemberRole` as it was evidently meant: a success reloads the members of the
        selected company. */
    method UpdateMemberRoleIntended(updateError: Option<string>, companyMembers: Option<seq<CompanyMember>>)
      returns (reloadedFor: Option<string>, error: Option<string>)
      modifies this
      ensures error == updateError
      ensures reloadedFor == if !Truthy(updateError) && currentCompany.Some? then Some(currentCompany.value.id) else None
      ensures members == if !Truthy(updateError) && currentCompany.Some? then OrEmpty(companyMembers) else old(members)
      ensures companies == old(companies) && currentCompany == old(currentCompany) && membership == old(membership)
      ensures isLoading == old(isLoading) && savedCompanyId == old(savedCompanyId)
      ensures userRenderCompany == old(userRenderCompany)
    {
      reloadedFor := None;
      if !Truthy(updateError) {
        reloadedFor := ReloadMembers(companyMembers);
      }
      error := updateError;
    }

    /** `removeMember`: refused without a signed-in user, whose id the service receives.
        It is memoised on `[user]`, so a success reloads the members of the company that
        was current when `user` last changed, not necessarily of the selected one. */
    method RemoveMember(user: Option<User>, removeError: Option<string>, companyMembers: Option<seq<CompanyMember>>)
      returns (removedBy: Option<string>, reloadedFor: Option<string>, error: Option<string>)
      modifies this
      ensures user.None? ==> removedBy.None? && reloadedFor.None? && error == Some(NOT_AUTHENTICATED) && unchanged(this)
      ensures user.Some? ==> (removedBy == Some(user.value.id) && error == removeError &&
        reloadedFor == (if !Truthy(removeError) && userRenderCompany.Some? then Some(userRenderCompany.value.id) else None) &&
        members == (if !Truthy(removeError) && userRenderCompany.Some? then OrEmpty(companyMembers) else old(members)))
      ensures companies == old(companies) && currentCompany == old(currentCompany) && membership == old(membership)
      ensures isLoading == old(isLoading) && savedCompanyId == old(savedCompanyId)
      ensures userRenderCompany == old(userRenderCompany)
    {
      if user.None? {
        return None, None, Some(NOT_AUTHENTICATED);
      }
      removedBy := Some(user.value.id);
      reloadedFor := None;
      if !Truthy(removeError) {
        reloadedFor := LoadMembers(userRenderCompany, companyMembers);
      }
      error := removeError;
    }

    /** `removeMember` as it was evidently meant: a success reloads the members of the
        selected company. */
    method RemoveMemberIntended(user: Option<User>, removeError: Option<string>, companyMembers: Option<seq<CompanyMember>>)
      returns (removedBy: Option<string>, reloadedFor: Option<string>, error: Option<string>)
      modifies this
      ensures user.None? ==> removedBy.None? && reloadedFor.None? && error == Some(NOT_AUTHENTICATED) && unchanged(this)
      ensures user.Some? ==> (removedBy == Some(user.value.id) && error == removeError &&
        reloadedFor == (if !Truthy(removeError) && currentCompany.Some? then Some(currentCompany.value.id) else None) &&
        members == (if !Truthy(removeError) && currentCompany.Some? then OrEmpty(companyMembers) else old(members)))
      ensures companies == old(companies) && currentCompany == old(currentCompany) && membership == old(membership)
      ensures isLoading == old(isLoading) && savedCompanyId == old(savedCompanyId)
      ensures userRenderCompany == old(userRenderCompany)
    {
      if user.None? {
        return None, None, Some(NOT_AUTHENTICATED);
      }
      removedBy := Some(user.value.id);
      reloadedFor := None;
      if !Truthy(removeError) {
        reloadedFor := ReloadMembers(companyMembers);
      }
      error := removeError;
    }
  }

  /** A successful role change for a selected company: as written the list of members
      stays empty, while the intended callback loads the company's member. */
  method StaleRoleUpdate(company: Company, member: CompanyMember)
    returns (asWritten: seq<CompanyMember>, intended: seq<CompanyMember>)
    ensures asWritten == [] && intended == [member]
  {
    var provider := new CompanyProviderState(None);
    provider.SelectCompany(company);
    var _, _ := provider.UpdateMemberRole(None);
    asWritten := provider.members;
    var meant := new CompanyProviderState(None);
    meant.SelectCompany(company);
    var _, _ := meant.UpdateMemberRoleIntended(None, Some([member]));
    intended := meant.members;
  }

  /** A successful removal right after sign-in, once the first company is selected: as
      written no members are requested, since the callback's render had no company yet;
      the intended callback requests the selected company's members. */
  method StaleRemoval(user: User, company: Company, member: CompanyMember)
    returns (asWritten: Option<string>, intended: Option<string>)
    ensures asWritten.None? && intended == Some(company.id)
  {
    var provider := new CompanyProviderState(None);
    provider.OnUserChange(true, Some(user), true, Some([company]));
    assert provider.currentCompany == Some(company);
    var _, reloaded, _ := provider.RemoveMember(Some(user), None, Some([member]));
    asWritten := reloaded;
    var meant := new CompanyProviderState(None);
    meant.OnUserChange(true, Some(user), true, Some([company]));
    var _, reloadedMeant, _ := meant.RemoveMemberIntended(Some(user), None, Some([member]));
    intended := reloadedMeant;
  }

  /** A created company, appended to the list and saved, is the one the next load restores,
      unless an earlier company shares its id or the id is empty (and so not truthy). */
  lemma RestoresCreatedCompany(prev: seq<Company>, created: Company)
    ensures created.id != "" && (forall k :: 0 <= k < |prev| ==> prev[k].id != created.id) ==>
      SelectOnLoad(Some(created.id), Some(prev + [created]), None) == Some(created)
  {
    var list := prev + [created];
    if created.id != "" && forall k :: 0 <= k < |prev| ==> prev[k].id != created.id {
      assert list[|prev|].id == created.id;
      var found := FindById(list, created.id);
      var k :| 0 <= k < |list| && list[k] == found.value && (forall j :: 0 <= j < k ==> list[j].id != created.id);
      assert k == |prev|;
    }
  }
}
