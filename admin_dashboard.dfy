/** The admin dashboard page: the access check, the search over the pending
    list, and the approve/reject handlers with their guards and state reset. */
module AdminDashboard {
  import opened Common
  import opened Text
  import opened Types
  import opened AdminService

  /** `field?.toLowerCase().includes(term.toLowerCase())`: an absent field never matches. */
  predicate FieldMatches(field: Option<string>, term: string) {
    field.Some? && Contains(Lower(field.value), Lower(term))
  }

  predicate MatchesSearch(e: PendingEntry, term: string) {
    FieldMatches(e.profile.fullName, term) || FieldMatches(e.profile.email, term)
  }

  /** `filteredUsers`: the pending entries whose name or email includes the term,
      ignoring ASCII case, in the order of the pending list. */
  function FilteredUsers(users: seq<PendingEntry>, term: string): (r: seq<PendingEntry>)
    ensures IsSubsequence(r, users)
    ensures forall e :: e in r <==> e in users && MatchesSearch(e, term)
  {
    var keep := (e: PendingEntry) => MatchesSearch(e, term);
    FilterIsSubsequence(users, keep);
    Filter(users, keep)
  }

  /** With an empty search term, exactly the entries that have a name or an email are shown. */
  lemma EmptySearchKeepsNamed(users: seq<PendingEntry>)
    ensures forall e :: e in FilteredUsers(users, "") <==>
      e in users && (e.profile.fullName.Some? || e.profile.email.Some?)
  {
    assert Lower("") == "";
    forall e | e in users
      ensures MatchesSearch(e, "") <==> e.profile.fullName.Some? || e.profile.email.Some?
    {
      if e.profile.fullName.Some? { ContainsEmpty(Lower(e.profile.fullName.value)); }
      if e.profile.email.Some? { ContainsEmpty(Lower(e.profile.email.value)); }
    }
  }

  /** The guard of `handleReject`: a signed-in admin, a selected user and a reason
      that is not blank after trimming. */
  predicate RejectAllowed(user: Option<Id>, selected: Option<PendingEntry>, reason: string) {
    user.Some? && selected.Some? && Trim(reason) != ""
  }

  /** A reason that passes the guard contains a non-whitespace character, so the
      rejection_reason the service stores is never empty. */
  lemma RejectGuardGivesReason(user: Option<Id>, selected: Option<PendingEntry>, reason: string)
    requires RejectAllowed(user, selected, reason)
    ensures reason != "" && !IsBlank(reason)
  {
    TrimEmptyIffBlank(reason);
  }

  /** The guard of `handleApprove`: a signed-in admin who confirmed the dialog. */
  predicate ApproveAllowed(user: Option<Id>, confirmed: bool) {
    user.Some? && confirmed
  }

  /** The page's state, over the service it calls. */
  class AdminDashboardPage {
    const service: AdminTables
    var pendingUsers: seq<PendingEntry>
    var selectedUser: Option<PendingEntry>
    var rejectionReason: string
    var showRejectModal: bool
    var searchTerm: string
    var loading: bool
    var redirect: Option<string>

    constructor (service: AdminTables)
      ensures this.service == service
      ensures pendingUsers == [] && selectedUser == None && rejectionReason == ""
      ensures !showRejectModal && searchTerm == "" && loading && redirect == None
    {
      this.service := service;
      pendingUsers := [];
      selectedUser := None;
      rejectionReason := "";
      showRejectModal := false;
      searchTerm := "";
      loading := true;
      redirect := None;
    }

    /** The entries the list shows. */
    function Shown(): seq<PendingEntry>
      reads this
    {
      FilteredUsers(pendingUsers, searchTerm)
    }

    /** `checkAdminAccess`: a signed-in non-admin is sent to '/home'. */
    method CheckAdminAccess(user: Option<Id>, lookup: Step)
      modifies this`redirect
      ensures user.None? ==> redirect == old(redirect)
      ensures user.Some? ==>
        redirect == if lookup.Succeeds? && user.value in service.adminUsers then old(redirect) else Some("/home")
    {
      if user.None? {
        return;
      }
      var isAdmin := service.IsAdmin(user.value, lookup);
      if !isAdmin {
        redirect := Some("/home");
      }
    }

    /** `loadPendingUsers`: a failed query shows an empty list. */
    method LoadPendingUsers(query: Step)
      modifies this`pendingUsers, this`loading
      ensures pendingUsers == if query.Succeeds? then PendingUsers(service.profiles, service.payments) else []
      ensures !loading
    {
      loading := true;
      var data := service.GetPendingUsers();
      pendingUsers := if query.Succeeds? then data else [];
      loading := false;
    }

    /** `openRejectModal`. */
    method OpenRejectModal(entry: PendingEntry)
      modifies this`selectedUser, this`showRejectModal
      ensures selectedUser == Some(entry) && showRejectModal
    {
      selectedUser := Some(entry);
      showRejectModal := true;
    }

    /** `handleApprove(userId)`: approve as the signed-in admin, then reload the list. */
    method HandleApprove(userId: Id, user: Option<Id>, confirmed: bool, now: Timestamp, f: ReviewFaults, reload: Step)
      modifies this, service
      ensures !ApproveAllowed(user, confirmed) ==> unchanged(this) && unchanged(service)
      ensures ApproveAllowed(user, confirmed) ==>
        service.State() == Approve(old(service.State()), userId, user.value, now, f).after
        && pendingUsers == (if reload.Succeeds? then PendingUsers(service.profiles, service.payments) else [])
        && selectedUser == old(selectedUser) && rejectionReason == old(rejectionReason)
        && showRejectModal == old(showRejectModal) && searchTerm == old(searchTerm)
        && redirect == old(redirect) && !loading
    {
      if !ApproveAllowed(user, confirmed) {
        return;
      }
      var _ := service.ApproveUser(userId, user.value, now, f);
      LoadPendingUsers(reload);
    }

    /** `handleReject`: reject the selected user with the reason as typed, close
        the modal, clear the selection and the reason, then reload the list. */
    method HandleReject(user: Option<Id>, now: Timestamp, f: ReviewFaults, reload: Step)
      modifies this, service
      ensures if RejectAllowed(user, old(selectedUser), old(rejectionReason)) then
          service.State() == Reject(old(service.State()), old(selectedUser).value.profile.id,
                                    old(rejectionReason), user.value, now, f).after
          && !showRejectModal && selectedUser == None && rejectionReason == ""
          && pendingUsers == (if reload.Succeeds? then PendingUsers(service.profiles, service.payments) else [])
          && searchTerm == old(searchTerm) && redirect == old(redirect) && !loading
        else unchanged(this) && unchanged(service)
    {
      if !RejectAllowed(user, selectedUser, rejectionReason) {
        return;
      }
      RejectSelected(selectedUser.value.profile.id, rejectionReason, user.value, now, f, reload);
    }

    /** The body of `handleReject` once its guard has passed. */
    method RejectSelected(target: Id, reason: string, adminId: Id, now: Timestamp, f: ReviewFaults, reload: Step)
      modifies this, service
      ensures service.State() == Reject(old(service.State()), target, reason, adminId, now, f).after
      ensures !showRejectModal && selectedUser == None && rejectionReason == ""
      ensures pendingUsers == (if reload.Succeeds? then PendingUsers(service.profiles, service.payments) else [])
      ensures searchTerm == old(searchTerm) && redirect == old(redirect) && !loading
    {
      var _ := service.RejectUser(target, reason, adminId, now, f);
      CloseAndReload(reload);
    }

    /** Closes the modal, clears the selection and the reason, and reloads the list. */
    method CloseAndReload(reload: Step)
      modifies this`showRejectModal, this`selectedUser, this`rejectionReason, this`pendingUsers, this`loading
      ensures !showRejectModal && selectedUser == None && rejectionReason == ""
      ensures pendingUsers == (if reload.Succeeds? then PendingUsers(service.profiles, service.payments) else [])
      ensures !loading
    {
      CloseRejectModal();
      LoadPendingUsers(reload);
    }

    /** Closes the modal and clears the selection and the reason. */
    method CloseRejectModal()
      modifies this`showRejectModal, this`selectedUser, this`rejectionReason
      ensures !showRejectModal && selectedUser == None && rejectionReason == ""
    {
      showRejectModal := false;
      selectedUser := None;
      rejectionReason := "";
    }
  }
}
