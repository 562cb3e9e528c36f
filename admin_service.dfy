/** The admin review service: the pending-applicant query, the admin
    membership check, and approve/reject as two ordered, separately failing
    writes (profile row, then payment rows) followed by a best-effort email. */
module AdminService {
  import opened Common
  import opened Types
  import opened Ordering

  /** A pending profile joined with its payment_verifications rows. */
  datatype PendingEntry = PendingEntry(profile: Profile, payments: seq<PaymentVerification>)

  datatype EmailKind = ApprovalEmail | RejectionEmail(reason: string)

  /** One invocation of the email function: recipient, name used in the greeting, kind. */
  datatype EmailAttempt = EmailAttempt(to: Option<string>, fullName: Option<string>, kind: EmailKind)

  /** What the service returns: `{ error: null }` or the error that was thrown. */
  datatype Outcome = Done | Failed(message: string)

  /** How each backend request of one review goes: the profile write, the
      payment write, and the re-read of the profile for its email address. */
  datatype ReviewFaults = ReviewFaults(profileWrite: Step, paymentWrite: Step, reread: Step)

  /** The tables the service reads and writes, and the emails attempted so far. */
  datatype AdminState = AdminState(
    profiles: seq<Profile>,
    payments: seq<PaymentVerification>,
    adminUsers: set<Id>,
    emails: seq<EmailAttempt>)

  datatype Review = Review(after: AdminState, outcome: Outcome)

  // ---------------------------------------------------------------- queries

  function PaymentsOf(payments: seq<PaymentVerification>, userId: Id): (r: seq<PaymentVerification>)
    ensures forall v :: v in r <==> v in payments && v.userId == userId
  {
    Filter(payments, (v: PaymentVerification) => v.userId == userId)
  }

  /** The profiles whose approval_status is pending, newest first. */
  function PendingProfiles(profiles: seq<Profile>): (r: seq<Profile>)
    ensures SortedDesc(r, ProfileCreatedAt)
    ensures multiset(r) == multiset(Filter(profiles, IsPendingProfile))
    ensures forall p :: p in r <==> p in profiles && p.approvalStatus == ApprovalStatus.Pending
  {
    SortDesc(Filter(profiles, IsPendingProfile), ProfileCreatedAt)
  }

  /** `getPendingUsers`: each pending profile with its payment history. */
  function PendingUsers(profiles: seq<Profile>, payments: seq<PaymentVerification>): (r: seq<PendingEntry>)
    ensures |r| == |PendingProfiles(profiles)|
    ensures forall i :: 0 <= i < |r| ==>
      r[i].profile == PendingProfiles(profiles)[i] && r[i].payments == PaymentsOf(payments, r[i].profile.id)
  {
    var pending := PendingProfiles(profiles);
    seq(|pending|, i requires 0 <= i < |pending| => PendingEntry(pending[i], PaymentsOf(payments, pending[i].id)))
  }

  // ---------------------------------------------------------------- row writes

  function ApproveRow(p: Profile, adminId: Id, now: Timestamp): Profile {
    p.(approvalStatus := ApprovalStatus.Approved, paymentVerified := true,
       approvedBy := Some(adminId), approvedAt := Some(now))
  }

  function RejectRow(p: Profile, reason: string, adminId: Id, now: Timestamp): Profile {
    p.(approvalStatus := ApprovalStatus.Rejected, rejectionReason := Some(reason),
       approvedBy := Some(adminId), approvedAt := Some(now))
  }

  function VerifyRow(v: PaymentVerification, adminId: Id, now: Timestamp): PaymentVerification {
    v.(status := PaymentStatus.Verified, verifiedBy := Some(adminId), verifiedAt := Some(now))
  }

  function DeclineRow(v: PaymentVerification, reason: string, adminId: Id, now: Timestamp): PaymentVerification {
    v.(status := PaymentStatus.Rejected, verifiedBy := Some(adminId), verifiedAt := Some(now),
       notes := Some(reason))
  }

  /** A row `.eq('user_id', userId).eq('status', 'pending')` selects. */
  predicate IsPendingPaymentOf(v: PaymentVerification, userId: Id) {
    v.userId == userId && v.status == PaymentStatus.Pending
  }

  /** The profiles table after the approval update `.eq('id', userId)`. */
  function ApproveProfiles(ps: seq<Profile>, userId: Id, adminId: Id, now: Timestamp): (r: seq<Profile>)
    ensures |r| == |ps|
    ensures forall i :: 0 <= i < |ps| ==>
      r[i] == if ps[i].id == userId then ApproveRow(ps[i], adminId, now) else ps[i]
  {
    seq(|ps|, i requires 0 <= i < |ps| => if ps[i].id == userId then ApproveRow(ps[i], adminId, now) else ps[i])
  }

  /** The profiles table after the rejection update `.eq('id', userId)`. */
  function RejectProfiles(ps: seq<Profile>, userId: Id, reason: string, adminId: Id, now: Timestamp): (r: seq<Profile>)
    ensures |r| == |ps|
    ensures forall i :: 0 <= i < |ps| ==>
      r[i] == if ps[i].id == userId then RejectRow(ps[i], reason, adminId, now) else ps[i]
  {
    seq(|ps|, i requires 0 <= i < |ps| => if ps[i].id == userId then RejectRow(ps[i], reason, adminId, now) else ps[i])
  }

  /** The payment_verifications table after the approval update. */
  function VerifyPayments(vs: seq<PaymentVerification>, userId: Id, adminId: Id, now: Timestamp): (r: seq<PaymentVerification>)
    ensures |r| == |vs|
    ensures forall i :: 0 <= i < |vs| ==>
      r[i] == if IsPendingPaymentOf(vs[i], userId) then VerifyRow(vs[i], adminId, now) else vs[i]
  {
    seq(|vs|, i requires 0 <= i < |vs| =>
      if IsPendingPaymentOf(vs[i], userId) then VerifyRow(vs[i], adminId, now) else vs[i])
  }

  /** The payment_verifications table after the rejection update. */
  function DeclinePayments(vs: seq<PaymentVerification>, userId: Id, reason: string, adminId: Id, now: Timestamp): (r: seq<PaymentVerification>)
    ensures |r| == |vs|
    ensures forall i :: 0 <= i < |vs| ==>
      r[i] == if IsPendingPaymentOf(vs[i], userId) then DeclineRow(vs[i], reason, adminId, now) else vs[i]
  {
    seq(|vs|, i requires 0 <= i < |vs| =>
      if IsPendingPaymentOf(vs[i], userId) then DeclineRow(vs[i], reason, adminId, now) else vs[i])
  }

  /** The profile rows with the id. */
  function ProfilesWithId(ps: seq<Profile>, userId: Id): (r: seq<Profile>)
    ensures forall p :: p in r <==> p in ps && p.id == userId
  {
    Filter(ps, (p: Profile) => p.id == userId)
  }

  /** The re-read `select('email, full_name').eq('id', userId).single()`: the
      profile exactly when the read succeeds and one row has the id. */
  function Reread(ps: seq<Profile>, userId: Id, reread: Step): (r: Option<Profile>)
    ensures r.Some? <==> reread.Succeeds? && |ProfilesWithId(ps, userId)| == 1
    ensures r.Some? ==> ProfilesWithId(ps, userId) == [r.value]
    ensures r.Some? ==> r.value in ps && r.value.id == userId
  {
    if reread.Succeeds? then Single(ProfilesWithId(ps, userId)) else None
  }

  /** The email attempted after both writes: one, to the re-read profile's
      address and name, exactly when the re-read finds the profile. */
  function Notify(ps: seq<Profile>, userId: Id, reread: Step, kind: EmailKind): (r: seq<EmailAttempt>)
    ensures |r| <= 1
    ensures |r| == 1 <==> reread.Succeeds? && |ProfilesWithId(ps, userId)| == 1
    ensures r != [] ==> exists p :: p in ps && p.id == userId && r[0] == EmailAttempt(p.email, p.fullName, kind)
  {
    match Reread(ps, userId, reread)
    case Some(p) => [EmailAttempt(p.email, p.fullName, kind)]
    case None => []
  }

  // ---------------------------------------------------------------- transitions

  /** `approveUser(userId, adminId)` at time `now`. */
  function Approve(s: AdminState, userId: Id, adminId: Id, now: Timestamp, f: ReviewFaults): (r: Review)
    ensures r.after.adminUsers == s.adminUsers
    ensures r.outcome.Done? <==> f.profileWrite.Succeeds? && f.paymentWrite.Succeeds?
    ensures f.profileWrite.FailsWith? ==> r.after == s && r.outcome == Failed(f.profileWrite.message)
    ensures f.profileWrite.Succeeds? ==> r.after.profiles == ApproveProfiles(s.profiles, userId, adminId, now)
    ensures f.profileWrite.Succeeds? && f.paymentWrite.FailsWith? ==>
      r.after.payments == s.payments && r.after.emails == s.emails && r.outcome == Failed(f.paymentWrite.message)
    ensures r.outcome.Done? ==> r.after.payments == VerifyPayments(s.payments, userId, adminId, now)
    ensures r.outcome.Done? ==>
      r.after.emails == s.emails + Notify(r.after.profiles, userId, f.reread, ApprovalEmail)
  {
    if f.profileWrite.FailsWith? then Review(s, Failed(f.profileWrite.message))
    else
      var ps := ApproveProfiles(s.profiles, userId, adminId, now);
      if f.paymentWrite.FailsWith? then Review(s.(profiles := ps), Failed(f.paymentWrite.message))
      else
        var vs := VerifyPayments(s.payments, userId, adminId, now);
        Review(AdminState(ps, vs, s.adminUsers, s.emails + Notify(ps, userId, f.reread, ApprovalEmail)), Done)
  }

  /** `rejectUser(userId, reason, adminId)` at time `now`; `reason` is used as given. */
  function Reject(s: AdminState, userId: Id, reason: string, adminId: Id, now: Timestamp, f: ReviewFaults): (r: Review)
    ensures r.after.adminUsers == s.adminUsers
    ensures r.outcome.Done? <==> f.profileWrite.Succeeds? && f.paymentWrite.Succeeds?
    ensures f.profileWrite.FailsWith? ==> r.after == s && r.outcome == Failed(f.profileWrite.message)
    ensures f.profileWrite.Succeeds? ==> r.after.profiles == RejectProfiles(s.profiles, userId, reason, adminId, now)
    ensures f.profileWrite.Succeeds? && f.paymentWrite.FailsWith? ==>
      r.after.payments == s.payments && r.after.emails == s.emails && r.outcome == Failed(f.paymentWrite.message)
    ensures r.outcome.Done? ==> r.after.payments == DeclinePayments(s.payments, userId, reason, adminId, now)
    ensures r.outcome.Done? ==>
      r.after.emails == s.emails + Notify(r.after.profiles, userId, f.reread, RejectionEmail(reason))
  {
    if f.profileWrite.FailsWith? then Review(s, Failed(f.profileWrite.message))
    else
      var ps := RejectProfiles(s.profiles, userId, reason, adminId, now);
      if f.paymentWrite.FailsWith? then Review(s.(profiles := ps), Failed(f.paymentWrite.message))
      else
        var vs := DeclinePayments(s.payments, userId, reason, adminId, now);
        Review(AdminState(ps, vs, s.adminUsers, s.emails + Notify(ps, userId, f.reread, RejectionEmail(reason))), Done)
  }

  const ApprovedText := "User approved successfully"
  const ApproveFailedText := "Failed to approve user"
  const RejectedText := "User rejected with notification sent"
  const RejectFailedText := "Failed to reject user"

  /** The toast shown after approving: the success text, the error's message,
      or the fallback text when the message is empty. */
  function ApproveToast(o: Outcome): (t: string)
    ensures o.Done? ==> t == ApprovedText
    ensures o.Failed? && o.message != "" ==> t == o.message
    ensures o.Failed? && o.message == "" ==> t == ApproveFailedText
  {
    match o
    case Done => ApprovedText
    case Failed(m) => if m != "" then m else ApproveFailedText
  }

  /** The toast shown after rejecting, in the same three cases. */
  function RejectToast(o: Outcome): (t: string)
    ensures o.Done? ==> t == RejectedText
    ensures o.Failed? && o.message != "" ==> t == o.message
    ensures o.Failed? && o.message == "" ==> t == RejectFailedText
  {
    match o
    case Done => RejectedText
    case Failed(m) => if m != "" then m else RejectFailedText
  }

  /** Unless a backend error happens to read like the success text, the success
      toast is shown exactly when both writes of the review succeed. */
  lemma ReviewToasts(s: AdminState, userId: Id, reason: string, adminId: Id, now: Timestamp, f: ReviewFaults)
    requires f.profileWrite.FailsWith? ==> f.profileWrite.message !in {ApprovedText, RejectedText}
    requires f.paymentWrite.FailsWith? ==> f.paymentWrite.message !in {ApprovedText, RejectedText}
    ensures ApproveToast(Approve(s, userId, adminId, now, f).outcome) == ApprovedText
      <==> f.profileWrite.Succeeds? && f.paymentWrite.Succeeds?
    ensures RejectToast(Reject(s, userId, reason, adminId, now, f).outcome) == RejectedText
      <==> f.profileWrite.Succeeds? && f.paymentWrite.Succeeds?
  {
  }

  // ---------------------------------------------------------------- properties

  /** Approval sets the three approval columns on every row with the user's id
      (and only there), and leaves the other columns alone. */
  lemma ApproveSetsProfileColumns(s: AdminState, userId: Id, adminId: Id, now: Timestamp, f: ReviewFaults)
    requires f.profileWrite.Succeeds?
    ensures var ps := Approve(s, userId, adminId, now, f).after.profiles;
      |ps| == |s.profiles| &&
      forall i :: 0 <= i < |ps| ==>
        if s.profiles[i].id == userId then
          ps[i].approvalStatus == ApprovalStatus.Approved && ps[i].paymentVerified
          && ps[i].approvedBy == Some(adminId) && ps[i].approvedAt == Some(now)
          && ps[i].rejectionReason == s.profiles[i].rejectionReason
          && ps[i].id == s.profiles[i].id && ps[i].email == s.profiles[i].email
          && ps[i].createdAt == s.profiles[i].createdAt
        else ps[i] == s.profiles[i]
  {
  }

  /** A successful approval verifies exactly the user's pending payment rows;
      rows of other users and rows already reviewed are untouched. */
  lemma ApproveVerifiesPendingPayments(s: AdminState, userId: Id, adminId: Id, now: Timestamp, f: ReviewFaults)
    requires Approve(s, userId, adminId, now, f).outcome.Done?
    ensures var vs := Approve(s, userId, adminId, now, f).after.payments;
      |vs| == |s.payments| &&
      forall i :: 0 <= i < |vs| ==>
        if s.payments[i].userId == userId && s.payments[i].status == PaymentStatus.Pending then
          vs[i].status == PaymentStatus.Verified && vs[i].verifiedBy == Some(adminId)
          && vs[i].verifiedAt == Some(now) && vs[i].notes == s.payments[i].notes
        else vs[i] == s.payments[i]
  {
  }

  /** Rejection records the reason as given, keeps payment_verified, and marks
      the user's pending payments rejected with the reason as notes. */
  lemma RejectRecordsReason(s: AdminState, userId: Id, reason: string, adminId: Id, now: Timestamp, f: ReviewFaults)
    requires Reject(s, userId, reason, adminId, now, f).outcome.Done?
    ensures var r := Reject(s, userId, reason, adminId, now, f).after;
      |r.profiles| == |s.profiles| && |r.payments| == |s.payments| &&
      (forall i :: 0 <= i < |r.profiles| ==>
        if s.profiles[i].id == userId then
          r.profiles[i].approvalStatus == ApprovalStatus.Rejected
          && r.profiles[i].rejectionReason == Some(reason)
          && r.profiles[i].paymentVerified == s.profiles[i].paymentVerified
          && r.profiles[i].approvedBy == Some(adminId)
        else r.profiles[i] == s.profiles[i]) &&
      (forall i :: 0 <= i < |r.payments| ==>
        if IsPendingPaymentOf(s.payments[i], userId) then
          r.payments[i].status == PaymentStatus.Rejected && r.payments[i].notes == Some(reason)
          && r.payments[i].verifiedBy == Some(adminId)
        else r.payments[i] == s.payments[i])
  {
  }

  /** Approving again after a successful approval changes nothing but approved_at:
      the writes are plain assignments, and the second payment update finds no
      pending row. */
  lemma {:induction false} ApproveTwice(s: AdminState, userId: Id, adminId: Id, t1: Timestamp, t2: Timestamp,
                                        f1: ReviewFaults, f2: ReviewFaults)
    requires Approve(s, userId, adminId, t1, f1).outcome.Done?
    ensures var s1 := Approve(s, userId, adminId, t1, f1).after;
      var s2 := Approve(s1, userId, adminId, t2, f2).after;
      s2.payments == s1.payments && s2.adminUsers == s1.adminUsers &&
      |s2.profiles| == |s1.profiles| &&
      forall i :: 0 <= i < |s1.profiles| ==>
        s2.profiles[i].(approvedAt := s1.profiles[i].approvedAt) == s1.profiles[i]
  {
    var s1 := Approve(s, userId, adminId, t1, f1).after;
    var s2 := Approve(s1, userId, adminId, t2, f2).after;
    if f2.profileWrite.Succeeds? {
      if f2.paymentWrite.Succeeds? {
        var vs := s1.payments;
        forall i | 0 <= i < |vs| ensures !IsPendingPaymentOf(vs[i], userId) {
          assert vs[i] == if IsPendingPaymentOf(s.payments[i], userId) then VerifyRow(s.payments[i], adminId, t1) else s.payments[i];
        }
        assert VerifyPayments(vs, userId, adminId, t2) == vs;
      }
    }
  }

  /** "approved implies payment verified" on every profile row. */
  ghost predicate ApprovedAreVerified(ps: seq<Profile>) {
    forall i :: 0 <= i < |ps| && ps[i].approvalStatus == ApprovalStatus.Approved ==> ps[i].paymentVerified
  }

  /** "rejected implies a non-empty rejection reason" on every profile row. */
  ghost predicate RejectedHaveReasons(ps: seq<Profile>) {
    forall i :: 0 <= i < |ps| && ps[i].approvalStatus == ApprovalStatus.Rejected ==> Truthy(ps[i].rejectionReason)
  }

  /** Both review operations keep "approved implies payment verified", whatever fails. */
  lemma ReviewsKeepApprovedVerified(s: AdminState, userId: Id, reason: string, adminId: Id, now: Timestamp, f: ReviewFaults)
    requires ApprovedAreVerified(s.profiles)
    ensures ApprovedAreVerified(Approve(s, userId, adminId, now, f).after.profiles)
    ensures ApprovedAreVerified(Reject(s, userId, reason, adminId, now, f).after.profiles)
  {
  }

  /** Both review operations keep "rejected implies a reason", provided the reason
      given to a rejection is not empty (the dashboard only passes reasons that are
      not blank). */
  lemma ReviewsKeepRejectedReasons(s: AdminState, userId: Id, reason: string, adminId: Id, now: Timestamp, f: ReviewFaults)
    requires RejectedHaveReasons(s.profiles)
    requires reason != ""
    ensures RejectedHaveReasons(Approve(s, userId, adminId, now, f).after.profiles)
    ensures RejectedHaveReasons(Reject(s, userId, reason, adminId, now, f).after.profiles)
  {
  }

  /** Once the profile write of a review succeeds, the user is no longer in the
      pending list, and every other pending user still is. */
  lemma {:induction false} ReviewedLeavesPendingList(s: AdminState, userId: Id, reason: string, adminId: Id,
                                                     now: Timestamp, f: ReviewFaults)
    requires f.profileWrite.Succeeds?
    ensures forall p :: p in PendingProfiles(Approve(s, userId, adminId, now, f).after.profiles) ==> p.id != userId
    ensures forall p :: p in PendingProfiles(Reject(s, userId, reason, adminId, now, f).after.profiles) ==> p.id != userId
    ensures forall p :: p in s.profiles && p.id != userId && IsPendingProfile(p) ==>
      p in PendingProfiles(Approve(s, userId, adminId, now, f).after.profiles)
      && p in PendingProfiles(Reject(s, userId, reason, adminId, now, f).after.profiles)
  {
    var pa := Approve(s, userId, adminId, now, f).after.profiles;
    var pr := Reject(s, userId, reason, adminId, now, f).after.profiles;
    forall p | p in pa && p.id == userId ensures !IsPendingProfile(p) {
      var i :| 0 <= i < |pa| && pa[i] == p;
      assert s.profiles[i].id == userId;
    }
    forall p | p in pr && p.id == userId ensures !IsPendingProfile(p) {
      var i :| 0 <= i < |pr| && pr[i] == p;
      assert s.profiles[i].id == userId;
    }
    forall p | p in s.profiles && p.id != userId && IsPendingProfile(p) ensures p in pa && p in pr {
      var i :| 0 <= i < |s.profiles| && s.profiles[i] == p;
      assert pa[i] == p && pr[i] == p;
    }
  }

  // ---------------------------------------------------------------- the service

  /** The service's view of the backend: the three tables it touches and the
      emails it has attempted. */
  class AdminTables {
    var profiles: seq<Profile>
    var payments: seq<PaymentVerification>
    var adminUsers: set<Id>
    var emails: seq<EmailAttempt>

    function State(): AdminState
      reads this
    {
      AdminState(profiles, payments, adminUsers, emails)
    }

    constructor (profiles: seq<Profile>, payments: seq<PaymentVerification>, adminUsers: set<Id>)
      ensures State() == AdminState(profiles, payments, adminUsers, [])
    {
      this.profiles := profiles;
      this.payments := payments;
      this.adminUsers := adminUsers;
      this.emails := [];
    }

    /** `getPendingUsers`. */
    method GetPendingUsers() returns (data: seq<PendingEntry>)
      ensures data == PendingUsers(profiles, payments)
    {
      data := PendingUsers(profiles, payments);
    }

    /** `isAdmin(userId)`: whether the admin_users lookup by id returned a row. */
    method IsAdmin(userId: Id, lookup: Step) returns (isAdmin: bool)
      ensures isAdmin <==> lookup.Succeeds? && userId in adminUsers
    {
      isAdmin := lookup.Succeeds? && userId in adminUsers;
    }

    /** `approveUser`: profile write, then payment write, then the email. */
    method ApproveUser(userId: Id, adminId: Id, now: Timestamp, f: ReviewFaults) returns (r: Outcome)
      modifies this
      ensures State() == Approve(old(State()), userId, adminId, now, f).after
      ensures r == Approve(old(State()), userId, adminId, now, f).outcome
    {
      if f.profileWrite.FailsWith? {
        return Failed(f.profileWrite.message);
      }
      profiles := ApproveProfiles(profiles, userId, adminId, now);
      if f.paymentWrite.FailsWith? {
        return Failed(f.paymentWrite.message);
      }
      payments := VerifyPayments(payments, userId, adminId, now);
      var profile := Reread(profiles, userId, f.reread);
      if profile.Some? {
        emails := emails + [EmailAttempt(profile.value.email, profile.value.fullName, ApprovalEmail)];
      }
      r := Done;
    }

    /** `rejectUser`: profile write, then payment write, then the email. */
    method RejectUser(userId: Id, reason: string, adminId: Id, now: Timestamp, f: ReviewFaults) returns (r: Outcome)
      modifies this
      ensures State() == Reject(old(State()), userId, reason, adminId, now, f).after
      ensures r == Reject(old(State()), userId, reason, adminId, now, f).outcome
    {
      if f.profileWrite.FailsWith? {
        return Failed(f.profileWrite.message);
      }
      profiles := RejectProfiles(profiles, userId, reason, adminId, now);
      if f.paymentWrite.FailsWith? {
        return Failed(f.paymentWrite.message);
      }
      payments := DeclinePayments(payments, userId, reason, adminId, now);
      var profile := Reread(profiles, userId, f.reread);
      if profile.Some? {
        emails := emails + [EmailAttempt(profile.value.email, profile.value.fullName, RejectionEmail(reason))];
      }
      r := Done;
    }
  }
}
