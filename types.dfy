/** The status enumerations and the two rows of the registration workflow:
    a member's profile and one payment claim. */
module Types {
  import opened Common

  /** `approval_status` of a profile. */
  datatype ApprovalStatus = Pending | Approved | Rejected

  /** `status` of a payment verification. */
  datatype PaymentStatus = Pending | Verified | Rejected

  /** A row of the profiles table, with the approval columns the workflow writes. */
  datatype Profile = Profile(
    id: Id,
    fullName: Option<string>,
    email: Option<string>,
    phone: Option<string>,
    approvalStatus: ApprovalStatus,
    paymentVerified: bool,
    rejectionReason: Option<string>,
    approvedBy: Option<Id>,
    approvedAt: Option<Timestamp>,
    createdAt: Timestamp)

  /** A row of the payment_verifications table. The amount is kept as the text the
      applicant typed; `paymentMethod` is one of the form's options. */
  datatype PaymentVerification = PaymentVerification(
    id: Id,
    userId: Id,
    reference: string,
    amount: string,
    paymentMethod: string,
    proofUrl: Option<string>,
    status: PaymentStatus,
    notes: Option<string>,
    verifiedBy: Option<Id>,
    verifiedAt: Option<Timestamp>,
    createdAt: Timestamp)

  function ProfileCreatedAt(p: Profile): int {
    p.createdAt
  }

  predicate IsPendingProfile(p: Profile) {
    p.approvalStatus == ApprovalStatus.Pending
  }
}
