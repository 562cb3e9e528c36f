/** The payment-verification page: the submit handler's guard, the optional
    proof upload and the submission, the form reset, and which badge and
    whether the form are shown for the applicant's current payment status. */
module PaymentVerificationPage {
  import opened Common
  import opened Text
  import opened Types

  /** The fields of the applicant's latest payment row that the page reads. */
  datatype StatusView = StatusView(status: PaymentStatus, notes: Option<string>)

  datatype Badge = Badge(title: string, text: string)

  /** An opaque handle on a picked image. */
  datatype Blob = Blob(handle: nat)

  /** `storageService.uploadImage(bucket, path, blob)`. */
  datatype Upload = Upload(bucket: string, path: string, image: Blob)

  /** The arguments of `authService.submitPaymentVerification`. */
  datatype Submission = Submission(reference: string, amount: string, paymentMethod: string, proofUrl: string)

  /** The storage service's answer: the public URL, or a thrown error. */
  datatype UploadResult = Uploaded(url: string) | UploadFailed

  const DefaultPaymentMethod := "bank_transfer"
  const ProofBucket := "payment-proofs"
  const RejectedDefaultText := "Unable to verify payment. Please submit again with correct details."

  /** The storage key of a proof image: `${user.id}-${Date.now()}.jpg`. */
  function ProofPath(userId: Id, now: nat): string {
    userId + "-" + Decimal(now) + ".jpg"
  }

  /** The key starts with the user id and a dash, ends in ".jpg", and between them
      holds the decimal timestamp; so one user's keys differ for different instants. */
  lemma ProofPathShape(userId: Id, t1: nat, t2: nat)
    ensures var p := ProofPath(userId, t1);
      p[..|userId| + 1] == userId + "-" && p[|p| - 4..] == ".jpg"
      && p[|userId| + 1..|p| - 4] == Decimal(t1)
    ensures ProofPath(userId, t1) == ProofPath(userId, t2) ==> t1 == t2
  {
    var p1, p2 := ProofPath(userId, t1), ProofPath(userId, t2);
    assert p1[|userId| + 1..|p1| - 4] == Decimal(t1);
    if p1 == p2 {
      assert p2[|userId| + 1..|p2| - 4] == Decimal(t2);
      DecimalRoundTrip(t1);
      DecimalRoundTrip(t2);
    }
  }

  const PendingBadge := Badge("Payment Under Review",
    "Your payment is being verified by our admin team. You'll receive an email once reviewed.")
  const VerifiedBadge := Badge("Payment Verified!",
    "Your payment has been confirmed. You can now access all features.")
  const RejectedTitle := "Payment Verification Failed"

  /** `getStatusBadge`. */
  function StatusBadge(s: Option<StatusView>): (b: Option<Badge>)
    ensures b.Some? <==> s.Some?
    ensures s.Some? && s.value.status == PaymentStatus.Pending ==> b == Some(PendingBadge)
    ensures s.Some? && s.value.status == PaymentStatus.Verified ==> b == Some(VerifiedBadge)
    ensures s.Some? && s.value.status == PaymentStatus.Rejected ==>
      b.value.title == RejectedTitle && b.value.text == OrDefault(s.value.notes, RejectedDefaultText)
  {
    match s
    case None => None
    case Some(v) =>
      match v.status
      case Pending => Some(PendingBadge)
      case Verified => Some(VerifiedBadge)
      case Rejected => Some(Badge(RejectedTitle, OrDefault(v.notes, RejectedDefaultText)))
  }

  /** The submission form is shown when there is no payment yet or it was rejected. */
  predicate ShowForm(s: Option<StatusView>) {
    s.None? || s.value.status == PaymentStatus.Rejected
  }

  /** An applicant sees exactly one of: the form alone (nothing submitted), the
      rejected badge with the form (to resubmit), or a badge without the form
      (waiting or verified). The rejected badge shows the notes when they are not
      empty, the default text otherwise. */
  lemma ShownTogether(s: Option<StatusView>)
    ensures ShowForm(s) && StatusBadge(s).None? <==> s.None?
    ensures ShowForm(s) && StatusBadge(s).Some? <==> s.Some? && s.value.status == PaymentStatus.Rejected
    ensures !ShowForm(s) ==> StatusBadge(s).Some? && s.value.status != PaymentStatus.Rejected
    ensures s.Some? && s.value.status == PaymentStatus.Rejected ==>
      StatusBadge(s).value.text == if Truthy(s.value.notes) then s.value.notes.value else RejectedDefaultText
  {
  }

  /** The guard of `handleSubmit`. */
  predicate SubmitAllowed(user: Option<Id>, reference: string, amount: string) {
    user.Some? && reference != "" && amount != ""
  }

  /** The page's state and the requests it has made to the storage and auth services. */
  class PaymentVerificationPage {
    var paymentReference: string
    var paymentAmount: string
    var paymentMethod: string
    var proofImage: Option<Blob>
    var previewUrl: string
    var isSubmitting: bool
    var paymentStatus: Option<StatusView>
    var uploads: seq<Upload>
    var submissions: seq<Submission>

    constructor ()
      ensures paymentReference == "" && paymentAmount == "" && paymentMethod == DefaultPaymentMethod
      ensures proofImage == None && previewUrl == "" && !isSubmitting && paymentStatus == None
      ensures uploads == [] && submissions == []
    {
      paymentReference := "";
      paymentAmount := "";
      paymentMethod := DefaultPaymentMethod;
      proofImage := None;
      previewUrl := "";
      isSubmitting := false;
      paymentStatus := None;
      uploads := [];
      submissions := [];
    }

    /** `handleImagePick`: a picked image and its preview, or nothing if picking failed. */
    method HandleImagePick(picked: Option<Blob>, objectUrl: string)
      modifies this`proofImage, this`previewUrl
      ensures picked.Some? ==> proofImage == picked && previewUrl == objectUrl
      ensures picked.None? ==> proofImage == old(proofImage) && previewUrl == old(previewUrl)
    {
      if picked.Some? {
        proofImage := picked;
        previewUrl := objectUrl;
      }
    }

    /** `handleSubmit` at instant `now`; `upload` is the storage service's answer,
        `submit` whether the submission call threw, and `reloaded` the payment
        status read back afterwards. */
    method HandleSubmit(user: Option<Id>, now: nat, upload: UploadResult, submit: Step, reloaded: Option<StatusView>)
      modifies this
      ensures !SubmitAllowed(user, old(paymentReference), old(paymentAmount)) ==> unchanged(this)
      ensures SubmitAllowed(user, old(paymentReference), old(paymentAmount)) ==>
        var uploadTried := old(proofImage).Some?;
        var uploadOk := !uploadTried || upload.Uploaded?;
        var proofUrl := if uploadTried && upload.Uploaded? then upload.url else "";
        var completed := uploadOk && submit.Succeeds?;
        !isSubmitting
        && uploads == old(uploads) +
             (if uploadTried then [Upload(ProofBucket, ProofPath(user.value, now), old(proofImage).value)] else [])
        && submissions == old(submissions) +
             (if uploadOk then [Submission(old(paymentReference), old(paymentAmount), old(paymentMethod), proofUrl)] else [])
        && paymentMethod == old(paymentMethod)
        && (completed ==>
              paymentStatus == reloaded && paymentReference == "" && paymentAmount == ""
              && proofImage == None && previewUrl == "")
        && (!completed ==>
              paymentStatus == old(paymentStatus) && paymentReference == old(paymentReference)
              && paymentAmount == old(paymentAmount) && proofImage == old(proofImage)
              && previewUrl == old(previewUrl))
    {
      if !SubmitAllowed(user, paymentReference, paymentAmount) {
        return;
      }
      isSubmitting := true;
      var proofUrl := "";
      var failed := false;
      if proofImage.Some? {
        uploads := uploads + [Upload(ProofBucket, ProofPath(user.value, now), proofImage.value)];
        if upload.Uploaded? {
          proofUrl := upload.url;
        } else {
          failed := true;
        }
      }
      if !failed {
        submissions := submissions + [Submission(paymentReference, paymentAmount, paymentMethod, proofUrl)];
        failed := submit.FailsWith?;
      }
      if !failed {
        paymentStatus := reloaded;
        paymentReference := "";
        paymentAmount := "";
        proofImage := None;
        previewUrl := "";
      }
      isSubmitting := false;
    }
  }

  /** With no image picked, nothing is uploaded and the submission carries an
      empty proof URL. */
  method NoImageScenario(userId: Id, now: nat)
  {
    var page := new PaymentVerificationPage();
    page.paymentReference, page.paymentAmount := "TXN1", "50000";
    page.HandleSubmit(Some(userId), now, UploadFailed, Succeeds,
                      Some(StatusView(PaymentStatus.Pending, None)));
    assert page.uploads == [];
    assert page.submissions == [Submission("TXN1", "50000", DefaultPaymentMethod, "")];
    assert page.paymentReference == "" && !page.isSubmitting;
    assert ShowForm(page.paymentStatus) == false;
  }
}
