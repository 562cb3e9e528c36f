/** The sign-up page: the account form's validation chain, the request it
    sends to the identity provider, and its two-step state ('account' then
    'payment'). */
module SignUp {
  import opened Common
  import opened Text

  datatype AccountForm = AccountForm(
    firstName: string,
    lastName: string,
    email: string,
    phone: string,
    password: string,
    confirmPassword: string)

  datatype SignUpStep = Account | Payment

  /** The arguments of `authService.signUp(email, password, fullName, phone)`. */
  datatype SignUpRequest = SignUpRequest(email: string, password: string, fullName: string, phone: string)

  const FillAllFields := "Please fill all fields"
  const PasswordsDiffer := "Passwords do not match"
  const PasswordTooShort := "Password must be at least 6 characters"
  const MinPasswordLength := 6

  predicate AllFilled(f: AccountForm) {
    f.firstName != "" && f.lastName != "" && f.email != "" && f.phone != ""
    && f.password != "" && f.confirmPassword != ""
  }

  /** The alert of the first rule the form breaks, or None when it passes; the
      password's length is counted in UTF-16 code units, as `password.length` does. */
  function AccountError(f: AccountForm): (r: Option<string>)
    ensures r.None? <==> AllFilled(f) && f.password == f.confirmPassword && Utf16Length(f.password) >= MinPasswordLength
    ensures !AllFilled(f) ==> r == Some(FillAllFields)
    ensures AllFilled(f) && f.password != f.confirmPassword ==> r == Some(PasswordsDiffer)
    ensures AllFilled(f) && f.password == f.confirmPassword && Utf16Length(f.password) < MinPasswordLength ==>
      r == Some(PasswordTooShort)
  {
    if !AllFilled(f) then Some(FillAllFields)
    else if f.password != f.confirmPassword then Some(PasswordsDiffer)
    else if Utf16Length(f.password) < MinPasswordLength then Some(PasswordTooShort)
    else None
  }

  /** The display name sent with the sign-up request. */
  function FullName(f: AccountForm): string {
    f.firstName + " " + f.lastName
  }

  /** The full name keeps both parts: the first name, one space, the last name. */
  lemma FullNameParts(f: AccountForm)
    ensures var n := FullName(f);
      |n| == |f.firstName| + 1 + |f.lastName|
      && n[..|f.firstName|] == f.firstName && n[|f.firstName|] == ' '
      && n[|f.firstName| + 1..] == f.lastName
  {
  }

  /** A password of six UTF-16 code units with an equal confirmation passes; five
      do not. Every password of six characters passes, and every password of two
      characters or fewer is refused. */
  lemma PasswordLengthBoundary(f: AccountForm)
    requires AllFilled(f) && f.password == f.confirmPassword
    ensures Utf16Length(f.password) == 6 ==> AccountError(f).None?
    ensures Utf16Length(f.password) == 5 ==> AccountError(f) == Some(PasswordTooShort)
    ensures |f.password| >= 6 ==> AccountError(f).None?
    ensures |f.password| <= 2 ==> AccountError(f) == Some(PasswordTooShort)
  {
  }

  /** Four letters and one emoji make five characters but six code units, so
      the password passes the length rule. */
  lemma EmojiPasswordAccepted()
    ensures var pw := "abcd\U{1F600}";
      |pw| == 5 && Utf16Length(pw) == 6
      && AccountError(AccountForm("Ada", "Obi", "ada@example.com", "0800", pw, pw)).None?
  {
    var pw := "abcd\U{1F600}";
    assert pw[1..] == "bcd\U{1F600}" && pw[2..] == "cd\U{1F600}" && pw[3..] == "d\U{1F600}";
    assert pw[4..] == "\U{1F600}" && pw[5..] == "";
  }

  /** The page's state: the current step, the loading flag, the alerts shown
      and the sign-up requests sent to the identity provider. */
  class SignUpPage {
    var step: SignUpStep
    var isLoading: bool
    var alerts: seq<string>
    var requests: seq<SignUpRequest>

    constructor ()
      ensures step == Account && !isLoading && alerts == [] && requests == []
    {
      step := Account;
      isLoading := false;
      alerts := [];
      requests := [];
    }

    /** `handleAccountSubmit`; `authError` is the identity provider's answer
        (an error message, or None), used only if the request is sent. */
    method HandleAccountSubmit(f: AccountForm, authError: Option<string>)
      modifies this
      ensures AccountError(f).Some? ==>
        requests == old(requests) && step == old(step) && isLoading == old(isLoading)
        && alerts == old(alerts) + [AccountError(f).value]
      ensures AccountError(f).None? ==>
        requests == old(requests) + [SignUpRequest(f.email, f.password, FullName(f), f.phone)]
        && !isLoading
        && (authError.Some? ==> step == old(step) && alerts == old(alerts) + [authError.value])
        && (authError.None? ==> step == Payment && alerts == old(alerts))
    {
      var err := AccountError(f);
      if err.Some? {
        alerts := alerts + [err.value];
        return;
      }
      isLoading := true;
      requests := requests + [SignUpRequest(f.email, f.password, FullName(f), f.phone)];
      isLoading := false;
      if authError.Some? {
        alerts := alerts + [authError.value];
        return;
      }
      step := Payment;
    }
  }

  /** From a fresh page, a password of five characters ends with the length alert
      and no request at all, and the page stays on the account step. */
  method ShortPasswordScenario()
  {
    var page := new SignUpPage();
    var f := AccountForm("Ada", "Bello", "ada@example.com", "0800", "abcde", "abcde");
    page.HandleAccountSubmit(f, None);
    assert page.requests == [] && page.step == Account;
    assert page.alerts == [PasswordTooShort];
  }
}
