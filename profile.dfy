/**
 * The profile screen's change-password dialog (ProfileActivity): phone
 * normalisation for the one-time-code request, and the three-step dialog
 * that goes from choosing a method, to entering the code, to entering the
 * new password.
 *
 * Requests to the authentication service are returned as `Request` values;
 * the service's answers are the `On…` events.
 */
module Profile {
  import opened Wrappers
  import opened Text

  /** The dialog's steps: "select_method", "enter_otp", "enter_password". */
  datatype Step = SelectMethod | EnterOtp | EnterPassword

  const OtpLength: nat := 6

  /** What a button asks of the authentication service, or the message it shows instead. */
  datatype Request =
    | VerifyPhone(phoneNumber: string)
    | PhoneMissing
    | SendResetEmail(email: string)
    | EmailMissing
    | SignInWithCode(verificationId: string, code: string)
    | CodeTooShort
    | UpdatePassword(password: string)
    | PasswordsDiffer

  /** `removePrefix("0")`: drops one leading zero. */
  function RemoveLeadingZero(s: string): (r: string)
    ensures StartsWith(s, "0") ==> r == s[1..]
    ensures !StartsWith(s, "0") ==> r == s
  {
    if |s| > 0 && s[0] == '0' then s[1..] else s
  }

  /** A number already in international form is kept; otherwise "+84" replaces one leading zero. */
  function FormatPhone(phone: string): (r: string)
    ensures StartsWith(r, "+")
    ensures StartsWith(phone, "+") ==> r == phone
    ensures !StartsWith(phone, "+") ==> StartsWith(r, "+84") && r[3..] == RemoveLeadingZero(phone)
  {
    if StartsWith(phone, "+") then phone else "+84" + RemoveLeadingZero(phone)
  }

  /** Formatting a formatted number changes nothing. */
  lemma FormatPhoneIdempotent(phone: string)
    ensures FormatPhone(FormatPhone(phone)) == FormatPhone(phone)
  {
  }

  /** A national number loses its trunk zero to the country code; one without it only gains the code. */
  lemma FormatPhoneNational(phone: string)
    requires |phone| > 0 && phone[0] != '+'
    ensures phone[0] == '0' ==> FormatPhone(phone) == "+84" + phone[1..] && |FormatPhone(phone)| == |phone| + 2
    ensures phone[0] != '0' ==> FormatPhone(phone) == "+84" + phone && |FormatPhone(phone)| == |phone| + 3
  {
    assert !StartsWith(phone, "+");
    if phone[0] == '0' {
      assert StartsWith(phone, "0");
    }
  }

  lemma FormatPhoneExample()
    ensures FormatPhone("0912345678") == "+84912345678"
    ensures FormatPhone("+84912345678") == "+84912345678"
  {
    FormatPhoneNational("0912345678");
    assert StartsWith("+84912345678", "+");
  }

  /** The change-password dialog's state. */
  class ChangePasswordDialog {
    var show: bool
    var step: Step
    var otp: string
    var newPassword: string
    var confirmPassword: string
    var verificationId: string

    /** The code field never holds more than six characters. */
    ghost predicate Valid()
      reads this
    {
      |otp| <= OtpLength
    }

    /** Closed, at the first step, every field empty. */
    predicate Cleared()
      reads this
    {
      !show && step == SelectMethod && otp == "" && newPassword == "" &&
      confirmPassword == "" && verificationId == ""
    }

    constructor ()
      ensures Valid() && Cleared()
    {
      show := false;
      step := SelectMethod;
      otp := "";
      newPassword := "";
      confirmPassword := "";
      verificationId := "";
    }

    /** The "change password" button on the profile: the dialog opens where it was left. */
    method Open()
      requires Valid()
      modifies this
      ensures Valid() && show
      ensures step == old(step) && otp == old(otp) && newPassword == old(newPassword)
      ensures confirmPassword == old(confirmPassword) && verificationId == old(verificationId)
    {
      show := true;
    }

    /** Dismissing or cancelling the dialog: close it, back to the first step, clear every field. */
    method Cancel()
      requires Valid()
      modifies this
      ensures Valid() && Cleared()
    {
      show := false;
      step := SelectMethod;
      otp := "";
      newPassword := "";
      confirmPassword := "";
      verificationId := "";
    }

    /** "Send code by phone": a code is requested, for the formatted number, only when there is a number. */
    method RequestCode(phone: string) returns (req: Request)
      ensures phone != "" ==> req == VerifyPhone(FormatPhone(phone))
      ensures phone == "" ==> req == PhoneMissing
      ensures req.VerifyPhone? ==> StartsWith(req.phoneNumber, "+")
    {
      if |phone| > 0 {
        var formattedPhone := if StartsWith(phone, "+") then phone else "+84" + RemoveLeadingZero(phone);
        req := VerifyPhone(formattedPhone);
      } else {
        req := PhoneMissing;
      }
    }

    /** "Send reset e-mail": only for a user with an address. */
    method RequestResetEmail(email: Option<string>) returns (req: Request)
      ensures email.Some? ==> req == SendResetEmail(email.value)
      ensures email.None? ==> req == EmailMissing
    {
      match email {
        case Some(address) => req := SendResetEmail(address);
        case None => req := EmailMissing;
      }
    }

    /** The reset e-mail was sent: the dialog closes and keeps its step and fields. */
    method OnResetEmailSent()
      requires Valid()
      modifies this
      ensures Valid() && !show
      ensures step == old(step) && otp == old(otp) && newPassword == old(newPassword)
      ensures confirmPassword == old(confirmPassword) && verificationId == old(verificationId)
    {
      show := false;
    }

    /** The code was sent: remember the verification id and ask for the code. */
    method OnCodeSent(verId: string)
      requires Valid()
      modifies this
      ensures Valid() && step == EnterOtp && verificationId == verId
      ensures show == old(show) && otp == old(otp) && newPassword == old(newPassword)
      ensures confirmPassword == old(confirmPassword)
    {
      verificationId := verId;
      step := EnterOtp;
    }

    /** Typing in the code field: an edit that would make it longer than six characters is ignored. */
    method EditOtp(s: string)
      requires Valid()
      modifies this
      ensures Valid()
      ensures |s| <= OtpLength ==> otp == s
      ensures |s| > OtpLength ==> otp == old(otp)
      ensures show == old(show) && step == old(step) && newPassword == old(newPassword)
      ensures confirmPassword == old(confirmPassword) && verificationId == old(verificationId)
    {
      if |s| <= OtpLength {
        otp := s;
      }
    }

    method EditNewPassword(s: string)
      requires Valid()
      modifies this
      ensures Valid() && newPassword == s
      ensures show == old(show) && step == old(step) && otp == old(otp)
      ensures confirmPassword == old(confirmPassword) && verificationId == old(verificationId)
    {
      newPassword := s;
    }

    method EditConfirmPassword(s: string)
      requires Valid()
      modifies this
      ensures Valid() && confirmPassword == s
      ensures show == old(show) && step == old(step) && otp == old(otp)
      ensures newPassword == old(newPassword) && verificationId == old(verificationId)
    {
      confirmPassword := s;
    }

    /**
     * The confirm button, which the first step does not show: submit a full
     * six-character code, or a non-empty new password matching its confirmation.
     */
    method Confirm() returns (req: Request)
      requires Valid() && step != SelectMethod
      ensures step == EnterOtp && |otp| == OtpLength ==> req == SignInWithCode(verificationId, otp)
      ensures step == EnterOtp && |otp| < OtpLength ==> req == CodeTooShort
      ensures step == EnterPassword && newPassword != "" && newPassword == confirmPassword ==>
        req == UpdatePassword(newPassword)
      ensures step == EnterPassword && (newPassword == "" || newPassword != confirmPassword) ==>
        req == PasswordsDiffer
      ensures req.SignInWithCode? ==> |req.code| == OtpLength
      ensures req.UpdatePassword? ==> req.password != "" && req.password == confirmPassword
    {
      match step {
        case EnterOtp =>
          if |otp| == OtpLength {
            req := SignInWithCode(verificationId, otp);
          } else {
            req := CodeTooShort;
          }
        case EnterPassword =>
          if |newPassword| > 0 && newPassword == confirmPassword {
            req := UpdatePassword(newPassword);
          } else {
            req := PasswordsDiffer;
          }
      }
    }

    /** The code was accepted: ask for the new password. */
    method OnCodeAccepted()
      requires Valid()
      modifies this
      ensures Valid() && step == EnterPassword
      ensures show == old(show) && otp == old(otp) && newPassword == old(newPassword)
      ensures confirmPassword == old(confirmPassword) && verificationId == old(verificationId)
    {
      step := EnterPassword;
    }

    /** The password was changed: close and clear as a cancel does. */
    method OnPasswordUpdated()
      requires Valid()
      modifies this
      ensures Valid() && Cleared()
    {
      Cancel();
    }
  }
}
