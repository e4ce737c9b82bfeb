/** The one-time-code page that follows the login (src/app/verification/verification.component.ts). */
module Verification {
  import opened Wrappers
  import opened Http
  import opened Browser
  import opened Forms
  import opened Auth

  const VerifyFailedText := "Invalid verification code. Please try again."

  class VerificationComponent {
    const auth: AuthService
    const router: Router
    var verifyToken: string
    var isSubmitting: bool
    var errorMessage: string
    // The form's one control: its value and whether the user has touched it.
    var otp: string
    var otpTouched: bool

    constructor(auth: AuthService, router: Router)
      ensures this.auth == auth && this.router == router
      ensures verifyToken == "" && !isSubmitting && errorMessage == ""
    {
      this.auth, this.router := auth, router;
      verifyToken, isSubmitting, errorMessage := "", false, "";
      otp, otpTouched := "", false;
    }

    /** `tokenParam` is the `token` query parameter, when the URL has one. A missing or
        empty token leaves `verifyToken` empty and sends the browser back to the login
        page; the form is built either way. */
    method NgOnInit(tokenParam: Option<string>)
      modifies this`verifyToken, this`otp, this`otpTouched, router
      ensures verifyToken == (if tokenParam.Some? then tokenParam.value else "")
      ensures verifyToken == "" ==> router.navigations == old(router.navigations) + [Navigation("/login", map[])]
      ensures verifyToken != "" ==> router.navigations == old(router.navigations)
      ensures otp == "" && !otpTouched
    {
      verifyToken := if tokenParam.Some? && tokenParam.value != "" then tokenParam.value else "";
      if verifyToken == "" {
        router.Navigate("/login", map[]);
      }
      otp, otpTouched := "", false;
    }

    /** `!verifyForm.invalid` */
    predicate FormValid()
      reads this
    {
      OtpErrors(otp) == {}
    }

    /** The synchronous part of `onSubmit`: nothing while the code is invalid or a request
        is in flight; otherwise the stored token and the code as entered are sent. */
    method OnSubmit() returns (sent: Option<VerifyRequest>)
      modifies this`isSubmitting, this`errorMessage
      ensures !FormValid() || old(isSubmitting) ==>
        sent == None && isSubmitting == old(isSubmitting) && errorMessage == old(errorMessage)
      ensures FormValid() && !old(isSubmitting) ==>
        sent == Some(VerifyRequest(verifyToken, otp)) && isSubmitting && errorMessage == ""
      ensures sent.Some? ==> IsOtp(sent.value.otp)
    {
      if !FormValid() || isSubmitting {
        return None;
      }
      isSubmitting := true;
      errorMessage := "";
      sent := Some(VerifyRequest(verifyToken, otp));
    }

    /** The reply to the request `OnSubmit` sent, through the service's `verify`, the
        page's callbacks and `finalize`: success opens the chat, failure shows the
        thrown message when it is a string and the page's fixed text otherwise; the
        session itself is not changed. */
    method OnVerifyReply<T>(reply: HttpReply<T>)
      modifies this`isSubmitting, this`errorMessage, router
      ensures !isSubmitting
      ensures reply.Success? ==>
        router.navigations == old(router.navigations) + [Navigation("/chat", map[])] && errorMessage == old(errorMessage)
      ensures reply.Failure? ==>
        router.navigations == old(router.navigations) && errorMessage == ShownError(HandleError(reply.response), VerifyFailedText)
      ensures reply.Failure? && reply.response.error.ServerValue? ==> errorMessage == VerifyFailedText
    {
      var result := auth.OnVerifyReply(reply);
      match result {
        case Ok(_) =>
          router.Navigate("/chat", map[]);
        case Err(thrown) =>
          errorMessage := ShownError(thrown, VerifyFailedText);
      }
      isSubmitting := false;
    }

    /** The code's message shows only once the control is touched and the form invalid. */
    function OtpError(): (r: string)
      reads this
      ensures r == "" <==> !otpTouched || FormValid()
    {
      OtpErrorText(otp, otpTouched)
    }
  }
}
