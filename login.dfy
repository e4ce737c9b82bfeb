/** The login page (src/app/login/login.component.ts). */
module Login {
  import opened Wrappers
  import opened Http
  import opened Browser
  import opened Forms
  import opened JsText
  import opened Auth

  /** `getDeviceType()`: 0 stands for the web. */
  const DeviceTypeWeb := 0
  const LoginFailedText := "Invalid email or password. Please try again."
  const RememberEmailKey := "remember_email"

  /** The keys a successful sign-in leaves in the store: the session keys, and the email
      under `remember_email` when "remember me" is ticked. */
  function AfterSignIn(items: map<string, string>, p: Profile, rememberMe: bool, email: string): map<string, string> {
    var written := LoggedIn(items, p);
    if rememberMe then written[RememberEmailKey := email] else written
  }

  class LoginComponent {
    const auth: AuthService
    const router: Router
    /** The email validator's test, which the model does not open up. */
    const looksLikeEmail: string -> bool
    var formBuilt: bool
    var isSubmitting: bool
    var errorMessage: string
    var isPasswordVisible: bool
    // The form's controls: their values and whether the user has touched them.
    var email: string
    var password: string
    var rememberMe: bool
    var emailTouched: bool
    var passwordTouched: bool

    constructor(auth: AuthService, router: Router, looksLikeEmail: string -> bool)
      ensures this.auth == auth && this.router == router && this.looksLikeEmail == looksLikeEmail
      ensures !formBuilt && !isSubmitting && errorMessage == "" && !isPasswordVisible
    {
      this.auth, this.router, this.looksLikeEmail := auth, router, looksLikeEmail;
      formBuilt, isSubmitting, errorMessage, isPasswordVisible := false, false, "", false;
      email, password, rememberMe, emailTouched, passwordTouched := "", "", false, false, false;
    }

    /** A signed-in visitor is sent on to the chat and no form is built; everyone else
        gets an empty, untouched form. */
    method NgOnInit()
      modifies this`formBuilt, this`email, this`password, this`rememberMe, this`emailTouched, this`passwordTouched, router
      ensures old(auth.IsAuthenticated()) ==>
        && router.navigations == old(router.navigations) + [Navigation("/chat", map[])]
        && formBuilt == old(formBuilt) && email == old(email) && password == old(password)
        && rememberMe == old(rememberMe) && emailTouched == old(emailTouched) && passwordTouched == old(passwordTouched)
      ensures !old(auth.IsAuthenticated()) ==>
        && router.navigations == old(router.navigations)
        && formBuilt && email == "" && password == "" && !rememberMe
        && !emailTouched && !passwordTouched
      ensures isSubmitting == old(isSubmitting) && errorMessage == old(errorMessage)
    {
      if auth.IsAuthenticated() {
        router.Navigate("/chat", map[]);
        return;
      }
      formBuilt := true;
      email, password, rememberMe, emailTouched, passwordTouched := "", "", false, false, false;
    }

    /** `!loginForm.invalid` */
    predicate FormValid()
      reads this
    {
      EmailErrors(email, looksLikeEmail) == {} && PasswordErrors(password) == {}
    }

    /** The synchronous part of `onSubmit`: nothing while the form is invalid or a request
        is in flight; otherwise the request is sent, the page marked busy and the old error
        cleared. `deviceToken` stands for the random token the page generates. */
    method OnSubmit(deviceToken: string) returns (sent: Option<LoginRequest>)
      requires formBuilt
      modifies this`isSubmitting, this`errorMessage
      ensures !FormValid() || old(isSubmitting) ==>
        sent == None && isSubmitting == old(isSubmitting) && errorMessage == old(errorMessage)
      ensures FormValid() && !old(isSubmitting) ==>
        && sent == Some(LoginRequest(email, password, deviceToken, DeviceTypeWeb))
        && isSubmitting && errorMessage == ""
      ensures sent.Some? ==>
        sent.value.email != "" && looksLikeEmail(sent.value.email) && Utf16Length(sent.value.password) >= MinPasswordLength
    {
      if !FormValid() || isSubmitting {
        return None;
      }
      isSubmitting := true;
      errorMessage := "";
      sent := Some(LoginRequest(email, password, deviceToken, DeviceTypeWeb));
    }

    /** The reply to the request `OnSubmit` sent, through the service's `login`, the
        page's callbacks and `finalize`. Success goes on to the verification page carrying
        the verify token; failure shows the thrown message when it is a string and the
        page's fixed text otherwise. Either way the page is no longer busy. */
    method OnLoginReply(request: LoginRequest, reply: HttpReply<LoginResponse>)
      modifies this`isSubmitting, this`errorMessage, auth, auth.storage, router
      ensures !isSubmitting
      ensures reply.Success? ==>
        && auth.storage.items == AfterSignIn(old(auth.storage.items), reply.body.response, rememberMe, request.email)
        && router.navigations == old(router.navigations) + [Navigation("/verify", map["token" := reply.body.response.verifyToken])]
        && auth.authenticated && auth.currentUser == Some(SessionUserOf(reply.body.response))
        && errorMessage == old(errorMessage)
      ensures reply.Failure? ==>
        && errorMessage == ShownError(HandleError(reply.response), LoginFailedText)
        && auth.storage.items == old(auth.storage.items)
        && auth.authenticated == old(auth.authenticated) && auth.currentUser == old(auth.currentUser)
        && router.navigations == old(router.navigations)
      ensures reply.Failure? && reply.response.error.ServerValue? ==> errorMessage == LoginFailedText
    {
      var result := auth.OnLoginReply(reply);
      match result {
        case Ok(response) =>
          if rememberMe {
            auth.storage.SetItem(RememberEmailKey, request.email);
          }
          router.Navigate("/verify", map["token" := response.response.verifyToken]);
        case Err(thrown) =>
          errorMessage := ShownError(thrown, LoginFailedText);
      }
      isSubmitting := false;
    }

    method TogglePasswordVisibility()
      modifies this`isPasswordVisible
      ensures isPasswordVisible == !old(isPasswordVisible)
    {
      isPasswordVisible := !isPasswordVisible;
    }

    /** The e-mail message shows only once the control is touched and invalid. */
    function EmailError(): (r: string)
      reads this
      ensures r == "" <==> !emailTouched || EmailErrors(email, looksLikeEmail) == {}
    {
      EmailErrorText(email, emailTouched, looksLikeEmail)
    }

    /** The password message shows only once the control is touched and invalid. */
    function PasswordError(): (r: string)
      reads this
      ensures r == "" <==> !passwordTouched || PasswordErrors(password) == {}
    {
      PasswordErrorText(password, passwordTouched)
    }
  }
}
