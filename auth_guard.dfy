/** The route guard of the protected pages (src/app/auth.guard.ts). */
module Guard {
  import opened Browser
  import opened Auth

  const LoginPath := "/login"

  class AuthGuard {
    const auth: AuthService
    const router: Router

    constructor(auth: AuthService, router: Router)
      ensures this.auth == auth && this.router == router
    {
      this.auth := auth;
      this.router := router;
    }

    /** `canActivate` for the URL being opened: lets the navigation through exactly when
        the session is authenticated; otherwise sends the browser to the login page with
        that URL as `returnUrl`. The session is never touched. */
    method CanActivate(url: string) returns (allowed: bool)
      modifies router
      ensures allowed == auth.IsAuthenticated()
      ensures !allowed ==> router.navigations == old(router.navigations) + [Navigation(LoginPath, map["returnUrl" := url])]
      ensures allowed ==> router.navigations == old(router.navigations)
    {
      var isAuthenticated := auth.IsAuthenticated();
      if !isAuthenticated {
        router.Navigate(LoginPath, map["returnUrl" := url]);
        return false;
      }
      return true;
    }
  }
}
