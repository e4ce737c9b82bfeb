/** The HTTP interceptor: adds the bearer credential to every outgoing request and signs
    the user out when a reply says 401 (src/app/auth.interceptor.ts). */
module Interceptor {
  import opened Wrappers
  import opened Http
  import opened Browser
  import opened Auth

  const AuthorizationHeader := "Authorization"
  const BearerPrefix := "Bearer "
  const Unauthorized := 401

  /** A token counts only when it is present and not the empty string (`if (token)`). */
  predicate Usable(token: Option<string>) {
    token.Some? && token.value != ""
  }

  /** `request.clone({ setHeaders: { Authorization: ... } })` when there is a usable
      token, the request itself otherwise. Only the Authorization header can differ. */
  function WithBearer(token: Option<string>, request: HttpRequest): (r: HttpRequest)
    ensures r.httpMethod == request.httpMethod && r.url == request.url && r.body == request.body
    ensures forall k :: k != AuthorizationHeader ==>
      (k in r.headers <==> k in request.headers) && (k in r.headers ==> r.headers[k] == request.headers[k])
    ensures Usable(token) ==>
      AuthorizationHeader in r.headers && r.headers[AuthorizationHeader] == BearerPrefix + token.value
    ensures !Usable(token) ==> r == request
  {
    if Usable(token) then
      request.(headers := request.headers[AuthorizationHeader := BearerPrefix + token.value])
    else request
  }

  /** The token can be read back from the header it produced. */
  lemma BearerRecoversToken(token: Option<string>, request: HttpRequest)
    requires Usable(token)
    ensures var h := WithBearer(token, request).headers[AuthorizationHeader];
      h[..|BearerPrefix|] == BearerPrefix && h[|BearerPrefix|..] == token.value
  {
    var h := WithBearer(token, request).headers[AuthorizationHeader];
    assert h == BearerPrefix + token.value;
  }

  class AuthInterceptor {
    const auth: AuthService

    constructor(auth: AuthService)
      ensures this.auth == auth
    {
      this.auth := auth;
    }

    /** `intercept(request, next)`, where `reply` is what the rest of the chain answers
        to the forwarded request. The reply is passed on unchanged; a 401 first logs out,
        any other reply leaves the session as it was. */
    method Intercept<T>(request: HttpRequest, reply: HttpReply<T>) returns (forwarded: HttpRequest, result: HttpReply<T>)
      modifies auth, auth.storage, auth.router
      ensures forwarded == WithBearer(old(auth.GetToken()), request)
      ensures result == reply
      ensures reply.Failure? && reply.response.status == Unauthorized ==>
        && auth.storage.items == LoggedOut(old(auth.storage.items))
        && !auth.authenticated && auth.currentUser == None && !auth.IsAuthenticated()
        && auth.router.navigations == old(auth.router.navigations) + [Navigation("/login", map[])]
      ensures !(reply.Failure? && reply.response.status == Unauthorized) ==>
        && auth.storage.items == old(auth.storage.items)
        && auth.authenticated == old(auth.authenticated) && auth.currentUser == old(auth.currentUser)
        && auth.router.navigations == old(auth.router.navigations)
    {
      var token := auth.GetToken();
      forwarded := WithBearer(token, request);
      if reply.Failure? && reply.response.status == Unauthorized {
        auth.Logout();
      }
      result := reply;
    }
  }
}
