# chatFE core, modelled in Dafny

This project models the logic behind the chatFE Angular front end. It covers seven parts:

- the chat state service and the chat landing page;
- the authentication service and its use of `localStorage`;
- the HTTP interceptor that adds the bearer token and logs out on 401;
- the route guard;
- the login and OTP verification pages with their form validation;
- the dashboard page and the dashboard data service, with its retry and fallback.

The Angular runtime is replaced by explicit inputs:

- An asynchronous HTTP call is split in two. One method builds the request. A second method takes the reply as a parameter (`HttpReply` is `Success(body)` or `Failure(response)`) and does what the subscriber or `catchError` callback does.
- The clock (`new Date()`, `Date.now()`), the random device token, the browser window width, the `Validators.email` test and `new Date(string)` are parameters.
- `localStorage` and the `Router` are small classes. Their state is a map and a list of navigations.
- `JSON.stringify`/`JSON.parse` of the stored user are a string encoder and decoder. A proved round trip connects them.

Classes and methods model the services and components, whose fields the source updates in place. Each method's `modifies` clause names the fields it may change, and its postconditions give their new values. Functions and lemmas model the pure parts:

- the initial chat data;
- `findIndex` and the unread reset;
- the time format;
- the trimmed-blank test;
- the validators' error texts;
- the user JSON;
- the status counts;
- the mock data;
- the error handlers.

Where the code and the design description disagree, the model follows the code:

- A successful `login` marks the session authenticated at once. It stores the returned `verifyToken` as `auth_token` (`auth.service.ts:182,196`). There is no intermediate "pending verification" state. `verify` touches neither storage nor the session (`auth.service.ts:143-152`). If the verify token is empty, the broadcast flag is true while `isAuthenticated()` is false (`Auth.AuthService.OnLoginReply`).
- The chat landing page keeps its own copies of the chat data. Its `selectChat` does not reset unread counters. Only the service's `setActiveConversation` does.
- The dashboard page falls back to its sample data on every error. The dashboard service is meant to fall back only on status 404 or 0 (see Findings).

## Model

| member | source | states |
|---|---|---|
| Decimal.ParseShow | src/app/auth.service.ts:219 | the decimal text written for a status code (and for clock hours) reads back as the same number |
| Decimal.ShowLength | src/app/chat.service.ts:226-232 | a number has a one-digit decimal text exactly when it is below 10, and a two-digit text from 10 to 99 |
| JsText.BlankIffAllWhitespace | src/app/chat.service.ts:173 | `content.trim()` is empty exactly when every character of the content is JavaScript whitespace or a line terminator |
| Clock.DisplayHour | src/app/chat.service.ts:226-227 | the displayed hour is between 1 and 12 and agrees with the 24-hour hour modulo 12 |
| Clock.PadMinutes | src/app/chat.service.ts:230 | the minutes are always two digits, read back as the minute, with a leading zero exactly when the minute is below 10 |
| Clock.FormatTimeFields | src/app/chat.service.ts:219-233 | a formatted time has an hour field 1..12 (12 exactly for 0 and 12 o'clock), a two-digit minute field, and "PM" exactly for hours 12..23, otherwise "AM" |
| Clock.ParseFormatTime | src/app/chat.service.ts:219-233 | the "h:mm AM/PM" text is decoded back to the same 24-hour hour and minute |
| Clock.FormatTimeInjective | src/app/chat.service.ts:219-233 | two different clock readings never give the same timestamp text |
| Clock.FormatTime | src/app/chat.service.ts:219-233 | the time text is seven characters, eight exactly when the hour shown has two digits (10, 11, 12); its fields are characterised by `Clock.FormatTimeFields` and `Clock.ParseFormatTime`; the landing page's `formatCurrentTime` (chat-landing.component.ts:193-207) is the same function |
| Chat.FindIndex | src/app/chat.service.ts:139 | the result is the position of the first user with the id, or -1 exactly when no user has it |
| Chat.ClearUnread | src/app/chat.service.ts:135-147 | the list keeps its length; only the first user with the id changes, and only to an unread count of 0 |
| Chat.ClearUnreadFound | src/app/chat.service.ts:135-147 | after the reset the ids are the same, the same user is found first, its count is 0, and a second reset changes nothing |
| Chat.Select | src/app/chat.service.ts:131-160 | selecting a user makes it active, resets the joined flag, clears its unread count in both lists, and keeps the message log when that user was already active, otherwise shows one placeholder message |
| Chat.MessagesForUser | src/app/chat.service.ts:198-216 | the open conversation keeps its log; any other gets one read placeholder message with id 1 from that user; sequential ids are kept either way |
| Chat.SelectIdempotent | src/app/chat.service.ts:131-160 | selecting the same user twice leaves the state of one selection |
| Chat.SelectKeepsOtherCounters | src/app/chat.service.ts:135-147 | every group-list user with another id keeps its record, unread count included |
| Chat.Join | src/app/chat.service.ts:163-169 | joining sets the joined flag and changes nothing else |
| Chat.Send | src/app/chat.service.ts:172-188 | blank content leaves the state as it was; otherwise exactly one unread message is appended, with the next id, the sender, the content and the formatted time |
| Chat.OperationsKeepSequentialIds | src/app/chat.service.ts:177 | message ids stay 1, 2, 3, … through selection, joining and sending |
| Chat.ChatService.constructor | src/app/chat.service.ts:36-118 | the service starts from the demo state (four group users, four direct users, Deepika Sharma active, one message, not joined), whose ids are sequential |
| Chat.ChatService.SetActiveConversation | src/app/chat.service.ts:131-160 | the new state is the selection of the user in the old state |
| Chat.ChatService.JoinChat | src/app/chat.service.ts:163-169 | the new state is the old one with the joined flag set |
| Chat.ChatService.SendMessage | src/app/chat.service.ts:172-188 | the new state is the old one with the message sent, and the ids stay sequential |
| ChatLanding.ChatLandingComponent.constructor | src/app/chat-landing/chat-landing.component.ts:28-123 | the page starts with empty inputs, not joined, not mobile, the current user "PCP", and the same demo users, active conversation and message as the service |
| ChatLanding.ChatLandingComponent.NgOnInit | src/app/chat-landing/chat-landing.component.ts:133-136 | initialisation only recomputes the mobile flag |
| ChatLanding.ChatLandingComponent.CheckIfMobile | src/app/chat-landing/chat-landing.component.ts:138-140 | the page is mobile exactly when the window is narrower than 768 pixels |
| ChatLanding.ChatLandingComponent.OnResize | src/app/chat-landing/chat-landing.component.ts:125-129 | a resize records the new width and recomputes the mobile flag |
| ChatLanding.ChatLandingComponent.SelectChat | src/app/chat-landing/chat-landing.component.ts:142-150 | selecting a chat changes only the active conversation |
| ChatLanding.ChatLandingComponent.SendMessage | src/app/chat-landing/chat-landing.component.ts:152-177 | a blank draft changes nothing; otherwise one message from the current user is appended with the next id and the formatted time, and the draft is cleared |
| ChatLanding.ChatLandingComponent.JoinChat | src/app/chat-landing/chat-landing.component.ts:179-191 | joining only sets the joined flag |
| ChatLanding.ChatLandingComponent.IsUserMessage | src/app/chat-landing/chat-landing.component.ts:210-212 | a message is the user's own exactly when its sender is user 1, the signed-in PCP user |
| Http.ShownError | src/app/login/login.component.ts:75-79 | a thrown string is shown verbatim, anything else shows the fallback text |
| UserJson.ParseStringify | src/app/auth.service.ts:206-209 | the stored user text decodes back to exactly the user that was stored |
| UserJson.StringifyNonEmpty | src/app/auth.service.ts:208 | the stored user text is never empty, so reading it back always takes the parse branch |
| UserJson.Stringify | src/app/auth.service.ts:193 | the stored user text is a JSON object: it opens with `{` and closes with `}`; `UserJson.ParseStringify` shows it loses nothing |
| UserJson.ParseUser | src/app/auth.service.ts:208 | only text that opens an object decodes to a user; what the encoder wrote decodes back exactly (`UserJson.ParseStringify`) |
| Auth.SessionUserOf | src/app/auth.service.ts:185-191 | the session user's name is the first name, a space and the last name; id, e-mail, role name and picture are copied |
| Auth.LoginThenRead | src/app/auth.service.ts:180-209 | after a login the stored user reads back as the session user of the profile, the session counts as authenticated exactly when the verify token is non-empty, and no other key changes |
| Auth.LogoutThenRead | src/app/auth.service.ts:154-163 | after logout the session is not authenticated and no user is stored, every other key keeps its value, and a second logout changes nothing |
| Auth.HandleError | src/app/auth.service.ts:211-222 | a client-side error throws its message; a server error throws its message when that is a non-empty string, throws the message value itself (not a string) when it is a truthy non-string, and otherwise throws "Error Code: " with the status in decimal |
| Auth.AuthService.constructor | src/app/auth.service.ts:123-128 | the session flag and the current user start from what storage holds |
| Auth.AuthService.GetToken | src/app/auth.service.ts:168-170 | the token is present exactly when `auth_token` is stored, and is the stored text |
| Auth.AuthService.IsAuthenticated | src/app/auth.service.ts:172-174 | the session is authenticated exactly when a token is stored and it is not empty |
| Auth.AuthService.GetCurrentUser | src/app/auth.service.ts:176-178 | the user is decoded from `user_data` exactly when that text is stored and non-empty, and is then what the text decodes to; otherwise there is no user |
| Auth.UserFromStorage | src/app/auth.service.ts:206-209 | the user is decoded from `user_data` exactly when that text is stored and non-empty, and is then what the text decodes to; otherwise there is no user |
| Auth.AuthService.OnLoginReply | src/app/auth.service.ts:135-141 | a successful reply stores and broadcasts the session and returns the response; a failure changes nothing and fails with the handled message |
| Auth.AuthService.HandleLoginSuccess | src/app/auth.service.ts:180-198 | storage holds the verify token and the encoded session user, and both are broadcast |
| Auth.AuthService.OnVerifyReply | src/app/auth.service.ts:143-152 | verification changes no session state; it passes the body on or fails with what the error handler throws |
| Auth.AuthService.Logout | src/app/auth.service.ts:154-166 | the three keys are removed, the session is cleared and the browser is sent to /login |
| Interceptor.WithBearer | src/app/auth.interceptor.ts:25-34 | a non-empty token adds "Authorization: Bearer <token>" and changes nothing else; without one the request is unchanged |
| Interceptor.BearerRecoversToken | src/app/auth.interceptor.ts:28-34 | the token can be read back from the header that was added |
| Interceptor.AuthInterceptor.Intercept | src/app/auth.interceptor.ts:23-47 | the reply is passed on unchanged; a 401 logs out first, any other reply leaves storage and the session as they were |
| Guard.AuthGuard.CanActivate | src/app/auth.guard.ts:21-35 | navigation is allowed exactly when the session is authenticated; otherwise the browser goes to /login with the requested URL as returnUrl |
| Forms.EmailErrors | src/app/login/login.component.ts:34 | the e-mail field is required and must look like an e-mail address |
| Forms.PasswordErrors | src/app/login/login.component.ts:35 | the password is required and must be at least 6 JavaScript characters, counted in UTF-16 units so a character above U+FFFF counts twice |
| Forms.OtpErrors | src/app/verification/verification.component.ts:37 | the OTP is required and must be exactly four decimal digits |
| Forms.EmailErrorText | src/app/login/login.component.ts:104-112 | an untouched or valid field shows nothing; otherwise the required message when empty, else the format message |
| Forms.PasswordErrorText | src/app/login/login.component.ts:114-122 | an untouched or valid field shows nothing; otherwise the required message when empty, else the length message (length in UTF-16 units) |
| Forms.OtpErrorText | src/app/verification/verification.component.ts:74-82 | an untouched or valid field shows nothing; otherwise the required message when empty, else the four-digit message |
| Forms.AstralPasswordAccepted | src/app/login/login.component.ts:35 | three characters above U+FFFF (six UTF-16 units) pass the password rule |
| Login.LoginComponent.constructor | src/app/login/login.component.ts:14-23 | the page starts not submitting, with no error, a hidden password and no form yet |
| Login.LoginComponent.NgOnInit | src/app/login/login.component.ts:25-37 | an authenticated session is sent to /chat, gets no form and keeps every field; otherwise the form is built empty and untouched with no navigation; the password visibility, busy flag and error are never touched |
| Login.LoginComponent.OnSubmit | src/app/login/login.component.ts:40-58 | an invalid form or a request in flight changes nothing; otherwise the e-mail, password, device token and device type 0 are sent, the page is busy and the error cleared; what is sent always passes the validators |
| Login.LoginComponent.OnLoginReply | src/app/login/login.component.ts:59-80 | success signs the session in (token and user stored, authenticated, current user set), stores the e-mail under remember_email when ticked and navigates to /verify with the verify token; failure shows the thrown message when it is a string and "Invalid email or password. Please try again." otherwise (always for a non-string server message), leaving storage and session as they were; the page is no longer busy either way |
| Login.LoginComponent.TogglePasswordVisibility | src/app/login/login.component.ts:83-85 | the password visibility flips |
| Login.LoginComponent.EmailError | src/app/login/login.component.ts:104-112 | the e-mail message is empty exactly when the control is untouched or passes its validators |
| Login.LoginComponent.PasswordError | src/app/login/login.component.ts:114-122 | the password message is empty exactly when the control is untouched or passes its validators |
| Verification.VerificationComponent.NgOnInit | src/app/verification/verification.component.ts:26-39 | a missing or empty token query parameter sends the page back to /login; the OTP form is built empty either way |
| Verification.VerificationComponent.OnSubmit | src/app/verification/verification.component.ts:41-53 | an invalid code or a request in flight changes nothing; otherwise the stored token and the code are sent, and the code sent is always four digits |
| Verification.VerificationComponent.OnVerifyReply | src/app/verification/verification.component.ts:54-68 | success navigates to /chat; failure shows the thrown message when it is a string and "Invalid verification code. Please try again." otherwise (always for a non-string server message); the page is no longer busy either way |
| Verification.VerificationComponent.OtpError | src/app/verification/verification.component.ts:74-82 | the code's message is empty exactly when the control is untouched or the form is valid |
| Verification.VerificationComponent.constructor | src/app/verification/verification.component.ts:14-24 | the page starts with no verify token, not submitting and with no error |
| DashboardData.MockData | src/app/dashboard/dashboard.component.ts:92-129 | five sample items with ids 1..5 and statuses active, active, warning, error, inactive; the first two updated now, the others one, two and three days earlier |
| DashboardData.CountStatus | src/app/dashboard/dashboard.component.ts:70-75 | a status count never exceeds the number of items and is zero exactly when no item has the status |
| DashboardData.CountsWithinTotal | src/app/dashboard/dashboard.component.ts:70-75 | the active, warning and error counts together never exceed the total |
| DashboardData.WithDates | src/app/dashboard/dashboard.component.ts:55-61 | the success mapping keeps the length and order of the items and copies every field but the date, which becomes the parsed date of the same item; the service's own mapping (dashboard.service.ts:27-33) is the same function |
| DashboardData.CountWithDates | src/app/dashboard/dashboard.component.ts:55-61 | converting the dates keeps every status count |
| DashboardData.MockCounts | src/app/dashboard/dashboard.component.ts:92-129 | the sample data counts 5 items: 2 active, 1 warning, 1 error |
| DashboardData.StatusClass | src/app/dashboard/dashboard.component.ts:82-90 | each of the four known statuses gets the class "status-" followed by the status; any other status gets no class |
| DashboardPage.LoadDashboard | src/app/dashboard/dashboard.component.ts:51-67 | the load never fails: the dated items on success, the sample items on any error |
| DashboardPage.DashboardComponent.constructor | src/app/dashboard/dashboard.component.ts:19-28 | the page starts loading, with no items, no error and counts that match the (empty) items |
| DashboardPage.DashboardComponent.CalculateStats | src/app/dashboard/dashboard.component.ts:70-75 | the four counters are the item count and the three status counts |
| DashboardPage.DashboardComponent.FetchDashboardData | src/app/dashboard/dashboard.component.ts:36-49 | after a load the items are those the service delivers, the stats match them, loading stops and the error flag is untouched; an error reply gives 5 items, 2 active, 1 warning, 1 error |
| DashboardPage.DashboardComponent.OnFetchError | src/app/dashboard/dashboard.component.ts:43-47 | the error callback stops loading and sets the error flag |
| DashboardPage.DashboardComponent.RefreshData | src/app/dashboard/dashboard.component.ts:77-80 | a refresh starts loading again and keeps the stats consistent; the fetch that follows is `FetchDashboardData` |
| DashboardApi.HandleError | src/app/dashboard/dashboard.service.ts:39-61 | status 404 or 0 gives the sample data; any other status fails with the fixed message |
| DashboardApi.HandleErrorAsWritten | src/app/dashboard/dashboard.service.ts:35 | the handler passed unbound never produces the sample data |
| DashboardApi.UnboundHandlerLosesFallback | src/app/dashboard/dashboard.service.ts:35-55 | on status 404 or 0 the as-written handler fails where the intended one gives the sample data; on every other status the two agree |
| DashboardApi.NotFoundCounterexample | src/app/dashboard/dashboard.service.ts:52-54 | a 404 reply yields the sample data in the intended handler but an error as written |
| DashboardApi.DeliveredAttempt | src/app/dashboard/dashboard.service.ts:26 | the reply delivered is the first successful attempt within the retries, or the last attempt |
| DashboardApi.DeliveredAttemptBounded | src/app/dashboard/dashboard.service.ts:26 | only attempts up to the retry bound influence the outcome |
| DashboardApi.GetDashboardData | src/app/dashboard/dashboard.service.ts:23-37 | a delivered success gives the items with parsed dates; a delivered failure goes to the error handler |
| DashboardApi.AtMostThreeAttempts | src/app/dashboard/dashboard.service.ts:26 | two request functions that agree on the first three attempts give the same result |

## Left out

- HTTP transport, observables, subjects and `finalize`: each request/reply pair is two methods; a `BehaviorSubject` is the field that holds its last value.
- `searchConversations` in the chat service and `goBack` on the landing page: they only write to the console.
- Console logging and the `setTimeout` scroll and focus calls. The page title is a constant the logic never reads. The landing page's `searchQuery` field (chat-landing.component.ts:29) is kept with its empty initial value; nothing in the component's code reads it.
- `generateDeviceToken` is random: the token is a parameter of `Login.LoginComponent.OnSubmit`.
- The clock (`new Date()`, `Date.now()`): hours and minutes, or milliseconds, are parameters.
- `Validators.email` is an Angular regular expression: it is the `looksLikeEmail` parameter.
- `new Date(string)` in the dashboard service is the `parseDate` parameter; an invalid date is not modelled.
- UserJson.ParseUser: reads only the layout the encoder writes. Other JSON text gives `None`: extra whitespace, another key order, other fields. A `\u` escape of a surrogate code unit (U+D800 to U+DFFF, so also an escaped surrogate pair) gives `None` too, where `JSON.parse` decodes it; Dafny characters cannot hold a lone surrogate. Malformed text gives `None` where `JSON.parse` throws.
- Http.ErrorBody: a truthy non-string `message` in an error body is not carried as a value, only as the `ServerValue` case; both pages show their fixed text for it whatever it holds.
- The `!control` branches of the error getters: the controls always exist once the form is built.
- Login.LoginComponent.OnSubmit: requires the form to be built; after the redirect in `ngOnInit` the source has no form and would throw.
- A repeated `token` query parameter (an array) and later query-parameter emissions on the verification page.
- Case-insensitive header names and lazy header cloning of Angular's `HttpHeaders`: headers are a map.
- Interceptor and services are separate operations: a 401 on the login call, which both logs out and reaches the login error handler, is not modelled as one step.
- The router injected into the interceptor is unused there and left out.
- `ngOnInit` of the dashboard page only calls the fetch, which is modelled.
- `app.module.ts` and `app-routing.module.ts`: configuration only.
- Inbound messages, rooms and presence: the code has no such feature.

## Findings

| source | as written | input that shows it | evidently intended | confidence | as-written member | corrected member |
|---|---|---|---|---|---|---|
| src/app/dashboard/dashboard.service.ts:35 | `catchError` is given the `handleError` method unbound, so `this` is undefined inside it and the call to `getMockData()` at line 54 throws a TypeError instead of returning the sample data | an error reply with status 404 (or 0) | status 404 and 0 fall back to the sample dashboard items | not executed | DashboardApi.HandleErrorAsWritten | DashboardApi.HandleError |
