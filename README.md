# Aranya: a verified model of the complaint app's core

Aranya is an Android app for reporting wildlife-related incidents. A user
signs up or logs in, optionally with Google. They fill in a complaint form
(title, description, incident date and time, location, category, severity,
witnesses, attachments). They can follow their own reports. Administrators
see every complaint, change its status and add remarks.

This project models the app's decision logic:

- the five view models: authentication, submit complaint, report detail, the
  user's report list and the admin's complaint list;
- the complaint record and its enumerations;
- the routes and the navigation host;
- the local state and the decisions of the four screens that act: submit
  complaint, report detail, sign up and log in.

It also proves what that logic promises:

- the role check fails closed;
- a submission uploads all its files or saves nothing;
- the incident's time of day round-trips through the time picker;
- a report route round-trips through `createRoute`;
- an update writes exactly four fields;
- each screen's controls are enabled exactly when the source says, except where two
  screen rules are corrected (see "## Findings").

Firebase Auth, Firestore, Cloudinary and the Google One Tap client are not
called. Each call's outcome is a parameter of the operation that makes it:
`CredentialOutcome`, `RoleLookup`, `FetchOutcome`, `QueryOutcome`, `WriteResult`, `FileAttempt` and `BeginOutcome`. The
view models are classes whose fields are the source's state flows and live
data. Each class also records what it asked of those services, as a trace
(documents fetched, updates written, uploads tried, login-success events).

Modules: `Common` holds string and list helpers. `ComplaintData` is the
record, `Routes` the screen routes, and `Navigation` the navigation host in
`MainActivity.kt`. `Auth`, `SubmitComplaint`, `ReportDetail` and `ReportList`
are the view models. `SubmitScreen`, `DetailScreen`, `SignUpScreen` and
`LoginScreen` are the screens.

## Model

| member | source | states |
|---|---|---|
| ComplaintData.FileTypeValueOf | app/src/main/java/com/project/aranya/data/ComplaintData.kt:39-44 | `valueOf` on the file-type names: a result names exactly the given string, and every type whose name it is is found |
| ComplaintData.EnumerationsClosed | app/src/main/java/com/project/aranya/data/ComplaintData.kt:12-44 | the four enumerations list all their constants (8 categories, 4 severities, 3 contact preferences, 4 file types) with distinct names |
| ComplaintData.DefaultFileReference | app/src/main/java/com/project/aranya/data/ComplaintData.kt:59-69 | the no-argument file reference: resource type "auto", file type RAW, zero bytes, empty strings, no version or signature |
| ComplaintData.DefaultComplaint | app/src/main/java/com/project/aranya/data/ComplaintData.kt:120-146 | the no-argument complaint: status "Pending", contact preference ANONYMOUS, no attachments, no category or severity, no timestamps, empty ids |
| ComplaintData.Persisted | app/src/main/java/com/project/aranya/data/ComplaintData.kt:94-99 | what the store keeps: the two local URI lists are excluded (empty), the uploaded file references and every other field are kept |
| ComplaintData.PersistedKeepsRecordIff | app/src/main/java/com/project/aranya/data/ComplaintData.kt:94-99 | a record survives storing unchanged iff it has no local URIs; storing twice is storing once |
| ComplaintData.FormattedIncidentDateTime | app/src/main/java/com/project/aranya/data/ComplaintData.kt:154-171 | "Date Not Set" iff there is no incident date; otherwise the instant shown is the date's UTC day combined with the time's hour and minute |
| ComplaintData.DayStartBounds | app/src/main/java/com/project/aranya/data/ComplaintData.kt:157-163 | clearing hour, minute, second and millisecond gives the UTC midnight at or before the instant, a whole number of days |
| ComplaintData.HourMinuteBounds | app/src/main/java/com/project/aranya/data/ComplaintData.kt:166-170 | HOUR_OF_DAY of the time offset lies in 0..23 and MINUTE in 0..59 |
| ComplaintData.TimeOfDayOfShiftedDay | app/src/main/java/com/project/aranya/data/ComplaintData.kt:157-170 | an offset within a day added to a UTC midnight keeps that midnight and that offset |
| ComplaintData.IncidentInstantSameDay | app/src/main/java/com/project/aranya/data/ComplaintData.kt:154-171 | the displayed instant lies on the incident date's UTC day, and is that day's midnight when no time is set |
| ComplaintData.IncidentInstantIgnoresSeconds | app/src/main/java/com/project/aranya/data/ComplaintData.kt:165-171 | only the hour and minute of the time offset matter: seconds and milliseconds in it do not change the instant |
| Routes.FillPlaceholder | app/src/main/java/com/project/aranya/navigation/Screen.kt:14-15 | the argument is substituted iff the pattern ends with the placeholder |
| Routes.CreateRouteFillsPattern | app/src/main/java/com/project/aranya/navigation/Screen.kt:14-15 | `createRoute(id)` is the route pattern "report_detail/{reportId}" with the id substituted |
| Routes.MatchReportDetail | app/src/main/java/com/project/aranya/navigation/Screen.kt:14-15 | a route that matches the detail pattern yields a non-empty, slash-free id whose `createRoute` is that route |
| Routes.CreateRouteRoundTrip | app/src/main/java/com/project/aranya/navigation/Screen.kt:14-15 | matching `createRoute(id)` gives back `id` iff the id is non-empty and contains no '/' |
| Routes.CreateRouteInjective | app/src/main/java/com/project/aranya/navigation/Screen.kt:15 | distinct report ids give distinct routes |
| Routes.RoutesDistinct | app/src/main/java/com/project/aranya/navigation/Screen.kt:3-16 | no two screens share a route, and no static route equals a detail route |
| Routes.StaticRouteNotPrefixed | app/src/main/java/com/project/aranya/navigation/Screen.kt:4-12 | no static route starts with "report_detail/" |
| Auth.DecideAdmin | app/src/main/java/com/project/aranya/viewmodel/AuthViewModel.kt:176-190 | admin iff the user's document exists and `isAdminRole` is true; a failed read, a missing document or a missing field means not admin |
| Auth.AdminLoginFailsClosed | app/src/main/java/com/project/aranya/viewmodel/AuthViewModel.kt:194-203 | an admin-login attempt authenticates iff the role is admin, and otherwise ends in "Access Denied"; any other sign-in authenticates |
| Auth.ShippedWebClientIdConfigured | app/src/main/java/com/project/aranya/viewmodel/AuthViewModel.kt:54 | the shipped web client id is neither the placeholder nor blank |
| Auth.BeginFailureMessage | app/src/main/java/com/project/aranya/viewmodel/AuthViewModel.kt:226-237 | a one-tap request has an error message iff the picker was not launched |
| Auth.AuthViewModel.constructor | app/src/main/java/com/project/aranya/viewmodel/AuthViewModel.kt:56-68 | a remembered user is authenticated with the decided role; otherwise Unauthenticated and not admin |
| Auth.AuthViewModel.CheckRoleFromFirestore | app/src/main/java/com/project/aranya/viewmodel/AuthViewModel.kt:166-207 | the flag becomes the decided role; a non-admin on an admin-login attempt is signed out and refused; the decided role is handed on |
| Auth.AuthViewModel.SignUp | app/src/main/java/com/project/aranya/viewmodel/AuthViewModel.kt:72-93 | a new account is authenticated and never admin; a null user and a thrown error give their messages |
| Auth.AuthViewModel.Login | app/src/main/java/com/project/aranya/viewmodel/AuthViewModel.kt:95-125 | a signed-in user is authenticated with the decided role and gets the admin or regular login-success event; failures give their messages |
| Auth.AuthViewModel.AdminLogin | app/src/main/java/com/project/aranya/viewmodel/AuthViewModel.kt:127-155 | it ends authenticated only as an admin; a non-admin is signed out; a thrown error is prefixed "Admin login failed: " |
| Auth.AuthViewModel.BeginGoogleSignIn | app/src/main/java/com/project/aranya/viewmodel/AuthViewModel.kt:210-238 | an unconfigured client id is an error and issues no request; otherwise one request, and a failure to start becomes an error |
| Auth.AuthViewModel.SignInWithGoogleCredential | app/src/main/java/com/project/aranya/viewmodel/AuthViewModel.kt:240-275 | a null token is an error without exchange; otherwise the token is exchanged and the user is authenticated with the decided role |
| Auth.AuthViewModel.Logout | app/src/main/java/com/project/aranya/viewmodel/AuthViewModel.kt:277-289 | signed out, not admin, Unauthenticated |
| SubmitComplaint.TitleErrorFor | app/src/main/java/com/project/aranya/viewmodel/SubmitComplaintViewModel.kt:66 | a title error iff the title is blank, with the fixed message |
| SubmitComplaint.DescriptionErrorFor | app/src/main/java/com/project/aranya/viewmodel/SubmitComplaintViewModel.kt:67 | a description error iff the description is blank, with the fixed message |
| SubmitComplaint.ResourceTypeFor | app/src/main/java/com/project/aranya/viewmodel/SubmitComplaintViewModel.kt:132-136 | "image" iff the MIME type starts with "image/", "video" iff it starts with "video/" (and not "image/"), else "raw", also for an unknown type |
| SubmitComplaint.FileTypeClassification | app/src/main/java/com/project/aranya/viewmodel/SubmitComplaintViewModel.kt:132-141 | IMAGE, VIDEO, DOCUMENT (exactly "application/pdf") and RAW partition the MIME types; the upload is "raw" exactly for DOCUMENT and RAW |
| SubmitComplaint.UploadFile | app/src/main/java/com/project/aranya/viewmodel/SubmitComplaintViewModel.kt:100-191 | an upload yields a reference iff the service reports success with a non-blank URL and public id; the reference holds the service's secure URL, public id, version and signature, its format or "", its byte count or 0, its resource type or the fallback, the classified file type and the resolver's file name |
| SubmitComplaint.UploadAll | app/src/main/java/com/project/aranya/viewmodel/SubmitComplaintViewModel.kt:223-240 | the loop either uploads every URI, one reference per URI, or stops at a URI index within the list |
| SubmitComplaint.UploadAllStopsForGood | app/src/main/java/com/project/aranya/viewmodel/SubmitComplaintViewModel.kt:225-238 | once a prefix of the URIs has failed, the later URIs change nothing (the loop breaks or returns) |
| SubmitComplaint.UploadAllCharacterization | app/src/main/java/com/project/aranya/viewmodel/SubmitComplaintViewModel.kt:223-240 | all URIs upload iff each one succeeds, the references are theirs in order, and a failure names the first URI that failed, unparsable or rejected |
| SubmitComplaint.UploadStaged | app/src/main/java/com/project/aranya/viewmodel/SubmitComplaintViewModel.kt:223-240 | the upload loop computes exactly `UploadAll` of the staged URIs |
| SubmitComplaint.SavedRecord | app/src/main/java/com/project/aranya/viewmodel/SubmitComplaintViewModel.kt:255-265 | the stored record is the draft with the user id, the new document id, the client timestamp and the uploaded references, with local URIs cleared, and nothing else changed |
| SubmitComplaint.SubmitRejectsInvalidForm | app/src/main/java/com/project/aranya/viewmodel/SubmitComplaintViewModel.kt:195-198 | an invalid form is refused with "Please correct the errors noted above." and nothing is uploaded or written |
| SubmitComplaint.SubmitAllOrNothing | app/src/main/java/com/project/aranya/viewmodel/SubmitComplaintViewModel.kt:200-251 | a record is written only when every staged file uploaded, and it carries exactly their references |
| SubmitComplaint.SubmitSuccessIff | app/src/main/java/com/project/aranya/viewmodel/SubmitComplaintViewModel.kt:194-278 | submission succeeds iff the form is valid, a user is signed in, every upload succeeds and the write succeeds |
| SubmitComplaint.SubmitStopsAtFirstFailure | app/src/main/java/com/project/aranya/viewmodel/SubmitComplaintViewModel.kt:223-239 | the first failing upload ends the submission with its error message, and no record is written |
| SubmitComplaint.SubmitWithoutFiles | app/src/main/java/com/project/aranya/viewmodel/SubmitComplaintViewModel.kt:210-217 | with nothing staged the metadata is saved straight away, with no file references |
| SubmitComplaint.AddThenRemoveMediaRestores | app/src/main/java/com/project/aranya/viewmodel/SubmitComplaintViewModel.kt:91-93 | adding a new media URI and then removing it restores the draft |
| Common.RemoveFirstCutsFirstOccurrence | app/src/main/java/com/project/aranya/viewmodel/SubmitComplaintViewModel.kt:93-96 | removing a URI drops only its first occurrence; a URI not in the list leaves the list as it was |
| Common.RemoveFirstCount | app/src/main/java/com/project/aranya/viewmodel/SubmitComplaintViewModel.kt:93-96 | removing a URI lowers its count by one when present and leaves every other URI's count unchanged |
| SubmitComplaint.SubmitComplaintViewModel.constructor | app/src/main/java/com/project/aranya/viewmodel/SubmitComplaintViewModel.kt:39-53 | an empty draft, Idle, no field errors, nothing touched |
| SubmitComplaint.SubmitComplaintViewModel.OnTitleChange | app/src/main/java/com/project/aranya/viewmodel/SubmitComplaintViewModel.kt:55-58 | the title changes and is revalidated only once the field has been touched |
| SubmitComplaint.SubmitComplaintViewModel.OnDescriptionChange | app/src/main/java/com/project/aranya/viewmodel/SubmitComplaintViewModel.kt:59-62 | the description changes and is revalidated only once the field has been touched |
| SubmitComplaint.SubmitComplaintViewModel.OnTitleFocusChanged | app/src/main/java/com/project/aranya/viewmodel/SubmitComplaintViewModel.kt:63 | the first loss of focus marks the title touched and validates it; gaining focus clears the error |
| SubmitComplaint.SubmitComplaintViewModel.OnDescriptionFocusChanged | app/src/main/java/com/project/aranya/viewmodel/SubmitComplaintViewModel.kt:64 | the first loss of focus marks the description touched and validates it; gaining focus clears the error |
| SubmitComplaint.SubmitComplaintViewModel.ValidateTitle | app/src/main/java/com/project/aranya/viewmodel/SubmitComplaintViewModel.kt:66 | valid iff the title is not blank, with the error set accordingly |
| SubmitComplaint.SubmitComplaintViewModel.ValidateDescription | app/src/main/java/com/project/aranya/viewmodel/SubmitComplaintViewModel.kt:67 | valid iff the description is not blank, with the error set accordingly |
| SubmitComplaint.SubmitComplaintViewModel.ValidateAllFields | app/src/main/java/com/project/aranya/viewmodel/SubmitComplaintViewModel.kt:69-76 | both fields are touched and validated; the result is that both are valid |
| SubmitComplaint.SubmitComplaintViewModel.OnDateTimeSelected | app/src/main/java/com/project/aranya/viewmodel/SubmitComplaintViewModel.kt:80 | sets the incident date and time and nothing else |
| SubmitComplaint.SubmitComplaintViewModel.OnLocationUpdate | app/src/main/java/com/project/aranya/viewmodel/SubmitComplaintViewModel.kt:81 | sets latitude, longitude and landmark and nothing else |
| SubmitComplaint.SubmitComplaintViewModel.OnCategoryChange | app/src/main/java/com/project/aranya/viewmodel/SubmitComplaintViewModel.kt:82 | stores the category's name, or clears it |
| SubmitComplaint.SubmitComplaintViewModel.OnSpeciesChange | app/src/main/java/com/project/aranya/viewmodel/SubmitComplaintViewModel.kt:83 | sets the species and nothing else |
| SubmitComplaint.SubmitComplaintViewModel.OnSeverityChange | app/src/main/java/com/project/aranya/viewmodel/SubmitComplaintViewModel.kt:84 | stores the severity's name, or clears it |
| SubmitComplaint.SubmitComplaintViewModel.OnWitnessNameChange | app/src/main/java/com/project/aranya/viewmodel/SubmitComplaintViewModel.kt:85 | sets the witness name and nothing else |
| SubmitComplaint.SubmitComplaintViewModel.OnWitnessContactChange | app/src/main/java/com/project/aranya/viewmodel/SubmitComplaintViewModel.kt:86 | sets the witness contact and nothing else |
| SubmitComplaint.SubmitComplaintViewModel.OnContactPreferenceChange | app/src/main/java/com/project/aranya/viewmodel/SubmitComplaintViewModel.kt:87 | stores the preference's name and nothing else |
| SubmitComplaint.SubmitComplaintViewModel.OnAdditionalNotesChange | app/src/main/java/com/project/aranya/viewmodel/SubmitComplaintViewModel.kt:88 | sets the notes and nothing else |
| SubmitComplaint.SubmitComplaintViewModel.AddMediaUri | app/src/main/java/com/project/aranya/viewmodel/SubmitComplaintViewModel.kt:91 | appends the URI to the media list |
| SubmitComplaint.SubmitComplaintViewModel.AddMultipleMediaUris | app/src/main/java/com/project/aranya/viewmodel/SubmitComplaintViewModel.kt:92 | appends the URIs, in order, to the media list |
| SubmitComplaint.SubmitComplaintViewModel.RemoveMediaUri | app/src/main/java/com/project/aranya/viewmodel/SubmitComplaintViewModel.kt:93 | removes the first occurrence of the URI from the media list |
| SubmitComplaint.SubmitComplaintViewModel.AddDocumentUri | app/src/main/java/com/project/aranya/viewmodel/SubmitComplaintViewModel.kt:94 | appends the URI to the document list |
| SubmitComplaint.SubmitComplaintViewModel.AddMultipleDocumentUris | app/src/main/java/com/project/aranya/viewmodel/SubmitComplaintViewModel.kt:95 | appends the URIs, in order, to the document list |
| SubmitComplaint.SubmitComplaintViewModel.RemoveDocumentUri | app/src/main/java/com/project/aranya/viewmodel/SubmitComplaintViewModel.kt:96 | removes the first occurrence of the URI from the document list |
| SubmitComplaint.SubmitComplaintViewModel.SubmitComplaint | app/src/main/java/com/project/aranya/viewmodel/SubmitComplaintViewModel.kt:194-251 | the new state, the uploads tried and the records written are those of `Submit`, and both fields end up touched and validated |
| SubmitComplaint.SubmitComplaintViewModel.SaveComplaintToFirestore | app/src/main/java/com/project/aranya/viewmodel/SubmitComplaintViewModel.kt:254-278 | writes the saved record; success resets the form, and a failure keeps the draft with the error message or the fallback |
| SubmitComplaint.SubmitComplaintViewModel.ResetSubmissionState | app/src/main/java/com/project/aranya/viewmodel/SubmitComplaintViewModel.kt:280-284 | Idle, no field errors, nothing touched |
| ReportDetail.ClassifyFetch | app/src/main/java/com/project/aranya/viewmodel/ReportDetailViewModel.kt:121-143 | a parsed document is Success carrying the document id, an unparsable one "Could not parse report data.", a missing one NotFound, a failed read its message or the fallback |
| ReportDetail.LoadingIsAlwaysShown | app/src/main/java/com/project/aranya/viewmodel/ReportDetailViewModel.kt:117-119 | the guard before showing Loading always holds, so every fetch of a non-blank id shows Loading |
| ReportDetail.ViewerIsAdmin | app/src/main/java/com/project/aranya/viewmodel/ReportDetailViewModel.kt:80-107 | admin iff a user is signed in and their document holds `isAdminRole == true` |
| ReportDetail.ViewerIsAdminAgreesWithAuth | app/src/main/java/com/project/aranya/viewmodel/ReportDetailViewModel.kt:87-100 | for a signed-in viewer the detail screen and the auth view model decide the role alike |
| ReportDetail.UpdateGuardError | app/src/main/java/com/project/aranya/viewmodel/ReportDetailViewModel.kt:165-180 | an update passes the guards iff the report id and the user id are present and non-blank and the viewer is admin |
| ReportDetail.UpdateGuardsOrdered | app/src/main/java/com/project/aranya/viewmodel/ReportDetailViewModel.kt:168-180 | a missing report id is reported before a missing user, which is reported before a non-admin |
| ReportDetail.UpdateFields | app/src/main/java/com/project/aranya/viewmodel/ReportDetailViewModel.kt:188-193 | the update names exactly status, remarks, updating admin and the server timestamp |
| ReportDetail.UpdateWritesExactlyFourFields | app/src/main/java/com/project/aranya/viewmodel/ReportDetailViewModel.kt:188-195 | applying the update changes those four fields to the given values and leaves every other field of the report unchanged; `ApplyUpdates` models only these four keys, so the restriction to four fields comes from `ReportDetail.UpdateFields` naming exactly them |
| ReportDetail.ReportDetailViewModel.constructor | app/src/main/java/com/project/aranya/viewmodel/ReportDetailViewModel.kt:64-74 | a usable id is fetched and the admin check runs; a missing or blank id is "Report ID not provided." and nothing is fetched |
| ReportDetail.ReportDetailViewModel.CheckIfCurrentUserIsAdmin | app/src/main/java/com/project/aranya/viewmodel/ReportDetailViewModel.kt:80-107 | the admin flag becomes the decided role |
| ReportDetail.ReportDetailViewModel.FetchReportDetails | app/src/main/java/com/project/aranya/viewmodel/ReportDetailViewModel.kt:112-145 | a blank id is refused without a read; otherwise Loading is shown, the document is read, and the outcome is classified |
| ReportDetail.ReportDetailViewModel.RefreshReportDetails | app/src/main/java/com/project/aranya/viewmodel/ReportDetailViewModel.kt:150-158 | a usable id is fetched again; the admin check always runs again |
| ReportDetail.ReportDetailViewModel.UpdateComplaintStatusAndRemarks | app/src/main/java/com/project/aranya/viewmodel/ReportDetailViewModel.kt:164-204 | a failing guard gives its error and writes nothing; otherwise the four fields are written, and success refetches the report while a failure gives its message |
| ReportDetail.ReportDetailViewModel.ResetUpdateState | app/src/main/java/com/project/aranya/viewmodel/ReportDetailViewModel.kt:209-211 | the update state is Idle |
| ReportList.ParseDocumentsAppend | app/src/main/java/com/project/aranya/viewmodel/ReportListViewModel.kt:76-82 | mapping the documents distributes over concatenation, so order is kept |
| ReportList.ParseDocumentsMembers | app/src/main/java/com/project/aranya/viewmodel/ReportListViewModel.kt:76-82 | the list has no more entries than documents, and a report is in it iff some document parsed to it, with the document's id |
| ReportList.ParseDocumentsAllParse | app/src/main/java/com/project/aranya/viewmodel/ReportListViewModel.kt:76-82 | when every document parses, the list has one report per document, in order, each carrying its document's id |
| ReportList.ClassifyQuery | app/src/main/java/com/project/aranya/viewmodel/ReportListViewModel.kt:70-90 | Empty iff the query returned no documents; Success with the parsed documents otherwise; a failed query gives its message or the fallback |
| ReportList.EmptySuccessIsDistinct | app/src/main/java/com/project/aranya/viewmodel/ReportListViewModel.kt:70-84 | documents that all fail to parse give Success with an empty list, not Empty |
| ReportList.ReportListViewModel.constructor | app/src/main/java/com/project/aranya/viewmodel/ReportListViewModel.kt:38-41 | creation fetches the user's reports |
| ReportList.ReportListViewModel.FetchUserReports | app/src/main/java/com/project/aranya/viewmodel/ReportListViewModel.kt:48-92 | Loading, then an error without a query when no user is signed in, otherwise one query for the user's reports, classified |
| ReportList.ReportListViewModel.RefreshReports | app/src/main/java/com/project/aranya/viewmodel/ReportListViewModel.kt:97-100 | a refresh is a fetch |
| ReportList.AdminComplaintListViewModel.constructor | app/src/main/java/com/project/aranya/viewmodel/AdminComplaintListViewModel.kt:38-41 | creation fetches all complaints |
| ReportList.AdminComplaintListViewModel.FetchAllComplaints | app/src/main/java/com/project/aranya/viewmodel/AdminComplaintListViewModel.kt:48-84 | Loading, then one query for all complaints, classified with the admin fallback message |
| ReportList.AdminComplaintListViewModel.RefreshAllComplaints | app/src/main/java/com/project/aranya/viewmodel/AdminComplaintListViewModel.kt:88-91 | a refresh is a fetch |
| Navigation.DashboardRoute | app/src/main/java/com/project/aranya/MainActivity.kt:306 | the admin dashboard iff admin, home otherwise |
| Navigation.NavigateToDashboard | app/src/main/java/com/project/aranya/MainActivity.kt:295-322 | navigates iff authenticated, not already on the destination, and on login, sign-up or no route; the navigation pops the start destination inclusively, single-top |
| Navigation.DashboardIsNotEntry | app/src/main/java/com/project/aranya/MainActivity.kt:306-311 | neither dashboard is one of the routes the host moves a user off |
| Navigation.NavigateToDashboardSettles | app/src/main/java/com/project/aranya/MainActivity.kt:306-316 | from an entry route an authenticated user always moves to their dashboard, and once there the host moves no further |
| Navigation.AuthEffect | app/src/main/java/com/project/aranya/MainActivity.kt:86-104 | Authenticated defers to `navigateToDashboard`; Unauthenticated off the login route goes to login with the whole stack cleared; other states do nothing |
| Navigation.AuthEffectSettles | app/src/main/java/com/project/aranya/MainActivity.kt:86-104 | the effect run again on the route it navigated to does nothing |
| Navigation.BlankLoginScreenMovesOn | app/src/main/java/com/project/aranya/MainActivity.kt:152-156 | on the login route the form is not rendered exactly when the auth effect navigates away, and then the user arrives at their dashboard |
| Navigation.AdminLoginRouting | app/src/main/java/com/project/aranya/MainActivity.kt:86-104 | after an admin login from the login screen an admin reaches the admin dashboard; anyone else stays on login with the access-denied error |
| Navigation.RequireAuth | app/src/main/java/com/project/aranya/MainActivity.kt:265-290 | content iff authenticated, a spinner iff loading or idle, to login with the stack cleared iff unauthenticated or error |
| Navigation.AdminRouteView | app/src/main/java/com/project/aranya/MainActivity.kt:225-241 | the admin dashboard shows iff authenticated and admin; a signed-in non-admin is sent home, popping the dashboard |
| Navigation.ReportDetailRouteView | app/src/main/java/com/project/aranya/MainActivity.kt:202-217 | the detail screen shows iff authenticated with a non-blank id; a missing or blank id pops back |
| Navigation.CreatedRouteOpensDetail | app/src/main/java/com/project/aranya/MainActivity.kt:202-217 | a route built by `createRoute` from a usable id opens the detail screen for a signed-in user |
| Navigation.LoginLoading | app/src/main/java/com/project/aranya/MainActivity.kt:172 | the login and sign-up screens are loading iff the auth state is Loading |
| Navigation.LoginError | app/src/main/java/com/project/aranya/MainActivity.kt:173 | they are given an error iff the auth state is Error, and then its message |
| Navigation.HandleGoogleResult | app/src/main/java/com/project/aranya/MainActivity.kt:112-136 | sign in with the token iff RESULT_OK and a token was read; any other result code is ignored; the failures show their snackbars |
| LoginScreen.RenderLogin | app/src/main/java/com/project/aranya/ui/screen/LoginScreen.kt:88-207 | Login and Login as Admin are enabled iff not loading and email and password are not blank; Google and the sign-up link iff not loading; fields flagged and the error shown iff there is an error; password masked unless visible |
| LoginScreen.LoginScreenFollowsAuthState | app/src/main/java/com/project/aranya/MainActivity.kt:152-176 | while signing in nothing that starts another sign-in is enabled; an auth error flags both fields and is shown |
| LoginScreen.EmptyFieldsDisableLogin | app/src/main/java/com/project/aranya/ui/screen/LoginScreen.kt:134-136 | an empty email or password disables Login |
| LoginScreen.LoginForm.constructor | app/src/main/java/com/project/aranya/ui/screen/LoginScreen.kt:63-65 | empty fields, password hidden |
| LoginScreen.LoginForm.ChangeEmail | app/src/main/java/com/project/aranya/ui/screen/LoginScreen.kt:90 | the email field takes the typed value |
| LoginScreen.LoginForm.ChangePassword | app/src/main/java/com/project/aranya/ui/screen/LoginScreen.kt:102 | the password field takes the typed value |
| LoginScreen.LoginForm.TogglePasswordVisibility | app/src/main/java/com/project/aranya/ui/screen/LoginScreen.kt:115 | the eye icon flips visibility |
| LoginScreen.LoginForm.View | app/src/main/java/com/project/aranya/ui/screen/LoginScreen.kt:107-136 | the form's view masks the password unless visible and enables Login by the rule above |
| LoginScreen.LoginForm.PressLogin | app/src/main/java/com/project/aranya/ui/screen/LoginScreen.kt:134-136 | the callback receives the typed email and password, and only when the button is enabled |
| SignUpScreen.NoMismatchWhileEmpty | app/src/main/java/com/project/aranya/ui/screen/SignUpScreen.kt:36-38 | no mismatch is reported while either password field is empty or when they are equal |
| SignUpScreen.SignUpEnabledAsWritten | app/src/main/java/com/project/aranya/ui/screen/SignUpScreen.kt:136-138 | Sign Up as written: enabled iff not loading, email and password not blank, and no mismatch |
| SignUpScreen.WhitespacePasswordNotFlaggedButDisabled | app/src/main/java/com/project/aranya/ui/screen/SignUpScreen.kt:36-38 | a whitespace-only password shows no mismatch, yet Sign Up stays disabled |
| SignUpScreen.EmptyConfirmationEnablesSignUp | app/src/main/java/com/project/aranya/ui/screen/SignUpScreen.kt:136-138 | as written, Sign Up is enabled with the confirmation never typed |
| SignUpScreen.SignUpEnabled | app/src/main/java/com/project/aranya/ui/screen/SignUpScreen.kt:136-138 | the corrected rule: enabled only when the confirmation equals a non-blank password, which implies the rule as written |
| SignUpScreen.EnablementDiffersOnlyOnEmptyConfirmation | app/src/main/java/com/project/aranya/ui/screen/SignUpScreen.kt:36-38 | the written and corrected rules differ exactly when the written rule enables Sign Up with an empty confirmation |
| SignUpScreen.SignUpForm.constructor | app/src/main/java/com/project/aranya/ui/screen/SignUpScreen.kt:30-34 | empty fields, both passwords hidden |
| SignUpScreen.SignUpForm.ChangeEmail | app/src/main/java/com/project/aranya/ui/screen/SignUpScreen.kt:66 | the email field takes the typed value |
| SignUpScreen.SignUpForm.ChangePassword | app/src/main/java/com/project/aranya/ui/screen/SignUpScreen.kt:78 | the password field takes the typed value |
| SignUpScreen.SignUpForm.ChangeConfirmPassword | app/src/main/java/com/project/aranya/ui/screen/SignUpScreen.kt:97 | the confirmation field takes the typed value |
| SignUpScreen.SignUpForm.TogglePasswordVisibility | app/src/main/java/com/project/aranya/ui/screen/SignUpScreen.kt:86 | the password's eye icon flips its visibility |
| SignUpScreen.SignUpForm.ToggleConfirmPasswordVisibility | app/src/main/java/com/project/aranya/ui/screen/SignUpScreen.kt:105 | the confirmation's eye icon flips its visibility |
| SignUpScreen.SignUpForm.View | app/src/main/java/com/project/aranya/ui/screen/SignUpScreen.kt:71-138 | the email is flagged iff there is an error; both password fields are flagged iff there is an error or a mismatch; the mismatch text iff a mismatch; Sign Up only with a matching confirmation |
| SignUpScreen.SignUpForm.PressSignUp | app/src/main/java/com/project/aranya/ui/screen/SignUpScreen.kt:136-138 | the callback receives the email and password, never the confirmation, and only when enabled |
| SubmitScreen.EncodeTime | app/src/main/java/com/project/aranya/ui/screen/SubmitComplaintScreen.kt:311-317 | the picked time is a whole number of minutes since the epoch day's midnight, within one day for a valid hour and minute |
| SubmitScreen.TimeEncodingRoundTrip | app/src/main/java/com/project/aranya/ui/screen/SubmitComplaintScreen.kt:311-317 | the hour and minute read back from the encoded time are the ones picked |
| SubmitScreen.IncidentAtPickedTime | app/src/main/java/com/project/aranya/data/ComplaintData.kt:154-171 | the incident shown is the picked date's UTC midnight plus the picked time |
| SubmitScreen.LowerUndoesCapitalize | app/src/main/java/com/project/aranya/ui/screen/SubmitComplaintScreen.kt:572 | capitalising the first letter of a lower-cased label does not change it up to case |
| SubmitScreen.LabelsMatchNames | app/src/main/java/com/project/aranya/ui/screen/SubmitComplaintScreen.kt:559-622 | each menu label is its constant's name (underscores as spaces for categories) up to case |
| SubmitScreen.InjuredAnimalLabel | app/src/main/java/com/project/aranya/ui/screen/SubmitComplaintScreen.kt:572 | INJURED_ANIMAL is shown as "Injured animal" |
| SubmitScreen.CategoryLabelsDistinct | app/src/main/java/com/project/aranya/ui/screen/SubmitComplaintScreen.kt:559-572 | distinct categories get distinct dropdown labels |
| SubmitScreen.SeverityLabelsDistinct | app/src/main/java/com/project/aranya/ui/screen/SubmitComplaintScreen.kt:609-622 | distinct severities get distinct dropdown labels |
| SubmitScreen.ContactPreferenceLabelsDistinct | app/src/main/java/com/project/aranya/ui/screen/SubmitComplaintScreen.kt:759 | distinct contact preferences get distinct radio-button labels |
| SubmitScreen.AttachmentMessageAsWritten | app/src/main/java/com/project/aranya/ui/screen/SubmitComplaintScreen.kt:670-679 | as written: "No media or documents attached." iff both lists are empty, otherwise "No media attached." |
| SubmitScreen.AttachmentMessageContradictsAttachments | app/src/main/java/com/project/aranya/ui/screen/SubmitComplaintScreen.kt:670-679 | with one media URI attached, the screen as written says "No media attached." |
| SubmitScreen.AttachmentPlaceholder | app/src/main/java/com/project/aranya/ui/screen/SubmitComplaintScreen.kt:644-679 | corrected: "No media or documents attached." iff both lists are empty, "No media attached." iff only documents are attached, and no text iff media is attached |
| SubmitScreen.PlaceholderAgreesWithoutMedia | app/src/main/java/com/project/aranya/ui/screen/SubmitComplaintScreen.kt:670-679 | the corrected and written texts agree exactly when no media is attached |
| SubmitScreen.PickedDocumentTypes | app/src/main/java/com/project/aranya/ui/screen/SubmitComplaintScreen.kt:404-412 | of the document picker's MIME types only PDF is stored as DOCUMENT; text, Word, Excel and PowerPoint files are stored as RAW |
| SubmitScreen.PickedMedia | app/src/main/java/com/project/aranya/ui/screen/SubmitComplaintScreen.kt:368-378 | the photo picker hands over at most five of the selected items, in order, and all of them when there are five or fewer |
| SubmitScreen.FormatMillis | app/src/main/java/com/project/aranya/ui/screen/SubmitComplaintScreen.kt:890-911 | no text iff no value; otherwise the instant and the pattern go to a formatter with no zone set, so both branches render in the device's zone |
| SubmitScreen.SameDayOffsetSameClock | app/src/main/java/com/project/aranya/data/ComplaintData.kt:166-170 | shifting an instant by whole days leaves its UTC hour and minute unchanged |
| SubmitScreen.TimeOfDayShownAsWritten | app/src/main/java/com/project/aranya/ui/screen/SubmitComplaintScreen.kt:893-898 | as written, the time field shows the stored offset on the device's clock: a valid hour and minute, equal to the stored UTC hour and minute when the zone is a whole number of days from UTC |
| SubmitScreen.PickedTimeShiftedAsWritten | app/src/main/java/com/project/aranya/ui/screen/SubmitComplaintScreen.kt:311-317 | as written, 10:00 picked on a device at UTC+5:30 is shown as 15:30 |
| SubmitScreen.AsWrittenShowsPickedTimeOnlyInUtc | app/src/main/java/com/project/aranya/ui/screen/SubmitComplaintScreen.kt:311-317 | as written, a picked time is shown back as picked iff the device's zone is a whole number of days from UTC |
| SubmitScreen.TimeOfDayShown | app/src/main/java/com/project/aranya/ui/screen/SubmitComplaintScreen.kt:893-898 | corrected: the stored offset is shown in UTC, the zone it was encoded in, which is the as-written rendering at offset zero |
| SubmitScreen.PickedTimeShownBack | app/src/main/java/com/project/aranya/ui/screen/SubmitComplaintScreen.kt:311-317 | corrected, every picked hour and minute is shown back unchanged |
| SubmitScreen.SubmitEnabled | app/src/main/java/com/project/aranya/ui/screen/SubmitComplaintScreen.kt:780 | the submit button is enabled iff the submission state is not Loading |
| SubmitScreen.FieldFlagged | app/src/main/java/com/project/aranya/ui/screen/SubmitComplaintScreen.kt:450-463 | a required field is outlined in error iff the submission state is Error and the field is blank |
| SubmitScreen.FlagsMatchFieldErrors | app/src/main/java/com/project/aranya/ui/screen/SubmitComplaintScreen.kt:450-463 | after any submission the title (description) field is flagged iff validation gave the title (description) an error: a blank field is refused with the draft kept, and a success resets the draft without an Error state |
| SubmitScreen.SubmitDisabledOnlyOnUnparsableUri | app/src/main/java/com/project/aranya/ui/screen/SubmitComplaintScreen.kt:778-781 | after a submission the button stays disabled iff the form was valid, a user was signed in, files were staged and one of them did not parse, the one path that leaves the state at Loading |
| SubmitScreen.SubmitComplaintForm.TimeFieldText | app/src/main/java/com/project/aranya/ui/screen/SubmitComplaintScreen.kt:483 | the time field is empty iff no time is set, and otherwise shows the stored UTC hour and minute |
| SubmitScreen.SubmitComplaintForm.SubmitButtonEnabled | app/src/main/java/com/project/aranya/ui/screen/SubmitComplaintScreen.kt:780 | the button is enabled iff the view model's submission state is not Loading |
| SubmitScreen.SubmitComplaintForm.FieldFlags | app/src/main/java/com/project/aranya/ui/screen/SubmitComplaintScreen.kt:450-463 | the title and description fields are flagged iff the view model's state is Error and that field of the draft is blank |
| SubmitScreen.SubmitComplaintForm.PressSubmit | app/src/main/java/com/project/aranya/ui/screen/SubmitComplaintScreen.kt:778-781 | while Loading a press changes nothing; otherwise the view model's submission runs, with the new state, draft, uploads tried, writes and field errors given by `SubmitComplaint.Submit` |
| SubmitScreen.SubmitComplaintForm.constructor | app/src/main/java/com/project/aranya/ui/screen/SubmitComplaintScreen.kt:74-87 | both pickers closed, both menus collapsed |
| SubmitScreen.SubmitComplaintForm.OpenDatePicker | app/src/main/java/com/project/aranya/ui/screen/SubmitComplaintScreen.kt:478 | the date picker is shown |
| SubmitScreen.SubmitComplaintForm.OpenTimePicker | app/src/main/java/com/project/aranya/ui/screen/SubmitComplaintScreen.kt:487 | the time picker is shown |
| SubmitScreen.SubmitComplaintForm.DismissDatePicker | app/src/main/java/com/project/aranya/ui/screen/SubmitComplaintScreen.kt:276-293 | the date picker is closed and the draft untouched |
| SubmitScreen.SubmitComplaintForm.DismissTimePicker | app/src/main/java/com/project/aranya/ui/screen/SubmitComplaintScreen.kt:303-324 | the time picker is closed and the draft untouched |
| SubmitScreen.SubmitComplaintForm.ConfirmDate | app/src/main/java/com/project/aranya/ui/screen/SubmitComplaintScreen.kt:279-285 | the picker closes and the picked date is stored, keeping the time |
| SubmitScreen.SubmitComplaintForm.ConfirmTime | app/src/main/java/com/project/aranya/ui/screen/SubmitComplaintScreen.kt:306-320 | the picker closes and the encoded time is stored, keeping the date |
| SubmitScreen.SubmitComplaintForm.ToggleCategoryMenu | app/src/main/java/com/project/aranya/ui/screen/SubmitComplaintScreen.kt:555 | the category menu flips open or closed |
| SubmitScreen.SubmitComplaintForm.SelectCategory | app/src/main/java/com/project/aranya/ui/screen/SubmitComplaintScreen.kt:570-586 | choosing a category or "Clear Selection" stores it and closes the menu |
| SubmitScreen.SubmitComplaintForm.ToggleSeverityMenu | app/src/main/java/com/project/aranya/ui/screen/SubmitComplaintScreen.kt:605 | the severity menu flips open or closed |
| SubmitScreen.SubmitComplaintForm.SelectSeverity | app/src/main/java/com/project/aranya/ui/screen/SubmitComplaintScreen.kt:620-635 | choosing a severity or "Clear Selection" stores it and closes the menu |
| SubmitScreen.SubmitComplaintForm.OnMediaPicked | app/src/main/java/com/project/aranya/ui/screen/SubmitComplaintScreen.kt:368-378 | the picked media (at most five) are appended to the media list; an empty pick changes nothing |
| SubmitScreen.SubmitComplaintForm.OnDocumentsPicked | app/src/main/java/com/project/aranya/ui/screen/SubmitComplaintScreen.kt:390-400 | the picked documents are appended to the document list; an empty pick changes nothing |
| SubmitScreen.SubmitComplaintForm.AttachmentText | app/src/main/java/com/project/aranya/ui/screen/SubmitComplaintScreen.kt:670-679 | the form shows a placeholder iff no media is attached (the corrected rule) |
| DetailScreen.AdminStatusesShape | app/src/main/java/com/project/aranya/ui/screen/ReportDetailScreen.kt:49-55 | the admin's menu has five distinct statuses and starts with "Pending" |
| DetailScreen.InitialStatus | app/src/main/java/com/project/aranya/ui/screen/ReportDetailScreen.kt:79 | the form starts on the stored status, or on the first menu entry when that is blank |
| DetailScreen.InitialStatusNotBlank | app/src/main/java/com/project/aranya/ui/screen/ReportDetailScreen.kt:79 | the form never starts on a blank status |
| DetailScreen.FreshFormSaveEnabled | app/src/main/java/com/project/aranya/ui/screen/ReportDetailScreen.kt:76-83 | right after a report is shown, Save is enabled iff its stored status is blank |
| DetailScreen.SavedChangesDisableSave | app/src/main/java/com/project/aranya/ui/screen/ReportDetailScreen.kt:306 | after saving a non-blank status and re-reading the report, the form holds the saved values and Save is disabled |
| DetailScreen.AdminActionsShown | app/src/main/java/com/project/aranya/ui/screen/ReportDetailScreen.kt:130-134 | the admin section is shown iff a report is loaded and the viewer is admin |
| DetailScreen.DisplayFileType | app/src/main/java/com/project/aranya/ui/screen/ReportDetailScreen.kt:212 | a stored file-type name is read back as its type, an unknown name as RAW |
| DetailScreen.UploadedFileDisplaysItsType | app/src/main/java/com/project/aranya/ui/screen/ReportDetailScreen.kt:212 | a file the app uploaded is displayed as the type its MIME type was classified as |
| DetailScreen.AttachedFileView | app/src/main/java/com/project/aranya/ui/screen/ReportDetailScreen.kt:209-231 | images are shown inline from their URL; videos, documents and other files as cards with their own icon |
| DetailScreen.DetailItemShown | app/src/main/java/com/project/aranya/ui/screen/ReportDetailScreen.kt:332-349 | a detail row is shown iff its value is present and not blank |
| DetailScreen.FormatMillisTimestamp | app/src/main/java/com/project/aranya/ui/screen/ReportDetailScreen.kt:352-356 | "N/A" iff the instant is zero, otherwise the instant formatted with the pattern |
| DetailScreen.ShortReportId | app/src/main/java/com/project/aranya/ui/screen/ReportDetailScreen.kt:195 | the id is shown as its last eight characters (all of a shorter id), upper-cased |
| DetailScreen.ShortReportIdIdempotent | app/src/main/java/com/project/aranya/ui/screen/ReportDetailScreen.kt:195 | shortening a shortened id changes nothing |
| DetailScreen.ShortUid | app/src/main/java/com/project/aranya/ui/screen/ReportDetailScreen.kt:244-263 | a user id is shown as its first `keep` characters (all of a shorter id) followed by "..." |
| DetailScreen.DetailForm.constructor | app/src/main/java/com/project/aranya/ui/screen/ReportDetailScreen.kt:71-73 | empty selection and remarks, menu collapsed |
| DetailScreen.DetailForm.OnDetailStateChanged | app/src/main/java/com/project/aranya/ui/screen/ReportDetailScreen.kt:76-83 | a loaded report sets the selection to its initial status and the remarks to its remarks; other states leave the form alone |
| DetailScreen.DetailForm.SetStatusDropdownExpanded | app/src/main/java/com/project/aranya/ui/screen/ReportDetailScreen.kt:145 | the status menu opens or closes as asked |
| DetailScreen.DetailForm.SelectStatus | app/src/main/java/com/project/aranya/ui/screen/ReportDetailScreen.kt:287-288 | choosing a status selects it and closes the menu |
| DetailScreen.DetailForm.ChangeRemarks | app/src/main/java/com/project/aranya/ui/screen/ReportDetailScreen.kt:137 | the remarks field takes the typed value |
| DetailScreen.DetailForm.SaveButtonEnabled | app/src/main/java/com/project/aranya/ui/screen/ReportDetailScreen.kt:304-306 | Save is enabled iff a report is loaded, no update runs, and the selection or the remarks differ from the report |
| DetailScreen.DetailForm.SaveChanges | app/src/main/java/com/project/aranya/ui/screen/ReportDetailScreen.kt:138-143 | Save hands the selection and the remarks to the update: a failing guard shows its error, writes nothing and leaves the report and the fetches alone; otherwise exactly the four fields are written, then a successful write shows UpdateSuccess with the report re-fetched and a failed one shows its message or the fallback with the report unchanged |
| DetailScreen.DetailForm.OnUpdateStateChanged | app/src/main/java/com/project/aranya/ui/screen/ReportDetailScreen.kt:86-98 | after an update's Success or Error the update state is reset to Idle; Idle and Loading are left alone |

## Left out

- Network, storage and identity services are not called: Firebase Auth, Firestore, Cloudinary and Google One Tap. Each call's outcome is an operation parameter. The order in which concurrent callbacks complete is not modelled; each operation runs to its end.
- Coroutines and `viewModelScope`: launched blocks run synchronously inside the modelled operation.
- Server timestamps (`@ServerTimestamp`, `FieldValue.serverTimestamp()`) are a `serverNow` parameter. `System.currentTimeMillis()` is a `now` parameter. Firestore's new document id is a `freshId` parameter.
- Filename lookup through the content resolver and `Uri.parse` failures are folded into each `FileAttempt`: its name, its MIME type, whether the URI parses, and the upload outcome.
- `SimpleDateFormat` and locale-dependent formatting are not modelled. `FormattedIncidentDateTime`, `FormatMillis` and `FormatMillisTimestamp` return the instant and the pattern to be formatted, not text. The "Invalid Date/Time" and "Invalid Date" fallbacks are not modelled, because they only arise when the formatter throws.
- Latitude and longitude are kept as opaque coordinates. The "%.5f" display and file sizes in KB involve floating point and are not modelled.
- The location permission and location services of the submit screen are not modelled, nor is the location button's enablement while a location is being fetched (SubmitComplaintScreen.kt:527). Neither are the media-permission handling or the thumbnails.
- The detail screen's category, severity and contact-preference labels are not modelled (`valueOf` with a fallback to the raw name). Neither is the colour chosen per status. Both are display only.
- The submit screen's reaction to the submission state is not modelled (toast, navigating back, resetting). The back stack is not modelled, so popping it cannot be observed.
- Route arguments are not URL-encoded or decoded; `Routes.CreateRouteRoundTrip` therefore requires an id without '/'.
- The remaining screens only present state and are not modelled: home, my reports, admin dashboard, profile, the list item and the theme. Neither is `MyApplication.kt`, which initialises the Cloudinary client.
- The snackbar coroutine of the Google result handler is not modelled: `Navigation.HandleGoogleResult` returns the text to show.
- The sign-up screen's "Log In" link is enabled iff not loading. It only pops the back stack and is not modelled.
- SignUpScreen.SignUpForm.View: enables Sign Up by the corrected rule (`SignUpScreen.SignUpEnabled`), not by the rule as written; see Findings.
- SubmitScreen.SubmitComplaintForm.AttachmentText: shows the corrected placeholder (`SubmitScreen.AttachmentPlaceholder`), not the text as written; see Findings.
- SignUpScreen.SignUpForm.PressSignUp: sends the request by the corrected rule, so the request the screen as written sends while the confirmation is empty is not modelled on the form; `SignUpScreen.EmptyConfirmationEnablesSignUp` exhibits it; see Findings.
- SubmitScreen.SubmitComplaintForm.TimeFieldText: shows the time by the corrected UTC rendering (`SubmitScreen.TimeOfDayShown`), not in the device's zone as written; see Findings.
- SubmitScreen.FormatMillis: the date field hands the date picker's UTC-midnight value to a formatter in the device's zone (SubmitComplaintScreen.kt:474 and 903-905), so west of UTC it shows the previous day; the model gives the formatting request, not the rendered date, and no corrected date rendering is modelled.
- ComplaintData.FormattedIncidentDateTime: the incident text formats its instant in the device's zone (ComplaintData.kt:173-176), so it shows the same shift as the time field; the model gives the instant, not the rendered text, and the time-field correction is not applied to it.
- The device's time zone is a fixed offset from UTC (`zoneOffset`). Daylight-saving changes are not modelled.
- Auth.AuthViewModel.CheckRoleFromFirestore: does not model an `isAdminRole` field that is present but not a boolean. There `getBoolean` throws inside the launched coroutine (AuthViewModel.kt:180), which is never caught. The role flag and the auth state are then left as they were (Loading), and no role is handed on. `Auth.RoleLookup` assumes the field, when present, is a boolean, as the app's role documents store it.
- ReportDetail.ViewerIsAdmin: the same non-boolean `isAdminRole` throws at ReportDetailViewModel.kt:90 and leaves the flag unchanged; that case is not modelled.
- Case mapping is ASCII only. `Common.Lower`, `Common.Upper` and `Common.CapitalizeFirst` stand for Kotlin's `lowercase()`, `uppercase()` and `titlecase()`, which map all of Unicode and can change a string's length ('ß' upper-cases to "SS"). The enum names and the store's document ids are ASCII, so labels and `DetailScreen.ShortReportId` are exact for them. For an id with such characters, `ShortReportId`'s length of eight does not hold in the source.

## Findings

| source | as written | input that shows it | evidently intended | confidence | as-written member | corrected member |
|---|---|---|---|---|---|---|
| app/src/main/java/com/project/aranya/ui/screen/SubmitComplaintScreen.kt:670-679 | when either attachment list is non-empty, the else branch shows "No media attached." | one media URI attached and no documents: the thumbnails are shown and the text says "No media attached." | a placeholder only while no media is attached | high, not executed | SubmitScreen.AttachmentMessageAsWritten, SubmitScreen.AttachmentMessageContradictsAttachments | SubmitScreen.AttachmentPlaceholder, SubmitScreen.PlaceholderAgreesWithoutMedia |
| app/src/main/java/com/project/aranya/ui/screen/SubmitComplaintScreen.kt:890-898 | the time field renders the picked time, stored as an offset into the UTC epoch day (lines 311-317), with a formatter in the device's zone | 10:00 picked on a device at UTC+5:30 is shown as 03:30 PM | the picked time shown back as picked, by rendering the stored offset in UTC, where it was encoded; the incident text (ComplaintData.kt:173-176) formats the combined instant in the device's zone too and has the same shift, and this correction covers only the form's time field | medium, not executed | SubmitScreen.TimeOfDayShownAsWritten, SubmitScreen.PickedTimeShiftedAsWritten, SubmitScreen.AsWrittenShowsPickedTimeOnlyInUtc | SubmitScreen.TimeOfDayShown, SubmitScreen.PickedTimeShownBack |
| app/src/main/java/com/project/aranya/ui/screen/SignUpScreen.kt:36-38 | the mismatch flag is false while the confirmation is empty, and Sign Up (line 138) tests only that flag | not loading, email "a@example.org", password "secret", confirmation "": Sign Up is enabled | Sign Up needs a confirmation equal to the password | medium, not executed | SignUpScreen.SignUpEnabledAsWritten, SignUpScreen.EmptyConfirmationEnablesSignUp | SignUpScreen.SignUpEnabled, SignUpScreen.EnablementDiffersOnlyOnEmptyConfirmation |
