# Veritas Vista site logic, modelled in Dafny

The Veritas Vista school website has no large algorithmic core. Its logic
is a handful of decision rules and one small state machine, embedded in
React components. This project lifts each of them out and proves what the
pages promise about them:

- **Chatbot widget** (`Chatbot`). The widget holds a transcript of turns and a
  loading flag. A submission appends the question at once. When the server
  action answers, the widget either appends the reply or drops the question
  again, and it clears the flag in both cases. The widget is modelled as the
  class `Chatbot.Conversation`, in three steps: `Begin`, `Finish`, and
  `Submit` for the whole handler. The class is checked against the
  specification function `AfterSubmit`. The server action is reached over
  the network, so `Submit` also covers the call itself rejecting: the rest
  of the handler then never runs, the question stays in the transcript and
  the controls stay disabled (`Chatbot.StuckAfterRejectedCall` walks
  through this). Lemmas about a whole series of
  delivered submissions (`Run`) show three things:
  - the transcript only grows at its end;
  - it gains exactly the answered question/answer pairs;
  - its turns alternate question, answer.
- **Server action** (`Actions.GetChatbotResponse`). It folds the flow's
  outcome into `Success(data) | Failure(error)`. The function is total, and
  every failure carries the same fixed message.
- **Dashboard redirect** (`Dashboard.Redirect`). It waits while anything is
  loading. Otherwise it picks exactly one of home, the parent dashboard or
  the student dashboard. A parent profile takes priority over a student
  profile.
- **Login and sign-up forms** (`AuthForm`, `ParentLogin`, `StudentSignup`):
  - the field schema;
  - the mapping from provider error code to message, with its generic
    fallback;
  - the toast each attempt raises;
  - the redirect of a signed-in user;
  - the loading flag around each attempt. The forms are modelled as the
    classes `LoginPage` and `SignUpPage`.
- **Dashboard projections** (`Display`, `StudentDashboard`, `ParentDashboard`):
  - sample rows stand in for an empty collection;
  - attendance is capped at its first five records;
  - each attendance status maps to a badge variant;
  - the page is loading iff any of its reads is still loading;
  - each page has its no-profile, no-students and redirect branches;
  - the parent dashboard selects the first student by default. It keeps
    this selection in the class `ParentDashboard.Selection`.

External services are inputs to the model:
- **Language model:** the flow's outcome is `FlowOutcome`, either a returned
  output or a thrown error.
- **Identity provider:** its outcome is `AuthOutcome`, either a signed-in
  user or an error with an optional code.
- **Signed-in user:** an `Option<User>`.
- **Document store:** each read is a loading flag plus an optional document
  or collection.
- **Email check:** the library's check of an email address is the parameter
  `isEmail`.
- **Clock:** the sample attendance dates are `dateOf(k)`, the date `k` days
  ago.

The chatbot's form schema is `z.string().min(1)` with no trim, so
`ValidateQuestion` accepts `" "` (`Chatbot.BlankQuestionAccepted`).

JavaScript truthiness is written out where the code relies on it. A
selected student id of `null` or `""` counts as no selection
(`Common.Truthy`). `prev.slice(0, prev.length - 1)` on an empty transcript
gives the empty transcript (`Chatbot.DropLast`).

## Model

| member | source | states |
|---|---|---|
| Actions.GetChatbotResponse | src/app/actions.ts:14-22 | total (never throws); success iff the flow returned, with its output unchanged; every failure is exactly the fixed "Sorry, I am unable to answer..." message |
| Actions.FailureHidesCause | src/app/actions.ts:18-21 | two failures with different thrown errors give identical results carrying the fixed message |
| Chatbot.ValidateQuestion | src/app/components/chatbot.tsx:18-20 | a question is accepted iff it has at least one character (no trimming); a rejected one gets "Please enter a question." |
| Chatbot.BlankQuestionAccepted | src/app/components/chatbot.tsx:18-20 | a single blank passes the schema, the empty string does not |
| Chatbot.DropLast | src/app/components/chatbot.tsx:69 | the result is a prefix of the transcript, one turn shorter (empty stays empty, as slice clamps -1 to 0) |
| Chatbot.DropLastUndoesAppend | src/app/components/chatbot.tsx:56-69 | dropping the last turn after appending one restores the transcript exactly |
| Chatbot.AfterSubmit | src/app/components/chatbot.tsx:54-72 | a completed submission keeps the old transcript as a prefix and adds two turns (question, then the flow's answer) iff the question passes the schema and the flow returned, and nothing otherwise |
| Chatbot.SubmitIsStateless | src/app/components/chatbot.tsx:59-62 | what a submission adds does not depend on the earlier transcript |
| Chatbot.AfterSubmitAppends | src/app/components/chatbot.tsx:56-69 | one submission appends its question and answer when answered and nothing otherwise, leaving earlier turns untouched |
| Chatbot.RunAppendsExchanges | src/app/components/chatbot.tsx:54-72 | after any series of delivered submissions (each call's result reaches the widget) the transcript is the initial one followed by the answered question/answer pairs in submission order |
| Chatbot.ExchangesPaired | src/app/components/chatbot.tsx:56-62 | the answered pairs alternate question turn, assistant turn |
| Chatbot.RunPreservesPairing | src/app/components/chatbot.tsx:54-72 | from an alternating transcript, any series of delivered submissions keeps earlier turns unchanged as a prefix and keeps the alternation |
| Chatbot.AdmissionExample | src/app/components/chatbot.tsx:54-72 | a successful admission question leaves exactly the question turn and the answer turn |
| Chatbot.FailureExample | src/app/components/chatbot.tsx:54-72 | a failed call leaves the empty transcript empty |
| Chatbot.Conversation.constructor | src/app/components/chatbot.tsx:30-31 | the widget starts with an empty transcript and not loading |
| Chatbot.Conversation.Begin | src/app/components/chatbot.tsx:54-57 | dispatches iff not loading (controls enabled) and the schema accepts; then sets loading and appends exactly one user turn at the end; otherwise changes nothing |
| Chatbot.Conversation.Finish | src/app/components/chatbot.tsx:61-71 | on success appends one assistant turn with the answer; on failure raises the error toast and removes the last turn; clears loading in both cases; keeps the alternation invariant |
| Chatbot.Conversation.Submit | src/app/components/chatbot.tsx:54-72 | while loading nothing happens; a question the schema rejects returns "Please enter a question.", raises no toast and changes nothing; when the action's result arrives the transcript ends as AfterSubmit says (restored exactly on failure), loading is false afterwards, and a toast with the fixed failure message is raised iff the flow threw; when the call itself rejects, the question turn stays and loading stays true |
| Dashboard.Redirect | src/app/dashboard/page.tsx:30-54 | waits iff any of the three flags is loading; otherwise exactly one of home ("/"), parent ("/parent-dashboard") or student dashboard ("/student-dashboard"): parent iff a user with a parent profile, student iff a user with a student but no parent profile, home iff no user or no profile |
| Dashboard.ParentTakesPriority | src/app/dashboard/page.tsx:43-46 | with a parent profile the student profile makes no difference: the parent dashboard is chosen |
| Dashboard.NoUserIgnoresProfiles | src/app/dashboard/page.tsx:36-40 | with nothing loading and no user the home page is chosen whatever the profiles |
| AuthForm.ValidateCredentials | src/app/parent-login/page.tsx:18-21 | the email error is absent iff the address is well formed, the password error absent iff it has at least 6 characters, with the schema's two messages; the form passes iff both hold (the sign-up schema at src/app/student-signup/page.tsx:18-21 is the same) |
| ParentLogin.ErrorDescription | src/app/parent-login/page.tsx:60-72 | "Invalid email or password..." iff the code is user-not-found, wrong-password or invalid-credential; "Too many failed login attempts..." iff too-many-requests; the generic message iff the code is missing or any other |
| ParentLogin.LoginToast | src/app/parent-login/page.tsx:53-77 | destructive iff the attempt failed; success gives "Login Successful"/"Welcome back!"; failure gives "Login failed" with the mapped description |
| ParentLogin.RedirectWhenSignedIn | src/app/parent-login/page.tsx:41-46 | a redirect happens iff a user is signed in, and it goes to the home page ("/") |
| ParentLogin.LoginPage.constructor | src/app/parent-login/page.tsx:31 | the form starts not loading |
| ParentLogin.LoginPage.StartAttempt | src/app/parent-login/page.tsx:49 | loading is true while the provider is called |
| ParentLogin.LoginPage.EndAttempt | src/app/parent-login/page.tsx:50-79 | after the provider settles, on success or failure, loading is false and the toast is LoginToast of the outcome |
| ParentLogin.LoginPage.Submit | src/app/parent-login/page.tsx:48-80 | blocked while loading (the button is disabled); field errors and no attempt when the schema rejects; otherwise the attempt's toast, and loading false afterwards |
| StudentSignup.ErrorDescription | src/app/student-signup/page.tsx:57-67 | "This email is already in use..." iff email-already-in-use; "The password is too weak..." iff weak-password; the generic message iff the code is missing or any other |
| StudentSignup.SignUpToast | src/app/student-signup/page.tsx:51-72 | destructive iff the attempt failed; success gives "Sign Up Successful" with the redirect notice; failure gives "Sign up failed" with the mapped description |
| StudentSignup.RedirectWhenSignedIn | src/app/student-signup/page.tsx:41-45 | a redirect happens iff a user is signed in, and it goes to the student dashboard ("/student-dashboard") |
| StudentSignup.SignUpPage.constructor | src/app/student-signup/page.tsx:31 | the form starts not loading |
| StudentSignup.SignUpPage.StartAttempt | src/app/student-signup/page.tsx:48 | loading is true while the account is created |
| StudentSignup.SignUpPage.EndAttempt | src/app/student-signup/page.tsx:49-74 | after the provider settles, on success or failure, loading is false and the toast is SignUpToast of the outcome |
| StudentSignup.SignUpPage.Submit | src/app/student-signup/page.tsx:47-75 | blocked while loading; field errors and no attempt when the schema rejects; otherwise the attempt's toast, and loading false afterwards |
| Display.BadgeFor | src/app/student-dashboard/page.tsx:172 | default iff Present, destructive iff Absent, secondary iff Tardy or Excused |
| Display.AttendanceRows | src/app/student-dashboard/page.tsx:168-177 | one row per record, in order, each carrying its record and the badge for its status |
| Display.WithFallback | src/app/student-dashboard/page.tsx:86-91 | a loaded, non-empty collection is returned unchanged; otherwise the sample rows |
| Display.Take | src/app/student-dashboard/page.tsx:93 | slice(0, n) gives a prefix of length min(n, length) |
| Display.RecentAttendance | src/app/student-dashboard/page.tsx:93-99 | non-empty attendance gives its first min(5, n) records in stored order; otherwise the sample rows |
| StudentDashboard.DisplayGrades | src/app/student-dashboard/page.tsx:86-91 | non-empty grades are shown unchanged; empty or absent grades show exactly the 4 sample grades |
| StudentDashboard.DisplayAttendance | src/app/student-dashboard/page.tsx:93-99 | between 1 and 5 records; the stored records themselves when fewer than 5, a 5-record prefix otherwise; the 5 sample records when there are none |
| StudentDashboard.View | src/app/student-dashboard/page.tsx:64-99 | a spinner iff any of the four flags is loading; the no-profile message iff not loading and no profile; otherwise the profile with the displayed grades and badged attendance |
| StudentDashboard.RedirectWhenSignedOut | src/app/student-dashboard/page.tsx:39-43 | a redirect happens iff the user has loaded and is absent, and it goes to the student login page ("/student-login") |
| StudentDashboard.AttendanceTableBounded | src/app/student-dashboard/page.tsx:93-177 | the shown attendance table has between 1 and 5 rows, each with the badge its status calls for |
| ParentDashboard.DisplayGrades | src/app/parent-dashboard/page.tsx:64-69 | non-empty grades are shown unchanged; otherwise exactly the 3 sample grades |
| ParentDashboard.DisplayAttendance | src/app/parent-dashboard/page.tsx:70-74 | between 1 and 5 records, a prefix of the stored ones when there are any; the 3 sample records when there are none |
| ParentDashboard.StudentDetails | src/app/parent-dashboard/page.tsx:55-74 | a spinner iff profile, grades or attendance is loading; the profile notice iff not loading and no profile; otherwise the displayed grades and badged attendance |
| ParentDashboard.DefaultSelection | src/app/parent-dashboard/page.tsx:170-174 | an existing selection is kept; with none (null or "") and loaded, non-empty students the first student's id is selected; otherwise unchanged |
| ParentDashboard.DefaultSelectionSettles | src/app/parent-dashboard/page.tsx:170-174 | running the default-selection effect again changes nothing |
| ParentDashboard.View | src/app/parent-dashboard/page.tsx:176-243 | a spinner iff user, profile or students is loading; the no-parent message iff not loading and no profile; the no-students notice iff there are no students; otherwise the picker over the students showing the selection ("" if none), with details iff an id is selected |
| ParentDashboard.FirstStudentShownByDefault | src/app/parent-dashboard/page.tsx:170-239 | after the default selection over a loaded list, the first student's details are shown |
| ParentDashboard.RedirectWhenSignedOut | src/app/parent-dashboard/page.tsx:150-154 | a redirect happens iff the user has loaded and is absent, and it goes to the parent login page ("/parent-login") |
| ParentDashboard.Selection.constructor | src/app/parent-dashboard/page.tsx:148 | nothing is selected at first |
| ParentDashboard.Selection.SelectDefault | src/app/parent-dashboard/page.tsx:170-174 | the selection becomes DefaultSelection of the old one; an existing selection is never overwritten |
| ParentDashboard.Selection.Choose | src/app/parent-dashboard/page.tsx:226 | choosing a student in the picker selects that id |

## Left out

- The language-model flow: the prompt template, the `{{{question}}}` substitution and output-schema validation all happen inside the genkit library (src/ai/flows/ai-campus-navigator-chatbot.ts). Its outcome is an input, `FlowOutcome`.
- The identity provider and the document store (src/firebase/...): their calls, and the hooks `useUser`, `useDoc` and `useCollection`, are outside the model. Their results are inputs.
- The email-shape check of the schema: it is the library's own, so it is an opaque parameter `isEmail`. Lengths are counted in `char`s, not in the UTF-16 code units the library counts.
- The sample attendance dates: they come from the clock via `new Date()` and `toISOString`, so they are the opaque `dateOf(k)`. Rendering a date with `toLocaleDateString` depends on the locale, so a row keeps the stored date string.
- Asynchrony and React effect scheduling: one submission runs at a time, as the disabled controls intend. The await between `Begin` and `Finish` is represented only by its result (`Delivery`), and interleavings are not modelled.
- Effects: the scroll-to-bottom of the chatbot (src/app/components/chatbot.tsx:44-52), `console` logging, and the actual `router.push`/`replace` calls. Only the chosen destination and the toast's contents are modelled.
- The input field's own value and its `reset()` after submission (src/app/components/chatbot.tsx:57): react-hook-form owns this state.
- Which field errors a form shows before a submission: they are returned by `Submit` (the `fieldError` of `Chatbot.Conversation.Submit`, `Attempt.Invalid` of `LoginPage.Submit` and `SignUpPage.Submit`); the rendering is not modelled.
- The full-page spinner of the login and sign-up pages while the user loads (src/app/parent-login/page.tsx:82-88): it is a render branch with no logic.
- Markup, styling, the avatars' initials, and the purely presentational pages and components.
- Numeric scores: `score` is a JavaScript number, modelled as an integer. Only the displayed string uses it.
