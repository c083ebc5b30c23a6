# Lecture tutoring front end: a Dafny model

This project models the browser front end of a lecture-tutoring service. Teachers keep
courses with weekly lectures. They upload lecture material in a chat side bar. An AI
tutor then streams the lecture segment by segment, stops at questions, and grades
the learner's answers.

The model covers these parts of the front end:

- **Tutoring side bar** (`RightSidebar.tsx`):
  - the chat list;
  - the `next` poll chains with their abort flag and one auto-advance;
  - the answer gate and the Enter key's priorities;
  - stopping, and the cleanup when the lecture changes or the page unloads;
  - material upload, its 24-hour `localStorage` record and the drag highlight;
  - creating a lecture from the side bar.
- **Main panel** (`MainContent.tsx`): the course menu, the create-course dialog with its week-0 orientation lecture, and the lecture view.
- **Page frame** (`AppLayout.tsx`): the course route and the lecture and course edit and delete handlers; resizing and collapsing the side bars.
- **Course list hook** (`useCourses.ts`).
- **Sign-in context** (`AuthContext.tsx`): the retried `getMe` at start-up, token keeping, and the inactivity logout.
- **HTTP wrapper** (`api.ts`): headers, how redirects and statuses are classified, and the server probe.
- **Sign-up form** (`SignupPage.tsx`), **settings page** (`SettingsPage.tsx`) and **join-by-invitation page** (`JoinPage.tsx`).
- **Colour theme** (`ThemeContext.tsx`).

The model takes two forms:

- Pure logic is datatypes, functions and lemmas.
- Components whose state hooks change step by step are classes whose methods carry `modifies` clauses: `TutoringSidebar.Sidebar`, `Layout.AppLayout`, `Auth.AuthProvider`, `Signup.SignupPage` and the rest.
  - The tutoring side bar's methods are proved to end in the state that the `Tutoring` and `TutoringSession` transition functions describe.
  - The properties are proved about those functions.

Remote calls, the clock, `localStorage`, `prompt`/`confirm` answers and browser events are parameters. A remote call is a `Remote<T>` value: either the value it resolved to, or what it threw. A poll chain's replies are given as a finite transcript of steps.

## Model

| member | source | states |
|---|---|---|
| Common.TrimStartIsSuffix | src/pages/SignupPage.tsx:46 | the start of `trim` drops a leading run of white space and nothing else, so the result does not start with white space |
| Common.TrimEndIsPrefix | src/pages/SignupPage.tsx:46 | the end of `trim` drops a trailing run of white space and nothing else, so the result does not end with white space |
| Common.BlankIffAllSpace | src/pages/SignupPage.tsx:96 | a field is blank (`!value.trim()`) exactly when it is all white space |
| Common.ParseNatToString | src/components/layout/AppLayout.tsx:32 | `Number` applied to a decimal string written from a natural number gives that number back |
| Signup.Find | src/pages/SignupPage.tsx:23 | the index of the first `@`, with no `@` before it; or none exactly when there is no `@` |
| Signup.EmailShape | src/pages/SignupPage.tsx:22-25 | the e-mail pattern accepts an address exactly when it splits as X@Y.Z, with all three parts non-empty and free of white space and `@` |
| Signup.AcceptedHasParts | src/pages/SignupPage.tsx:22-25 | every accepted address has such a split |
| Signup.PartsAccepted | src/pages/SignupPage.tsx:22-25 | every address built as X@Y.Z from such parts is accepted |
| Signup.ValidatePassword | src/pages/SignupPage.tsx:28-42 | valid exactly when the password has at least 8 characters, a letter, a digit and a special character; valid exactly when the message is empty; the message names the first rule broken, in the source's order |
| Signup.NameIgnoresSurroundingSpace | src/pages/SignupPage.tsx:45-47 | white space around a name does not count towards its 2–50 length |
| Signup.LiveError | src/pages/SignupPage.tsx:49-88 | the role field is never flagged; any message shown is non-empty |
| Signup.SignupPage.HandleChange | src/pages/SignupPage.tsx:49-88 | stores the value; the edited field is flagged exactly when the value is non-empty and fails its check, where the confirmation is compared with the stored password; every other field's error stays as it was |
| Signup.SubmitErrors | src/pages/SignupPage.tsx:92-124 | the error map holds exactly the fields whose per-field submit check fails, each with that check's message |
| Signup.SignupPage.NameCheck | src/pages/SignupPage.tsx:96-100 | a blank name needs a name; otherwise the length rule applies |
| Signup.SignupPage.EmailCheck | src/pages/SignupPage.tsx:103-107 | an empty address needs an address; otherwise the format rule applies |
| Signup.SignupPage.PasswordFieldCheck | src/pages/SignupPage.tsx:110-117 | an empty password needs a password; otherwise the first password rule that fails applies |
| Signup.SignupPage.ConfirmCheck | src/pages/SignupPage.tsx:120-124 | an empty confirmation needs one; otherwise it must equal the password |
| Signup.SignupPage.CollectErrors | src/pages/SignupPage.tsx:92-124 | the map built field by field is the submit's error map |
| Signup.EmptyFieldsAreRequired | src/pages/SignupPage.tsx:96-124 | an empty field gets its "required" message, never a format message |
| Signup.SubmitAllowed | src/pages/SignupPage.tsx:127-132 | the submit goes ahead exactly when the name, address and password validators pass and the confirmation equals the password |
| Signup.DuplicateTest | src/pages/SignupPage.tsx:150-156 | the first duplicate-address test is subsumed by the second |
| Signup.SignupPage.HandleSubmit | src/pages/SignupPage.tsx:90-168 | `signup` is called exactly when the rebuilt error map is empty. Success goes to the login page with the address and a notice. A duplicate-address failure flags only the address field. Any other failure becomes the general error. Loading always ends |
| Signup.ValidValueClearsError | src/pages/SignupPage.tsx:49-88 | re-entering a field with a value that passes its check clears its error |
| Tutoring.Remove | src/components/layout/RightSidebar.tsx:636 | filtering by id keeps exactly the messages with another id |
| Tutoring.RemoveAppend | src/components/layout/RightSidebar.tsx:636 | filtering distributes over a list that grows at its end |
| Tutoring.Settle | src/components/layout/RightSidebar.tsx:708-733 | replaces text, and markdown when given, and clears loading on exactly the messages with the id; the others are unchanged |
| Tutoring.SettleLoading | src/components/layout/RightSidebar.tsx:768-774 | every loading message gets the text and stops loading; the others are unchanged |
| Tutoring.SegmentHeader | src/components/layout/RightSidebar.tsx:1182-1184 | the header is "질문" exactly for a question type and "보충 설명" exactly for SUPPLEMENTARY, ignoring case; otherwise "개념 설명" |
| Tutoring.SegmentTitle | src/components/layout/RightSidebar.tsx:1185-1192 | the chapter title, when present, is put in brackets before the header |
| Tutoring.MapNext | src/components/layout/RightSidebar.tsx:1169-1215 | drops the named loading message and appends exactly one content message with fresh ids. It waits, with the question id stored and a prompt appended, exactly when the reply waits and carries a question id. It auto-advances exactly when not waiting, more is announced and the segment is not a question. Nothing of the session outside the list and the gate changes |
| Tutoring.QuestionNeverAdvances | src/components/layout/RightSidebar.tsx:1195-1214 | a QUESTION segment never auto-advances, and without a question id it does not raise the gate |
| Tutoring.MentionsIffPhraseSomewhere | src/components/layout/RightSidebar.tsx:648 | the test `/waiting\s*for\s*answer/i` holds exactly when the phrase matches at some position |
| Tutoring.Catch | src/components/layout/RightSidebar.tsx:640-656 | appends an error message, and also a prompt that raises the gate when the message mentions waiting for an answer; the list before it is kept and the question id is kept |
| Tutoring.Arrive | src/components/layout/RightSidebar.tsx:568-637 | one `next` call: poll again exactly on PROCESSING with no stop seen; start the follow-up chain only from the first chain, and always from it on content that continues when no stop came during the call (a stop during the sleep still counts that one follow-up); otherwise settle |
| Tutoring.Run | src/components/layout/RightSidebar.tsx:568-663 | a chain makes at most one call per step and at least one when it can; a raised flag ends it with no call; a first chain has at most one follow-up chain and a follow-up chain none; a chain that ends clears the fetching flag |
| Tutoring.Fetch | src/components/layout/RightSidebar.tsx:564-663 | refused exactly without a lecture or while a fetch runs, with nothing changed; otherwise the fetching flag is cleared when the fetch ends, and at most one auto-advance happens (exactly one when the first segment continues: `Tutoring.ExactlyOneFollowUp`) |
| Tutoring.ExactlyOneFollowUp | src/components/layout/RightSidebar.tsx:591-637 | a fetch whose first segment continues, with no stop during that call, posts exactly one follow-up placeholder |
| Tutoring.StaleStopDoesNotBlock | src/components/layout/RightSidebar.tsx:566-571 | a stop left over from an earlier fetch does not prevent the next fetch from calling `next` |
| Tutoring.StopEndsChain | src/components/layout/RightSidebar.tsx:568-637 | a stop seen during a call or the sleep after it ends the chain there |
| Tutoring.RunKeepsSession | src/components/layout/RightSidebar.tsx:564-663 | a poll chain never touches the lecture, the material, the input box or the streaming flag |
| Tutoring.FollowUpKeepsHistory | src/components/layout/RightSidebar.tsx:588-636 | the follow-up chain keeps the list before its placeholder and only adds fresh ids; ending on content or on a stop removes the placeholder |
| Tutoring.FetchKeepsHistory | src/components/layout/RightSidebar.tsx:564-663 | a fetch keeps the list it found, minus the loading message it was asked to drop, and adds only fresh ids; ending on content or on a stop leaves no loading message of its own |
| Tutoring.FetchKeepsSession | src/components/layout/RightSidebar.tsx:564-663 | fetchNextSegment never touches the lecture, the material, the input box or the streaming flag |
| TutoringSession.ChooseAction | src/components/layout/RightSidebar.tsx:679-789 | Enter answers exactly when streaming, waiting and a question is pending with a non-empty input. It skips a blank answer. It advances exactly when streaming and not waiting. It starts exactly when not streaming, with material and a lecture. Otherwise it is ignored |
| TutoringSession.EnterWhileStreaming | src/components/layout/RightSidebar.tsx:683-755 | while streaming, Enter never starts a session; waiting without a question id, Enter is ignored |
| TutoringSession.EnterIgnored | src/components/layout/RightSidebar.tsx:679-789 | a blank answer and an ignored Enter change nothing and call nothing |
| TutoringSession.AnswerAccepted | src/components/layout/RightSidebar.tsx:683-748 | the trimmed answer is sent with the pending question id; the gate is cleared; the pending reply is settled into the supplementary explanation; the next segment is fetched only when the reply allows it |
| TutoringSession.AnswerRejected | src/components/layout/RightSidebar.tsx:726-735 | a failed answer settles the pending reply into the error and leaves the gate and the question id as they were |
| TutoringSession.StartOutcome | src/components/layout/RightSidebar.tsx:758-785 | `initialize` is the first call; only its success makes the session streaming and fetches; a failure rewrites every loading message |
| TutoringSession.AdvanceOutcome | src/components/layout/RightSidebar.tsx:751-755 | advancing clears the input and makes only `next` calls for the current lecture |
| TutoringSession.StopThenEnter | src/components/layout/RightSidebar.tsx:312-341 | after a successful stop Enter can no longer answer or advance; after a failed stop the flags stay and only the abort flag is raised |
| TutoringSession.CancelStreaming | src/components/layout/RightSidebar.tsx:256-265 | while streaming on a lecture, the flag is raised and `cancel` is sent; otherwise nothing happens |
| TutoringSession.LoadUpload | src/components/layout/RightSidebar.tsx:97-111 | the stored record is returned exactly when one exists and is younger than 24 hours |
| TutoringSession.SwitchLectureAsWritten | src/components/layout/RightSidebar.tsx:206-273 | as written: the lecture and the material flag are taken over and a streaming session on the old lecture is cancelled, but streaming, the gate and the question id are kept |
| TutoringSession.SwitchLecture | src/components/layout/RightSidebar.tsx:206-230 | (corrected — see ## Findings) the lecture and the restored material flag are taken over; a change of lecture ends streaming and clears the gate and question id; the same lecture only reloads the flag |
| TutoringSession.SwitchAsWrittenSkipsInitialize | src/components/layout/RightSidebar.tsx:206-273 | with the effect as written, a session streaming on one lecture sends `next` for a new lecture that was never initialized |
| TutoringSession.AfterLastDotOf | src/components/layout/RightSidebar.tsx:345 | `split('.').pop()` is what follows the last dot |
| TutoringSession.AllowedFileNames | src/components/layout/RightSidebar.tsx:345-349 | a file is allowed exactly when its lower-cased last extension is in the allow-list |
| TutoringSession.HttpUrls | src/components/layout/RightSidebar.tsx:232-235 | any case of `http://` or `https://` is accepted; nothing shorter than seven characters is |
| TutoringSession.UploadGateFor | src/components/layout/RightSidebar.tsx:345-367 | the upload goes ahead exactly when the type is allowed, the user is signed in, a course is chosen and a lecture exists; the type is checked first |
| TutoringSession.UploadFailure | src/components/layout/RightSidebar.tsx:418-439 | a failed upload leaves the material flag down and the list grown by the error message, with the file message withdrawn |
| TutoringSession.ReplayKeepsReady | src/components/layout/RightSidebar.tsx:679-789 | (corrected — see ## Findings) with the corrected lecture switch, every learner or browser event keeps the invariant that a streaming lecture has been initialized and every session call was preceded by its lecture's `initialize` |
| TutoringSession.NoSessionCallBeforeInitialize | src/components/layout/RightSidebar.tsx:758-785 | (corrected — see ## Findings) with the corrected lecture switch, whatever the learner does and the server answers, no `next` or `answer` call comes before a successful `initialize` of its lecture |
| TutoringSession.UploadThenReturn | src/components/layout/RightSidebar.tsx:85-111 | an upload survives a trip to another lecture: coming back within 24 hours finds the lecture current with its material restored, and after a trip to a different lecture Enter starts the session |
| TutoringSession.DropAsWritten | src/components/layout/RightSidebar.tsx:549-559 | as written: a dropped file passes the gate, and is posted for the lecture, exactly as the first render's sign-in, course and lecture decide |
| TutoringSession.DropGoesToFirstLecture | src/components/layout/RightSidebar.tsx:549-559 | as written: after a switch of lecture a dropped file is posted for the first lecture, not the current one |
| TutoringSession.DropRefusedAfterSignIn | src/components/layout/RightSidebar.tsx:549-559 | as written: a side bar first shown signed out refuses every dropped file, while the button accepts it |
| TutoringSession.DropFile | src/components/layout/RightSidebar.tsx:343-367 | (corrected — see ## Findings) a dropped file passes exactly the current render's gate and is posted for the current lecture |
| TutoringSession.DropMatchesButton | src/components/layout/RightSidebar.tsx:343-367 | (corrected — see ## Findings) the corrected drop posts exactly when the button's upload calls the server, for the same lecture |
| TutoringSidebar.Sidebar.FetchNextSegment | src/components/layout/RightSidebar.tsx:564-663 | the handler ends in the state, and makes the calls, that `Tutoring.Fetch` describes |
| TutoringSidebar.Sidebar.SendMessage | src/components/layout/RightSidebar.tsx:679-789 | the handler ends in the state, and makes the calls, that `TutoringSession.Send` describes |
| TutoringSidebar.Sidebar.HandleCancelStream | src/components/layout/RightSidebar.tsx:312-341 | ends as `TutoringSession.Stop` describes |
| TutoringSidebar.Sidebar.CancelStreaming | src/components/layout/RightSidebar.tsx:256-291 | ends as `TutoringSession.CancelStreaming` describes |
| TutoringSidebar.Sidebar.SelectLecture | src/components/layout/RightSidebar.tsx:206-230 | (corrected — see ## Findings) ends as the corrected lecture switch describes, reading the stored upload |
| TutoringSidebar.Sidebar.UploadFile | src/components/layout/RightSidebar.tsx:343-453 | ends as `TutoringSession.Upload` describes, storing the record on success |
| TutoringSidebar.DragTracker.Enter | src/components/layout/RightSidebar.tsx:526-533 | the nesting counter goes up; the highlight comes on only for a drag carrying files |
| TutoringSidebar.DragTracker.Leave | src/components/layout/RightSidebar.tsx:535-542 | the counter goes down; the highlight goes off when it reaches zero |
| TutoringSidebar.DragTracker.Drop | src/components/layout/RightSidebar.tsx:549-559 | the counter and the highlight are reset |
| LectureCreation.FindWeek | src/components/layout/RightSidebar.tsx:129-131 | finds a lecture of the course with that week; finds none exactly when none has it or the week is NaN |
| LectureCreation.NewLectureRefusal | src/components/layout/RightSidebar.tsx:119-135 | refuses a blank title first, then a negative week, then a week the course already has; passes exactly when none of these holds |
| LectureCreation.ReplaceLast | src/components/layout/RightSidebar.tsx:159-163 | replacing the id of the message just posted replaces only that message |
| LectureCreation.CreateOutcome | src/components/layout/RightSidebar.tsx:137-192 | the request carries the trimmed title. Success replaces the progress message alone by the success text and makes the new lecture current. Failure keeps the progress message, adds the failure after it, and adds a hint exactly when the message mentions CORS. Ids stay fresh |
| LectureCreation.ModalRefusal | src/components/layout/RightSidebar.tsx:496-512 | the dialog sends nothing exactly when there is no course, the title is blank, the week is empty or the week is below 1 |
| LectureCreation.DuplicateWeekIsSilent | src/components/layout/RightSidebar.tsx:115-135 | as written, submitting a week the course already has gives neither an alert nor a message |
| LectureCreation.ModalSubmitAsWritten | src/components/layout/RightSidebar.tsx:496-524 | as written: a submit gets neither a request nor an alert exactly when the form passes and createLectureForCourse refuses, and then nothing changes |
| LectureCreation.ModalSubmit | src/components/layout/RightSidebar.tsx:496-524 | (corrected — see ## Findings) a request is made only for a chosen course, a non-blank trimmed title and a week of at least 1 that the course does not have |
| LectureCreation.EverySubmitIsAnswered | src/components/layout/RightSidebar.tsx:496-524 | (corrected — see ## Findings) every submit is sent, or refused with an alert, or refused with a chat message |
| MainView.MenuNamesDistinct | src/components/layout/MainContent.tsx:509-521 | every menu label is non-empty and belongs to one entry only |
| MainView.ToggledMenu | src/components/layout/MainContent.tsx:95-97 | the menu closes exactly when that course's menu was open; otherwise that course's menu opens |
| MainView.ToggleTwice | src/components/layout/MainContent.tsx:95-97 | toggling the same course twice restores whether its menu was open; toggling another course moves the menu there |
| MainView.MainPanel.ToggleCourseMenu | src/components/layout/MainContent.tsx:95-97 | the open menu becomes the toggled one |
| MainView.MainPanel.CloseCourseMenu | src/components/layout/MainContent.tsx:73-92 | a click outside or Escape closes the menu |
| MainView.MainPanel.CourseSelect | src/components/layout/MainContent.tsx:99-102 | the parent is told the course and the menu closes |
| MainView.MainPanel.OpenCourseModal | src/components/layout/MainContent.tsx:170-220 | either "add course" button opens the course dialog |
| MainView.LectureAreaOf | src/components/layout/MainContent.tsx:382-500 | the prompt to pick a lecture exactly when there is neither material nor a file; otherwise the material exactly when there is some, and the file exactly when there is one, embedded exactly when its name ends in `.pdf` in any case |
| MainView.ContentAreaNeverEmpty | src/components/layout/MainContent.tsx:382-500 | the content view always shows the material or the file |
| MainView.FindLecture | src/components/layout/MainContent.tsx:385-387 | finds the lecture with the selected id, or none exactly when no lecture has it |
| MainView.OTSelectedIff | src/components/layout/MainContent.tsx:385-388 | with unique ids, the orientation panel shows exactly when the selected lecture exists and is in week 0 |
| MainView.MainPanel.CreateCourse | src/components/layout/MainContent.tsx:104-140 | a blank title is refused without a call. Otherwise the course is created with trimmed fields, then a week-0 "OT" lecture. A failed lecture still reports the course as created. Success clears and closes the dialog. A failed course leaves the dialog unchanged |
| Layout.SelectedCourseId | src/components/layout/AppLayout.tsx:32-34 | an absent or empty parameter selects nothing; a selected id is what `Number` reads from the parameter |
| Layout.RouteRoundTrip | src/components/layout/AppLayout.tsx:32-66 | `/courses/<id>` selects that id, and shows the course page exactly when the id is not 0 |
| Layout.NotANumberIsList | src/components/layout/AppLayout.tsx:32-66 | a parameter that is not a number leaves the course list in view |
| Layout.MenuOnLeave | src/components/layout/AppLayout.tsx:102-111 | leaving a course keeps the lectures menu and otherwise goes back to the dashboard |
| Layout.AppLayout.ResetLectureOutputs | src/components/layout/AppLayout.tsx:68-72 | the generated material, the file URL and the file name are all emptied |
| Layout.AppLayout.LoadCourseDetail | src/components/layout/AppLayout.tsx:74-96 | the detail is what was loaded; a missing detail sets the load-failed error; loading ends |
| Layout.AppLayout.CourseRouteChanged | src/components/layout/AppLayout.tsx:102-118 | a change of course clears the lecture and its outputs; leaving clears the course; entering loads it |
| Layout.AppLayout.BackToCourses | src/components/layout/AppLayout.tsx:124-127 | chooses the lectures menu, which survives the return home |
| Layout.AppLayout.SelectLecture | src/components/layout/AppLayout.tsx:168-171 | the lecture becomes current and the outputs are cleared |
| Layout.AppLayout.LectureDelete | src/components/layout/AppLayout.tsx:142-166 | without a course nothing happens; a failure alerts and changes nothing; success reloads the detail, ending its loading and setting the load-failed error exactly when the reload finds nothing, and deleting the current lecture clears it and its outputs |
| Layout.FindOtherWithWeek | src/components/layout/AppLayout.tsx:215-217 | finds another lecture with the same week, or none exactly when there is none |
| Layout.LectureEditSendsOnlyValid | src/components/layout/AppLayout.tsx:173-239 | an update is sent only with a non-empty title and description and a week of at least 0 that no other lecture has; a dismissed first prompt sends nothing |
| Layout.OwnWeekIsNoDuplicate | src/components/layout/AppLayout.tsx:215-217 | keeping a lecture's own week is never reported as a duplicate |
| Layout.AppLayout.LectureEdit | src/components/layout/AppLayout.tsx:173-239 | without a course nothing is sent and nothing changes; otherwise exactly what the checks let through is sent; a dismissed prompt, a refusal or a failed update changes nothing; success reloads the detail, ending its loading and setting the load-failed error exactly when the reload finds nothing |
| Layout.CourseEditSendsOnlyNamed | src/components/layout/AppLayout.tsx:241-284 | an update is sent exactly when both prompts are answered and the title is not blank; a blank title is refused |
| Layout.AppLayout.CourseEdit | src/components/layout/AppLayout.tsx:241-284 | sends what the checks allow; reloads only when the update succeeded on the open course; a failure alerts the update's error |
| Layout.AppLayout.CourseDelete | src/components/layout/AppLayout.tsx:286-321 | nothing without confirmation; a failure alerts and changes nothing; deleting the open course clears it, its lecture and outputs, and goes home |
| Layout.AppLayout.SetResizing | src/components/layout/AppLayout.tsx:323-345 | pressing the divider starts resizing and releasing it ends it |
| Layout.AppLayout.RightMouseMove | src/components/layout/AppLayout.tsx:328-341 | while resizing, the width follows the pointer only between 260 pixels and 60% of the window; the minimum width is kept |
| Layout.AppLayout.RightDoubleClick | src/components/layout/AppLayout.tsx:347-349 | the width returns to the default |
| Layout.AppLayout.WindowResized | src/components/layout/AppLayout.tsx:368-383 | below 1024 pixels the left side bar is collapsed automatically; widening undoes only an automatic collapse |
| Layout.AppLayout.ToggleLeftSidebar | src/components/layout/AppLayout.tsx:385-392 | a manual toggle flips the side bar and its width and forgets the automatic collapse |
| Courses.Failure | src/hooks/useCourses.ts:48-50 | a failure carries the error's message, or the operation's fallback for a value that is not an `Error` |
| Courses.ReplaceById | src/hooks/useCourses.ts:62-64 | exactly the courses with the id are replaced, in place |
| Courses.RemoveById | src/hooks/useCourses.ts:76 | exactly the courses with another id are kept |
| Courses.RemoveCount | src/hooks/useCourses.ts:76 | the list shrinks by the number of courses with the id |
| Courses.RemoveConcat | src/hooks/useCourses.ts:76 | the kept courses stay in order |
| Courses.RemoveIdempotent | src/hooks/useCourses.ts:73-84 | deleting the same id twice deletes nothing more |
| Courses.ReplaceKeepsIds | src/hooks/useCourses.ts:55-71 | an update that keeps the id keeps every id of the list |
| Courses.CourseList.FetchCourses | src/hooks/useCourses.ts:10-27 | the list becomes the fetched one, or empty on a failure, which is not recorded |
| Courses.CourseList.GetCourseDetail | src/hooks/useCourses.ts:29-37 | the detail, or none on a failure |
| Courses.CourseList.CreateCourse | src/hooks/useCourses.ts:39-53 | the created course is appended; a failure leaves the list |
| Courses.CourseList.UpdateCourse | src/hooks/useCourses.ts:55-71 | the courses with the id are replaced; a failure leaves the list |
| Courses.CourseList.DeleteCourse | src/hooks/useCourses.ts:73-84 | the courses with the id are dropped; a failure leaves the list |
| Courses.CourseList.EnrollCourse | src/hooks/useCourses.ts:86-97 | succeeds exactly when the call does; the list never changes |
| Theme.ParseModeName | src/contexts/ThemeContext.tsx:29-34 | reading back a stored mode gives that mode |
| Theme.InitialMode | src/contexts/ThemeContext.tsx:27-34 | the stored mode when it is one of the three names, otherwise system |
| Theme.DarkFor | src/contexts/ThemeContext.tsx:40-45 | light is never dark, dark always is, system follows the preference |
| Theme.ToggleFlipsDark | src/contexts/ThemeContext.tsx:58-68 | toggling always flips what is shown; from system it picks the explicit opposite of the preference |
| Theme.ToggleTwice | src/contexts/ThemeContext.tsx:58-68 | toggling twice from an explicit mode comes back to it |
| Theme.ThemeProvider.SetThemeMode | src/contexts/ThemeContext.tsx:47-56 | the mode is set and stored, darkness follows it, and the body class matches |
| Theme.ThemeProvider.ToggleTheme | src/contexts/ThemeContext.tsx:58-68 | the mode becomes an explicit one that shows the opposite, and it is stored |
| Theme.ThemeProvider.SystemPreferenceChanged | src/contexts/ThemeContext.tsx:70-88 | only system mode follows a change of the preference |
| Auth.FirstUser | src/contexts/AuthContext.tsx:52-69 | the first attempt that produced a user, with none before it; or none exactly when no attempt did |
| Auth.Attempts | src/contexts/AuthContext.tsx:52-69 | the loop calls `getMe` between one and three times |
| Auth.LastThrown | src/contexts/AuthContext.tsx:52-69 | the last error comes from one of the attempts; none exactly when no attempt threw |
| Auth.WaitsBetweenAttempts | src/contexts/AuthContext.tsx:64-68 | pauses come only between attempts, never after the last one made |
| Auth.RetryGetMe | src/contexts/AuthContext.tsx:52-69 | stops at the first user; without one it makes three calls and keeps the last error; pauses match the failed attempts |
| Auth.NetworkTrumpsUnauthorized | src/contexts/AuthContext.tsx:72-96 | a message mentioning 404, CORS or a failed fetch never removes the token |
| Auth.AuthProvider.InitAuth | src/contexts/AuthContext.tsx:38-103 | without a token nothing is asked. Otherwise the first user found is kept. Without one, the token is removed only on an authentication error that is not a network error. Loading ends |
| Auth.AuthProvider.Login | src/contexts/AuthContext.tsx:105-153 | a login error propagates with nothing changed; a token is stored and the user is looked up, which leaves the session authenticated |
| Auth.AuthProvider.Logout | src/contexts/AuthContext.tsx:169-177 | token, user and timer are gone, and the session is not authenticated |
| Auth.AuthProvider.RefreshUser | src/contexts/AuthContext.tsx:238-247 | whatever `getMe` answers, an empty answer included, becomes the user and the token stays; a failure discards token and user and is rethrown |
| Auth.AuthProvider.UserChanged | src/contexts/AuthContext.tsx:180-236 | a signed-in user gets a 30-minute logout deadline; otherwise there is none |
| Auth.AuthProvider.UserActivity | src/contexts/AuthContext.tsx:197-236 | activity restarts the timer only when signed in and more than a minute after the last recorded activity |
| Auth.AuthProvider.LogoutTimerFired | src/contexts/AuthContext.tsx:180-194 | the timer logs out and goes to the login page |
| Api.ApiBase | src/services/api.ts:1-4 | the configured base, or the built-in backend address when none is configured; never empty |
| Api.CreateHeaders | src/services/api.ts:195-210 | the JSON content type exactly when the body is not form data; the bearer token exactly when it is asked for and present |
| Api.FinalHeaders | src/services/api.ts:221-235 | the caller's headers override the created ones; form data sends no content type in either spelling; authorization is present exactly when the caller or the token supplies it |
| Api.ApiRequest | src/services/api.ts:213-411 | form data never sends a content type. Without a caller override, the authorization header is present exactly when it was asked for with a token. A thrown `fetch` goes through the catch, and an answered one through the classification |
| Api.LoginRequiredIsNotCors | src/services/api.ts:259-333 | the CORS and backend-configuration errors differ from "login required" |
| Api.RedirectNeverReturns | src/services/api.ts:259-333 | a redirect never yields data, and the catch passes its error on unchanged; login and sign-up get the backend-configuration error |
| Api.RedirectLoginRequired | src/services/api.ts:259-333 | for other endpoints a redirect means "log in" exactly when the token or the authorization header is missing; otherwise it is a CORS error |
| Api.StatusZero | src/services/api.ts:335-337 | status 0 outside a redirect is a network failure |
| Api.FetchTypeError | src/services/api.ts:405-410 | a `TypeError` about fetching becomes a network failure naming the URL; other errors pass through |
| Api.ConflictAndUnauthorized | src/services/api.ts:351-376 | 401 and 409 raise the backend's message, taken from the JSON message, then its title, then the text |
| Api.OkResponses | src/services/api.ts:340-404 | 204 is an empty object; otherwise the body is JSON when the content type says so, text when it does not |
| Api.OrElse | src/services/api.ts:368 | `a \|\| b`: the first operand when it is a non-empty string |
| Api.ServerStatusOf | src/services/api.ts:414-459 | online exactly when the probe answered below 500; a message exactly when offline; every `AbortError`, the timeout's, is reported as a timeout; a `TypeError` about `fetch` as an unreachable server |
| Settings.OrNull | src/components/pages/SettingsPage.tsx:15 | `s \|\| null`: present exactly when non-empty |
| Settings.PasswordChangeRefusal | src/components/pages/SettingsPage.tsx:54-67 | accepted exactly when both entries match and have at least 8 characters; a mismatch is reported before the length |
| Settings.EnabledButtonCanStillBeRefused | src/components/pages/SettingsPage.tsx:228 | an enabled button does not mean the change passes the local checks |
| Settings.SettingsPage.UserChanged | src/components/pages/SettingsPage.tsx:19-25 | a present user overwrites the profile fields; a signed-out user leaves them |
| Settings.SettingsPage.ImagePreviewLoaded | src/components/pages/SettingsPage.tsx:27-37 | the preview becomes the data URL the reader produced |
| Settings.SettingsPage.SaveProfile | src/components/pages/SettingsPage.tsx:39-52 | the user is re-read; success and failure each get their alert; saving ends |
| Settings.SettingsPage.ChangePassword | src/components/pages/SettingsPage.tsx:54-79 | a refused change alerts and changes nothing; an accepted one clears the three fields, which disables the button |
| Join.CodeOfJoinPath | src/pages/JoinPage.tsx:13 | a code is read exactly from an address that starts with the join path; it is never longer than what follows the prefix, and a plain rest is read back unchanged |
| Join.PlainCodeRoundTrip | src/pages/JoinPage.tsx:13-35 | a code without `&`, `#`, `+` or `%` put into the join address unencoded reads back unchanged |
| Join.CodeCutAtAmpersand | src/pages/JoinPage.tsx:13-35 | an `&` in the code ends it: only what comes before it is read back |
| Join.PlusReadsAsSpace | src/pages/JoinPage.tsx:13-35 | a `+` in the code is read back as a space |
| Join.JoinRedirectLosesCode | src/pages/LoginPage.tsx:52-62 | as written: after the login the join page sends a visitor to, the visitor is home and the code is gone |
| Join.AfterLogin | src/pages/LoginPage.tsx:52-62 | (corrected — see ## Findings) a login asked to return somewhere goes there, and home otherwise |
| Join.LoginReturnsToSameCode | src/pages/JoinPage.tsx:30-40 | (corrected — see ## Findings) the login redirect state names the join address, so a login that follows it brings the visitor back with the same plain code |
| Join.JoinLandsOnCourse | src/pages/JoinPage.tsx:56-61 | the course page reached after joining selects the joined course |
| Join.JoinPage.AccessEffect | src/pages/JoinPage.tsx:19-45 | no code goes home; nothing happens while sign-in is checked; a visitor who is not signed in is sent to log in with the way back; a signed-in visitor sees the dialog |
| Join.JoinPage.Confirm | src/pages/JoinPage.tsx:47-70 | success goes to the course page with a notice; failure shows the dialog again with the message; the joining flag always ends |
| Join.JoinCourseAsWritten | src/pages/JoinPage.tsx:55 | as written: the undefined `courseApi.joinCourse` throws, and its message is what the page shows |
| Join.ConfirmAsWrittenNeverJoins | src/pages/JoinPage.tsx:47-70 | as written: every confirmation ends on the dialog showing the error, with no navigation |
| Join.JoinPage.Cancel | src/pages/JoinPage.tsx:72-74 | cancelling goes home |
| Join.JoinPage.Render | src/pages/JoinPage.tsx:77-140 | a loader exactly while sign-in is checked or the join runs; nothing exactly while a redirect is pending; otherwise the card, whose dialog shows a non-empty error |
| Join.FailedJoinShowsError | src/pages/JoinPage.tsx:19-140 | a failed join by a signed-in visitor ends on the dialog showing the failure |

## Left out

- Rendering, styling, JSX and scrolling are not modelled. Neither are console logging, `alert`/`confirm`/`prompt` as dialogs, or the timers and sleeps themselves. Dialog answers and alerts are parameters and results.
- Concurrency: React state updates are modelled as taking effect at once, in program order. A stop that arrives during an awaited call is modelled only as the abort flag being raised at that point. Its other effects are separate calls.
- Remote calls and their replies: a poll chain is given a finite transcript of replies. A transcript that runs out leaves the fetch in flight.
- `Number()` is modelled only for optional surrounding white space, an optional sign and decimal digits. Anything else is NaN, and a blank string is 0.
- `toUpperCase`/`toLowerCase` map ASCII only.
- String lengths count code points, not UTF-16 units.
- Common.MessageOr: a thrown value that is not an `Error` has no message, so the fallback is used.
- Auth.ErrorText: a thrown value that is not an `Error` is read as an empty message when deciding whether to keep the token.
- Auth.RetryGetMe, Auth.AuthProvider.InitAuth, Auth.AuthProvider.Login: they require at least three scripted `getMe` replies, which is the loop's maximum.
- Auth's `signup` passes the call through to the HTTP layer unchanged (src/contexts/AuthContext.tsx:155-167). It is modelled only as the reply `Signup.SignupPage.HandleSubmit` receives.
- The `courseApi`, `lectureApi`, `authApi` and `aiApi` endpoint wrappers that api.ts defines are not modelled beyond their replies, and neither are the parent components' callbacks (`onLectureCreated` and the like).
- Settings.SettingsPage.ImagePreviewLoaded: the `FileReader` data URL is a parameter, and the image upload the page leaves unimplemented is not modelled.
- Join: every navigation of the join page uses `replace: true`, so the history entry is never modelled.
- LectureCreation.ModalRefusal: a week field that `Number` reads as NaN passes the check as in the code. In practice the `type="number"` input does not produce one.
- Courses.Failure: the hook's `result.error ?? fallback` is not modelled, because every failure result built by the hook already carries an error.
- MainView.MainPanel: opening and closing the modals and the action menus is modelled only where state is kept across handlers.
- Api.ServerStatusOf: the 3-second timeout is modelled as the probe failing with an `AbortError`, not as time.
- The cleanup effect of src/components/layout/RightSidebar.tsx:268-273 re-runs whenever `isStreaming` or the current lecture changes, not only on a change of the `lectureId` prop. Two of its effects are not modelled: the extra `cancel` it sends with the old closure after a stop that succeeded, and the cancel of a streaming session when `LectureCreation.Create` makes the new lecture current. The material flag reload of lines 206-230 is also not run for a lecture made current that way.
- TutoringSidebar.DragTracker.Drop: resets only the counter and the highlight. The upload the drop starts is modelled apart, as `TutoringSession.DropAsWritten`, and only for its gate and target lecture. That upload runs the first render's `handleFileUpload`, and its state changes to the side bar are not modelled.
- Join.JoinPage.Confirm: `courseApi.joinCourse` (src/pages/JoinPage.tsx:55) is not defined in src/services/api.ts:500-547. The method takes its reply as a parameter, as if the endpoint existed; `Join.ConfirmAsWrittenNeverJoins` is the page as written.
- Join.CodeOfJoinPath: a `%XX` escape is read as the single character of that code. Escapes that together form one UTF-8 character are not combined, and an escape that forms no valid UTF-8 is not turned into U+FFFD.
- Join.LoginReturnsToSameCode: holds only for codes without `&`, `#`, `+` or `%`. The page puts the code into the address unencoded, so other codes come back changed (`Join.CodeCutAtAmpersand`, `Join.PlusReadsAsSpace`).
- Lecture text conversion, markdown rendering and the preview object URLs' revocation are not modelled.

## Findings

| source | as written | input that shows it | evidently intended | confidence | as-written member | corrected member |
|---|---|---|---|---|---|---|
| src/components/layout/RightSidebar.tsx:206-273 | a change of lecture runs the cancel cleanup, which raises the abort flag but leaves `isStreaming` set | stream on lecture 1, switch to lecture 2 (never initialized), press Enter: `next` is sent for lecture 2 | a change of lecture ends the session on this side, so Enter starts lecture 2 with `initialize` | not executed | TutoringSession.SwitchAsWrittenSkipsInitialize | TutoringSession.SwitchLecture |
| src/components/layout/RightSidebar.tsx:115-135, 496-524 | createLectureForCourse throws on a duplicate week before posting anything, and the dialog's handler swallows the error | course 3 with a lecture in week 1; submit title "A", week "1": no alert and no chat message | the refusal is reported like the function's other failures | not executed | LectureCreation.DuplicateWeekIsSilent | LectureCreation.EverySubmitIsAnswered |
| src/components/layout/RightSidebar.tsx:549-559 | `handleDrop` is memoized with no dependencies, so it calls the first render's `handleFileUpload`, which reads that render's `isAuthenticated`, course and `currentLectureId` | side bar first shown signed in on lecture 3, switch to lecture 5, drop `a.pdf`: the file is posted for lecture 3 | a dropped file is uploaded like a chosen one, for the current lecture and sign-in | not executed | TutoringSession.DropGoesToFirstLecture | TutoringSession.DropMatchesButton |
| src/pages/JoinPage.tsx:30-40 | the join page sends a visitor who is not signed in to the login page with `redirectTo` in the router state, but the login page reads only `message` and `email` from the state and always goes to `/` after a login (src/pages/LoginPage.tsx:52-62) | open `/join?code=abc` signed out, then log in: the visitor lands on `/` and the code is gone | a login asked to return somewhere goes back there, so the visitor is back on the join page with the same code | not executed | Join.JoinRedirectLosesCode | Join.LoginReturnsToSameCode |
| src/pages/JoinPage.tsx:55 | the page calls `courseApi.joinCourse(code)`, which src/services/api.ts:500-547 does not define, so the call throws a `TypeError` | a signed-in visitor opens `/join?code=abc` and confirms: the dialog comes back with the engine's message, and no course is joined | an endpoint wrapper for joining by code, whose reply decides the outcome | not executed | Join.ConfirmAsWrittenNeverJoins | Join.JoinLandsOnCourse |
