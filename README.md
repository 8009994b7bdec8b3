# Student management front end: a verified model of its rules

This project models the rules of a React front end for managing students and
their subject marks, and proves properties of that model in Dafny. It covers:

- the two grading scales: the subject editor's S/A+/A/…/F with A+ from 85,
  and the student view's A+/A/…/F with A+ from 90;
- pass/fail for one subject and for a whole student;
- the averages each page shows;
- index-keyed edits of subject lists;
- the admin roster: page-button window, "Showing X to Y of N" line,
  debounced search, first-load flag, statistics;
- the subject-management landing page and its own page-button loop;
- the edit-student, profile and registration forms;
- the session store (login, logout, hydration from storage);
- the route table and its guard.

HTTP responses, `window.confirm` and timer expiries are inputs. A fetch is
split into the part before the request, which returns the query, and the
part after the response, which takes the response as a value. Every page's
state is a class whose methods change only the fields that the matching
handler sets.

Modules, one per source file (`Common` holds the shared types):

| module | file | source |
|---|---|---|
| `Common` | common.dfy | records, marks, error-message fallback, list removal, debounce |
| `ManageSubjects` | manage_subjects.dfy | src/pages/ManageSubjects.jsx |
| `Dashboard` | dashboard.dfy | src/pages/Dashboard.jsx |
| `SubjectsLanding` | subjects_landing.dfy | src/pages/SubjectsLanding.jsx |
| `EditStudent` | edit_student.dfy | src/pages/EditStudent.jsx |
| `StudentView` | student_view.dfy | src/pages/StudentView.jsx |
| `StudentTable` | student_table.dfy | src/components/StudentTable.jsx |
| `StudentProfile` | student_profile.dfy | src/pages/StudentProfile.jsx |
| `StudentRegister` | student_register.dfy | src/pages/StudentRegister.jsx |
| `AuthContext` | auth_context.dfy | src/context/AuthContext.jsx |
| `App` | app.dfy | src/App.jsx |

How JavaScript values are represented:

- A mark is `Num(n)` or `Missing`. `Missing` stands for `undefined` (an absent
  mark) and for `NaN` (what `parseInt` gives for an empty input). It is falsy,
  and every comparison with it is false.
- A number input is `Blank` or `Entered(n)`.
- A server message is `Option<string>`, and `ErrorText` applies the
  `message || fallback` rule.
- A count read from a response is `Option<nat>`, and `CountOr` applies the
  `x || fallback` rule: 0 and an absent count are both falsy.

## Model

| member | source | states |
|---|---|---|
| Common.ErrorText | src/pages/Dashboard.jsx:120 | the text shown is either the server's message or the page's fallback; a non-empty server message takes precedence; with a non-empty fallback a failure never shows an empty message |
| Common.CountOr | src/pages/Dashboard.jsx:62-63 | the result is the fallback or the response's count, a positive count is kept, and with a fallback of at least 1 (resp. 0) the result is at least 1 (resp. 0): the page count is never below 1 and the total never negative |
| Common.QuotientInRange | src/pages/StudentView.jsx:37 | a total of in-range marks divided by their count lies in 0..100 |
| Common.TotalInRange | src/pages/StudentView.jsx:33-36 | with every mark in 0..100, the sum with absent marks as 0 lies in 0..100·n |
| Common.RemoveAt | src/pages/ManageSubjects.jsx:100 | filtering out index i gives the prefix before i followed by the suffix after i; an index outside the list leaves it unchanged |
| Common.RemoveAtShifts | src/pages/EditStudent.jsx:68-71 | removing an in-range index shortens the list by one, keeps the entries before it and shifts the later ones down by one |
| Common.AfterKeystrokes | src/pages/Dashboard.jsx:35-48 | after a burst of keystrokes the single pending slot holds the last value typed; no keystrokes leave it as it was |
| ManageSubjects.GetGrade | src/pages/ManageSubjects.jsx:39-49 | the result is the best grade whose inclusive lower bound (90 S, 85 A+, 80 A, 70 B+, 60 B, 50 C, 40 D) the mark reaches; a missing mark reaches only F |
| ManageSubjects.GetGradeMonotone | src/pages/ManageSubjects.jsx:39-49 | a higher mark never gets a lower grade |
| ManageSubjects.GetGradeBoundaries | src/pages/ManageSubjects.jsx:39-49 | 90→S, 89→A+, 85→A+, 84→A, 40→D, 39→F, and a non-numeric mark → F |
| ManageSubjects.GetPassFail | src/pages/ManageSubjects.jsx:51-53 | Pass iff the mark is a number ≥ 40, iff its grade is not F |
| ManageSubjects.FailCount | src/pages/ManageSubjects.jsx:133 | at most the number of rows, and 0 iff no row has a numeric mark below 40 |
| ManageSubjects.GetTotalPassFail | src/pages/ManageSubjects.jsx:132-135 | Pass iff the list is non-empty and no mark is below 40, so an empty list fails |
| ManageSubjects.TotalPassFailAgreesWithRows | src/pages/ManageSubjects.jsx:132-135 | with numeric marks, the overall result is Pass iff the list is non-empty and every row shows Pass |
| ManageSubjects.MissingMarkOverallPass | src/pages/ManageSubjects.jsx:132-135 | a row without a mark shows Fail, yet a list made only of it is an overall Pass |
| ManageSubjects.Total | src/pages/ManageSubjects.jsx:128 | the plain sum is a number iff every mark is one (an absent mark makes it NaN), and then it is the sum of the marks |
| ManageSubjects.TruncDiv | src/pages/ManageSubjects.jsx:460 | the quotient rounded toward zero, as `parseInt` of a decimal gives it |
| ManageSubjects.CalculateAverage | src/pages/ManageSubjects.jsx:126-130 | 0 for an empty list; otherwise a number iff every mark is one, and then average·n equals the sum |
| ManageSubjects.AverageInRange | src/pages/ManageSubjects.jsx:126-130 | with marks in 0..100 the average exists and lies in 0..100 |
| ManageSubjects.OverallGrade | src/pages/ManageSubjects.jsx:455-475 | F for an empty list or a non-numeric average; otherwise the grade of the integer part of sum/n |
| ManageSubjects.OverallGradeOfAverage | src/pages/ManageSubjects.jsx:455-475 | with marks in 0..100 the overall grade is the grade of the integer part of the average |
| ManageSubjects.ValidateNewSubject | src/pages/ManageSubjects.jsx:56-65 | accepted iff the trimmed name is non-empty, the marks are entered and lie in 0..100; otherwise the first failing check's message is given, in source order |
| ManageSubjects.EditedAt | src/pages/ManageSubjects.jsx:112-124 | only row i changes: a name edit always applies, a mark edit only when it parses into 0..100; otherwise the list is unchanged |
| ManageSubjects.SubjectManager.constructor | src/pages/ManageSubjects.jsx:11-18 | the page's initial state |
| ManageSubjects.SubjectManager.FetchStudent | src/pages/ManageSubjects.jsx:24-37 | the rows are the record's subjects (or none); a failure sets the message; loading ends either way |
| ManageSubjects.SubjectManager.TypeName | src/pages/ManageSubjects.jsx:255 | the new-subject name field takes the typed text |
| ManageSubjects.SubjectManager.TypeMarks | src/pages/ManageSubjects.jsx:271 | the new-subject marks field takes the input |
| ManageSubjects.SubjectManager.AddSubject | src/pages/ManageSubjects.jsx:55-83 | a rejected entry sends nothing and sets its message; an accepted one sends the list with the subject appended, which becomes the list only if the update succeeds |
| ManageSubjects.SubjectManager.DeleteSubject | src/pages/ManageSubjects.jsx:97-110 | declined: nothing changes; confirmed: the list without row i is sent and kept only on success, with the success or failure message |
| ManageSubjects.SubjectManager.EditChange | src/pages/ManageSubjects.jsx:112-124 | the rows become the edited rows defined by `EditedAt` |
| Dashboard.PageWindow | src/pages/Dashboard.jsx:402-412 | min(5, totalPages) consecutive increasing page numbers, all in 1..totalPages; up to five pages the run starts at 1, beyond that at currentPage−2 clamped to 1..totalPages−4 |
| Dashboard.PageWindowShowsCurrent | src/pages/Dashboard.jsx:402-412 | an in-range current page is among the buttons |
| Dashboard.PageWindowExamples | src/pages/Dashboard.jsx:402-412 | 12 pages give 1..5 at page 1, 8..12 at page 12 and 4..8 at page 6 |
| Dashboard.ShowingRange | src/pages/Dashboard.jsx:379-382 | the end is min(page·limit, total): at most both and equal to one of them; the start is 0 iff the page is empty, else (page−1)·limit+1 |
| Dashboard.ShowingCountsRows | src/pages/Dashboard.jsx:379-382 | when a page holds the rows the server returns for it, the line spans exactly that many rows |
| Dashboard.ShowingExamples | src/pages/Dashboard.jsx:379-382 | "1 to 10 of 23", "21 to 23 of 23", "0 to 0 of 0" |
| Dashboard.GenderCount | src/pages/Dashboard.jsx:99-100 | a counter never exceeds the number of records |
| Dashboard.MaleFemaleAtMostAll | src/pages/Dashboard.jsx:99-100 | male + female ≤ n, since the two tests are exclusive |
| Dashboard.DepartmentCountsExact | src/pages/Dashboard.jsx:99-100 | a department key is present iff some record has it, and its count is the number of such records (an absent department counts under "undefined") |
| Dashboard.DepartmentCountsSum | src/pages/Dashboard.jsx:92-102 | the department counts add up to the number of records |
| Dashboard.AggregateStats | src/pages/Dashboard.jsx:87-112 | the loop's counters equal the male, female and department counts, and the total is the response total or else n |
| Dashboard.DashboardState.constructor | src/pages/Dashboard.jsx:14-32 | the roster's initial state |
| Dashboard.DashboardState.Search | src/pages/Dashboard.jsx:35-48 | a keystroke replaces whatever search was pending |
| Dashboard.DashboardState.FireDebounce | src/pages/Dashboard.jsx:44-47 | firing commits the pending text and returns to page 1; with nothing pending nothing changes |
| Dashboard.DashboardState.StartFetch | src/pages/Dashboard.jsx:50-60 | the query is page, limit and committed search; the blocking indicator on the first load, the inline one afterwards; the error clears |
| Dashboard.DashboardState.FinishFetch | src/pages/Dashboard.jsx:61-75 | success stores rows, page count (at least 1) and total, and ends the first load; failure keeps the data, sets the message and keeps the first-load flag; both indicators end |
| Dashboard.DashboardState.FetchAllStats | src/pages/Dashboard.jsx:87-112 | success replaces the statistics by the aggregate of the records; failure keeps them |
| Dashboard.DashboardState.Delete | src/pages/Dashboard.jsx:114-123 | success clears the error and refetches; failure sets the message and rethrows |
| Dashboard.DashboardState.PageChange | src/pages/Dashboard.jsx:125-129 | the page changes iff the new page is in 1..totalPages |
| Dashboard.DashboardState.LimitChange | src/pages/Dashboard.jsx:131-134 | the limit is set and the page always returns to 1 |
| Dashboard.SearchBurst | src/pages/Dashboard.jsx:35-48 | a burst of keystrokes and one timer expiry commit only the last text, on page 1, and leave the rows, page count, total, limit, error and statistics as they were |
| SubjectsLanding.RenderPageNumbers | src/pages/SubjectsLanding.jsx:70-96 | the loop yields exactly the roster's page window, for every current page and page count: consecutive, in 1..totalPages, min(5, totalPages) long |
| SubjectsLanding.ListingState.constructor | src/pages/SubjectsLanding.jsx:10-20 | the listing's initial state |
| SubjectsLanding.ListingState.StartFetch | src/pages/SubjectsLanding.jsx:22-33 | the query uses the fixed limit 10, and the first-load flag is cleared before any response |
| SubjectsLanding.ListingState.FinishFetch | src/pages/SubjectsLanding.jsx:34-42 | success stores rows, page count (at least 1) and total; failure changes no data; both indicators end |
| SubjectsLanding.ListingState.SearchChange | src/pages/SubjectsLanding.jsx:49-58 | a keystroke replaces whatever search was pending |
| SubjectsLanding.ListingState.FireDebounce | src/pages/SubjectsLanding.jsx:54-57 | firing commits the pending text and returns to page 1 |
| SubjectsLanding.ListingState.PageChange | src/pages/SubjectsLanding.jsx:64-68 | the page changes iff the new page is in 1..totalPages |
| SubjectsLanding.FailedFirstLoad | src/pages/SubjectsLanding.jsx:24-29 | a failed first fetch ends this page's first load but not the roster's |
| EditStudent.UntouchedSubmitSendsRecord | src/pages/EditStudent.jsx:31-89 | loading a record and submitting it untouched sends back each field the record has, "" for each it lacks, and no password |
| EditStudent.LoadForm | src/pages/EditStudent.jsx:26-46 | every text field comes from the record or is "", the subjects default to [], and the password starts empty |
| EditStudent.WithField | src/pages/EditStudent.jsx:48-53 | only the named field takes the value |
| EditStudent.AddSubject | src/pages/EditStudent.jsx:61-66 | one row {"" , 0} is appended and the earlier rows are unchanged |
| EditStudent.MarkInputsCompared | src/pages/EditStudent.jsx:57 | this form's `Number` never yields NaN and reads an empty input as 0, where the subject editor's `parseInt` (src/pages/ManageSubjects.jsx:115) yields NaN exactly for an empty input; on an entered number both give that number |
| EditStudent.SubjectChange | src/pages/EditStudent.jsx:55-59 | in place, only the named field of row i changes, and a mark is taken with no range check |
| EditStudent.BuildUpdate | src/pages/EditStudent.jsx:79-89 | the five fields always, and the password iff it is non-empty |
| EditStudent.EditStudentPage.constructor | src/pages/EditStudent.jsx:9-21 | the form's initial state |
| EditStudent.EditStudentPage.FetchStudent | src/pages/EditStudent.jsx:26-46 | the form is loaded from the record, or the message is set; loading ends |
| EditStudent.EditStudentPage.Change | src/pages/EditStudent.jsx:48-53 | the form becomes `WithField` of the old form |
| EditStudent.EditStudentPage.EditSubject | src/pages/EditStudent.jsx:55-59 | only row i of the form changes, as `SubjectChange` changes it |
| EditStudent.EditStudentPage.AddSubjectRow | src/pages/EditStudent.jsx:61-66 | the rows become `AddSubject` of the old rows |
| EditStudent.EditStudentPage.RemoveSubjectRow | src/pages/EditStudent.jsx:68-71 | the rows lose exactly index i |
| EditStudent.EditStudentPage.Submit | src/pages/EditStudent.jsx:73-107 | the record update goes first; the subjects update follows only after it succeeds and only with rows; the page goes to /dashboard iff every request sent succeeded; saving ends |
| StudentView.CalculateAverage | src/pages/StudentView.jsx:31-38 | 0 without subjects; otherwise average·n is the sum with absent marks as 0 |
| StudentView.AverageInRange | src/pages/StudentView.jsx:31-38 | with marks in 0..100 the average lies in 0..100 |
| StudentView.CalculateGrade | src/pages/StudentView.jsx:40-49 | the best grade whose lower bound (90 A+, 80 A, 70 B+, 60 B, 50 C, 40 D) the average reaches, never S |
| StudentView.SubjectGrade | src/pages/StudentView.jsx:161-169 | the row grade is `CalculateGrade` of the mark, with an absent mark as 0 |
| StudentView.CalculateGradeMonotone | src/pages/StudentView.jsx:40-49 | a higher average never gets a lower grade |
| StudentView.SubjectGradeMonotone | src/pages/StudentView.jsx:161-169 | a higher mark never gets a lower row grade |
| StudentView.ScalesCompared | src/pages/StudentView.jsx:161-169 | this scale never grades above the subject editor's; 85..89 is A+ there but A here, ≥ 90 is S there but A+ here, and below 85 they agree |
| StudentTable.CalculateAverage | src/components/StudentTable.jsx:18-22 | "N/A" iff the list is absent or empty; otherwise average·n is the sum with absent marks as 0 |
| StudentTable.AgreesWithStudentView | src/components/StudentTable.jsx:18-22 | where the table shows a number it is the student view's average, and where it shows "N/A" the student view shows 0 |
| StudentTable.HandleDelete | src/components/StudentTable.jsx:11-16 | declined: no call; confirmed: `onDelete(id)` first, then `onRefresh()` iff the delete did not throw; a throw propagates |
| StudentTable.DeleteOnDashboard | src/pages/Dashboard.jsx:370-373 | the table's `HandleDelete` wired to the roster: a confirmed, successful delete fetches the page twice, once in the roster's handler and once through `onRefresh` |
| StudentProfile.WithField | src/pages/StudentProfile.jsx:49-55 | only the named field of the edit copy takes the value |
| StudentProfile.SavePayloadFields | src/pages/StudentProfile.jsx:62-67 | the payload is determined exactly by name, email, phone and gender, so id, registration number, department and subjects never reach it |
| StudentProfile.EditReachesPayload | src/pages/StudentProfile.jsx:49-67 | a typed field reaches the payload and the other three are as before |
| StudentProfile.PassedFailedPartition | src/pages/StudentProfile.jsx:334-350 | passed + failed ≤ total, with equality iff every mark is a number |
| StudentProfile.SummaryCardsAgree | src/pages/StudentProfile.jsx:334-350 | with numeric marks the passed and failed cards add up to the total card |
| StudentProfile.ProfilePage.constructor | src/pages/StudentProfile.jsx:23-35 | after a successful fetch the record and the edit copy are both the fetched record |
| StudentProfile.ProfilePage.Edit | src/pages/StudentProfile.jsx:37-41 | editing starts on a copy of the record, and the success message clears |
| StudentProfile.ProfilePage.Cancel | src/pages/StudentProfile.jsx:43-47 | editing ends, the copy returns to the record, and the error clears |
| StudentProfile.ProfilePage.InputChange | src/pages/StudentProfile.jsx:49-55 | the copy becomes `WithField` of the old copy |
| StudentProfile.ProfilePage.Save | src/pages/StudentProfile.jsx:57-82 | the four fields are sent; success makes the copy the record and ends editing; failure keeps the record, sets the message and so shows the error screen; saving ends |
| StudentProfile.ProfilePage.SuccessTimeout | src/pages/StudentProfile.jsx:75 | the success message clears |
| StudentProfile.CancelDiscardsEdits | src/pages/StudentProfile.jsx:37-55 | edit, type, cancel leaves the record and a clean copy of it |
| StudentProfile.SaveKeepsEdit | src/pages/StudentProfile.jsx:37-82 | edit, type, successful save: the record holds the typed value and the request carried it |
| StudentRegister.WithField | src/pages/StudentRegister.jsx:22-28 | only the named field takes the value |
| StudentRegister.PayloadOmitsConfirmation | src/pages/StudentRegister.jsx:47-55 | the confirmation never reaches the request, and the password and registration number do |
| StudentRegister.Validate | src/pages/StudentRegister.jsx:34-43 | a mismatch is reported first, then a password shorter than 6; the form passes iff the passwords match and have at least 6 characters |
| StudentRegister.RegisterPage.constructor | src/pages/StudentRegister.jsx:9-20 | the empty form |
| StudentRegister.RegisterPage.Change | src/pages/StudentRegister.jsx:22-28 | the named field changes and the error clears |
| StudentRegister.RegisterPage.Submit | src/pages/StudentRegister.jsx:30-70 | a request is sent iff validation passes; success signs in with the returned user and token and goes to /student-view; failure sets the message and leaves the session alone; loading ends after a request |
| StudentRegister.RegisterSignsIn | src/pages/StudentRegister.jsx:57-60 | a valid registration answered with a non-empty token leaves the session signed in |
| AuthContext.RolesExclusive | src/context/AuthContext.jsx:49-55 | no user is both admin and student |
| AuthContext.AuthProvider.constructor | src/context/AuthContext.jsx:14-16 | signed out and loading on mount; user and token are both absent, so the store's invariant (both present or both absent) holds |
| AuthContext.AuthProvider.Hydrate | src/context/AuthContext.jsx:19-29 | the session is restored iff the stored token is truthy and a stored user exists; loading ends either way; the invariant is kept |
| AuthContext.AuthProvider.Login | src/context/AuthContext.jsx:31-36 | user and token are set and both are stored; the invariant holds |
| AuthContext.AuthProvider.Logout | src/context/AuthContext.jsx:38-43 | both are cleared and both keys removed, so the session is neither authenticated nor admin nor student; the invariant holds |
| AuthContext.LoginThenReload | src/context/AuthContext.jsx:19-36 | a login survives a reload iff its token is non-empty, with the same user and role |
| AuthContext.LogoutThenReload | src/context/AuthContext.jsx:19-43 | after a logout a reload starts signed out |
| App.RootAfterLogin | src/App.jsx:109-122 | after `login(u, t)` the session counts as signed in iff t is non-empty, and "/" then lands on the dashboard for an admin role, on the student view for any other, and on the admin login for an empty token |
| App.GuardDecision | src/App.jsx:13-33 | the child renders iff loading is over, the user is signed in and, on admin routes, is an admin; otherwise the loading screen, /admin-login or /student-view, each in exactly its case |
| App.GuardedPathsWait | src/App.jsx:16-22 | while loading, every guarded path shows the loading screen |
| App.UnguardedPathsIgnoreLoading | src/App.jsx:36-70 | the public, default and catch-all routes do not read `loading` |
| App.SignedInLeavesPublicPages | src/App.jsx:41-70 | signed in, /admin-login goes to /dashboard and the student login and registration go to /student-view |
| App.RootDecision | src/App.jsx:109-122 | "/" goes to /dashboard for an admin, /student-view for another signed-in user, /admin-login otherwise |
| App.UnmatchedGoesToRoot | src/App.jsx:125 | unknown paths go to "/" |
| App.AdminPagesNeedAdmin | src/App.jsx:73-97 | however many redirects are followed, an admin page renders only for a signed-in admin once loading is over |
| App.SettlesWithinTwoRedirects | src/App.jsx:41-125 | once loaded, every path renders a page within two redirects, and which page is fixed by the session |
| App.UnknownPathLanding | src/App.jsx:109-125 | an unknown path lands on the admin login, the dashboard or the student view, by session |
| App.GuardedAfterLogout | src/App.jsx:24-26 | after a logout every guarded path ends at the admin login |

## Left out

- HTTP: each request is one input value, a success with its body or a failure with an optional `message`. The URLs are not modelled. The subject editor uses `/api/students/:id` for its fetch and add, and `/students/:id` for its delete.
- Timers: the 500 ms debounce is a pending slot with an explicit fire step, and the 3 s success-message clear is an explicit step (`SuccessTimeout`) or not modelled.
- ManageSubjects.OverallGrade: takes the integer part of sum/n, while the page takes it of the two-place rounded average (`toFixed(2)`). The two differ when rounding carries to the next integer, for example an average of 89.996.
- ManageSubjects.CalculateAverage, StudentView.CalculateAverage, StudentTable.CalculateAverage: are exact reals; the rounding to two places (`toFixed(2)`, `parseFloat`) is not modelled.
- StudentRegister.Validate: counts the password length in characters, not in UTF-16 code units.
- `parseInt` and `Number` on text: a number input is `Blank` or a whole number, so partial parses such as "12abc" and fractional marks are not modelled.
- Dashboard.DepartmentCounts, Dashboard.DepartmentCountsExact, Dashboard.DepartmentCountsSum: count into a map with no inherited keys. The source counts into a plain object, so a department named after an `Object.prototype` member ("constructor", "toString", "hasOwnProperty" and the like) starts from a function rather than 0 and stores text, and "__proto__" is never stored. The exact counts and their sum hold only for the other names. A JSON `null` department, counted under "null" by the source, is not distinguished from an absent one, counted under "undefined".
- Marks sent as JSON `null`, which compare as 0, are not distinguished from absent marks.
- Aliasing: the subject editors mutate a row object shared by the old and the new list. On values this is the same as replacing the row.
- Responses arriving out of order, re-render scheduling and React's effect dependencies are not modelled.
- `localStorage` and `JSON`: storage is two optional fields holding the values themselves. `AuthContext.AuthProvider.Login` takes a present user and token, so storing `undefined` (which `localStorage` turns into the text "undefined") is not modelled.
- StudentProfile's fetch: the page class starts from a loaded record; its fetch failure shows the error screen and is not modelled.
- `handleUpdateSubject` in the subject editor (re-sends the current list) is not modelled: it only issues a request and sets messages.
- The keep-alive ping (src/utils/keepAlive.js) and the token interceptor (src/services/api.js) are not part of this model.
- The pages with no rule beyond post-and-navigate (AddStudent, AdminLogin, StudentLogin, Welcome, Navbar, Sidebar), and all rendering, are not part of this model. StudentProfile, ManageSubjects and SubjectsLanding have no entry in the route table (src/App.jsx:41-125); the model does not route to them either.
