# Learning-management front end: auth gate, route guard and list screens

This project models the logic of a React learning-management front end that runs entirely on
in-memory mock data, and proves properties of that model in Dafny:

- **Auth gate** (`src/App.tsx`). The `App` component keeps the signed-in `user`, a `loading`
  flag and a `"lms_user"` entry in local storage that outlives a page. It publishes `login`,
  `logout` and `register`, and adopts the stored session on mount without checking it.
  `login` checks email, password and role against a fixed two-entry directory (`mockUsers`).
  `register` synthesises a student session but never adds it to the directory.
- **Route guard and redirects** (`src/App.tsx`, `AuthLayout.tsx`, `NotFound.tsx`).
  `ProtectedRoute` decides between a loading placeholder, a redirect and rendering. The auth
  layout sends a signed-in user away from the login pages. The 404 page links to a home path.
  The route table chains these redirects together.
- **Sign-in form** (`src/pages/auth/Login.tsx`). `handleSubmit` calls `login`, ignores the
  result, and navigates by the selected tab. A failed sign-in is then bounced back to
  `/login` by the guard.
- **List screens**. The admin screens for users, enrollments and courses each have a
  case-insensitive search with optional equality filters. The users screen toggles a user's
  status by id; the enrollments and courses screens delete by id. The student's course
  catalogue has no search or filter; it enrolls in a course by id.
- **Profile page**. The profile form, the password form with its confirm check, and the
  notification switches.

Modules: `Common` (option type, "unset" select filters), `Text` (ASCII `toLowerCase`,
`includes`, decimal `toString`), `Lists` (`filter` and `map` with their laws), `Auth`,
`AuthLayout`, `NotFound`, `Routes`, `LoginPage`, `ManageUsers`, `EnrollmentsManagement`,
`ManageCourses`, `CoursesPage`, `ProfilePage`.

React state is modelled as the fields of a class, one class per component. A handler is a
method that assigns the new value, computed from the snapshot taken before the update. Each
new value is given by a pure function (`AfterLogin`, `ToggleUserStatus`, `DeleteCourse`,
`Enroll`, `SubmitPassword`, ...). The method's postcondition ties the new state to that
function, and lemmas state the properties of the function. Local storage is an
`Option<Session>`, and JSON encoding is the identity. A page reload is `Auth.Restarted`: a
fresh `App` over the same store, after its mount effect. The stored session is typed, so its
role is always "user" or "admin"; an entry edited by hand to hold any other role is outside
the model (see "## Left out").

Where the design description and the code disagree, the model follows the code:

- A signed-in student who opens an admin page is redirected to `/`, not to `/dashboard`
  (`src/App.tsx:141`). From `/` they go on to `/login` and then `/dashboard`.
  `Routes.RedirectsSettle` proves that, for a session whose role is "user" or "admin", such
  chains end within three redirects, on the requested page or on the user's home page.
- `login` returns a boolean although its declared type says `void` (`src/App.tsx:47`, `110`).

## Model

| member | source | states |
|---|---|---|
| `Auth.Find` | src/App.tsx:100-102 | finds an entry iff some directory entry matches email, password and role exactly; the entry found is the first one that matches |
| `Auth.LoginSuccess` | src/App.tsx:98-111 | `login` returns true iff a directory entry matches all three fields; on success the user and the store both hold that entry without its password; `loading` is false afterwards |
| `Auth.LoginFailureKeepsSession` | src/App.tsx:104-110 | a failed `login` leaves the user and the store unchanged, so an earlier session survives; only `loading` is reset to false |
| `Auth.DirectoryRoundTrip` | src/App.tsx:65-110 | every directory entry signs in with its own credentials and role, and becomes the session minus its password; the same credentials with the other role fail |
| `Auth.LogoutThenRestart` | src/App.tsx:113-116 | after `logout` no user is signed in and the store is empty, so a reload also starts signed out and not loading |
| `Auth.RestartTrustsStore` | src/App.tsx:89-95 | a reload adopts whatever session the store holds (its role being "user" or "admin"), unchecked, yields no user when the store is empty, and ends with `loading` false |
| `Auth.LoginSurvivesRestart` | src/App.tsx:104-107 | after a successful `login`, a reload restores the same session |
| `Auth.RegisterSession` | src/App.tsx:118-130 | `register` signs in a student with id "3" (directory size plus one), stores that same session, and ends with `loading` false |
| `Auth.RegisterDoesNotEnableLogin` | src/App.tsx:118-130 | after `register` then `logout`, logging in with the registered email and password succeeds exactly when it would have succeeded before: the directory is never extended |
| `Auth.RegisteredUserCannotLogIn` | src/App.tsx:121-127 | `register("Jane", "jane@x.com", "pw")`, then `logout`, then `login("jane@x.com", "pw", "user")` leaves nobody signed in |
| `Auth.AuthProvider.constructor` | src/App.tsx:85-86 | a new `App` over a store starts with no user and `loading` true |
| `Auth.AuthProvider.Mount` | src/App.tsx:89-95 | the mount effect yields the state `Mounted` gives: the stored session is adopted if there is one, and `loading` becomes false |
| `Auth.AuthProvider.Login` | src/App.tsx:98-111 | returns whether the credentials matched; the new user, loading flag and store are those `AfterLogin` gives |
| `Auth.AuthProvider.Logout` | src/App.tsx:113-116 | the user and the store entry are cleared; `loading` is unchanged |
| `Auth.AuthProvider.Register` | src/App.tsx:118-130 | the new user and store hold the synthesised student session, and `loading` is false |
| `Auth.ProtectedRoute` | src/App.tsx:133-145 | a placeholder iff loading; renders iff not loading, signed in, and the role requirement is absent or met; a signed-out visitor goes to `/login`; a role mismatch goes to `/admin` for an administrator and to `/` otherwise |
| `Routes.RedirectsSettle` | src/App.tsx:154-193 | once loading is over, and with the session's role "user" or "admin", every path settles within three redirects on a page that is shown, and that page is either the one requested or the signed-in user's home page |
| `Routes.StudentOnAdminPage` | src/App.tsx:140-141 | a signed-in student on `/admin` is redirected to `/`, and `/` redirects to `/login` |
| `Routes.LoadingNeverRedirects` | src/App.tsx:134 | while loading, every guarded page shows the placeholder and never redirects |
| `AuthLayout.AuthLayoutRedirect` | src/components/layouts/AuthLayout.tsx:7-20 | with no user there is no redirect and the outlet renders; an administrator goes to `/admin` and any other user to `/dashboard`; the decision reads only the user, not `loading` |
| `NotFound.HomePath` | src/pages/NotFound.tsx:18-22 | the home path is one of `/login`, `/admin`, `/dashboard`: `/login` iff signed out, `/admin` iff the user is an administrator |
| `NotFound.AuthLayoutAgreesWithHomePath` | src/pages/NotFound.tsx:18-22 | for every signed-in user, the auth layout's redirect target equals the 404 page's home path |
| `LoginPage.LoginForm.constructor` | src/pages/auth/Login.tsx:16-20 | the form starts on the "user" tab with empty fields, no error, and not loading |
| `LoginPage.LoginForm.HandleSubmit` | src/pages/auth/Login.tsx:22-39 | the auth state becomes `AfterLogin` of the form's email, password and tab, whether or not they matched; navigates to the tab's target unless the router throws; the error is cleared, and set to the fixed message only on the exception path; `isLoading` is false on both paths |
| `LoginPage.TabTargetIsHome` | src/pages/auth/Login.tsx:32 | the navigation target of a tab is the home path of any session with that role |
| `LoginPage.FailedLoginBouncesToLogin` | src/pages/auth/Login.tsx:28-32 | with nobody signed in, a failed sign-in navigates to a guarded page that redirects to `/login`, where the form is shown again |
| `LoginPage.SuccessfulLoginShowsTarget` | src/pages/auth/Login.tsx:28-32 | after a successful sign-in, the page navigated to is shown |
| `Text.IncludesIffOccurs` | src/pages/admin/ManageUsers.tsx:73-74 | `includes` holds iff the term occurs at some offset of the string |
| `Text.SearchIgnoresTermCase` | src/pages/admin/ManageUsers.tsx:73-74 | lower-casing the search term first does not change which rows match |
| `Text.NatToStringInjective` | src/pages/admin/EnrollmentsManagement.tsx:122 | distinct ids print as distinct decimal strings |
| `Lists.Filter` | src/pages/admin/ManageUsers.tsx:72-79 | the result is no longer than the input, and holds only input elements that pass the predicate |
| `Lists.FilterIsSubsequence` | src/pages/admin/ManageCourses.tsx:64-71 | the result of `filter` is an order-preserving subsequence of its input |
| `Lists.FilterCounts` | src/pages/admin/EnrollmentsManagement.tsx:116-126 | `filter` keeps every occurrence of a passing element and none of a failing one |
| `Lists.FilterMembership` | src/pages/admin/ManageUsers.tsx:72-79 | an element is in the result iff it is in the input and passes |
| `Lists.FilterKeepsAll` | src/pages/admin/ManageUsers.tsx:72-79 | when every element passes, `filter` returns its input |
| `Lists.FilterIdempotent` | src/pages/admin/ManageCourses.tsx:86 | filtering twice by one predicate equals filtering once |
| `Lists.Map` | src/pages/admin/ManageUsers.tsx:99-105 | `map` preserves length, and each output element is the function applied to the input element at the same position |
| `Lists.MapIdempotent` | src/pages/user/Courses.tsx:60-62 | mapping twice by a function that is idempotent on the input equals mapping once |
| `ManageUsers.FilteredUsers` | src/pages/admin/ManageUsers.tsx:72-79 | an order-preserving subsequence of `users`; a user is kept iff its lower-cased name or email includes the lower-cased term and the role and status filters are unset, empty, or equal; each kept user appears as often as in `users` |
| `ManageUsers.EmptySearchKeepsAll` | src/pages/admin/ManageUsers.tsx:73-76 | an empty search term with no role or status filter keeps every user |
| `ManageUsers.ToggleUserStatus` | src/pages/admin/ManageUsers.tsx:99-105 | same length and order; a row with the id has status "inactive" if it was "active" and "active" otherwise, and keeps its other fields; other rows are unchanged |
| `ManageUsers.ToggleAbsentId` | src/pages/admin/ManageUsers.tsx:100-104 | toggling an id no row has leaves the list unchanged |
| `ManageUsers.ToggleTwice` | src/pages/admin/ManageUsers.tsx:101 | toggling the same id twice restores the list when the targeted rows are "active" or "inactive" |
| `ManageUsers.ToggleTwiceOtherStatus` | src/pages/admin/ManageUsers.tsx:101 | a status other than the two values does not come back: two toggles make it "inactive" |
| `ManageUsers.ManageUsersPage.constructor` | src/pages/admin/ManageUsers.tsx:63-67 | the page starts with the mock users and the add dialog closed |
| `ManageUsers.ManageUsersPage.HandleToggleUserStatus` | src/pages/admin/ManageUsers.tsx:98-105 | `users` becomes `ToggleUserStatus` of its old value; the dialog flag is unchanged |
| `ManageUsers.ManageUsersPage.HandleAddUser` | src/pages/admin/ManageUsers.tsx:81-91 | `users` is unchanged and the add dialog is closed |
| `EnrollmentsManagement.FilteredEnrollments` | src/pages/admin/EnrollmentsManagement.tsx:116-126 | an order-preserving subsequence; kept iff the term matches the student name, student email or course title case-insensitively, the course filter is unset or equals the course id in decimal, and the status filter is unset or equal; multiplicities are kept |
| `EnrollmentsManagement.CourseFilterSelectsCourse` | src/pages/admin/EnrollmentsManagement.tsx:122 | with a course id selected in the filter, an enrollment is kept iff it matches the search term, belongs to that course and passes the status filter |
| `EnrollmentsManagement.DeleteEnrollment` | src/pages/admin/EnrollmentsManagement.tsx:141-142 | no remaining enrollment has the id; all others are kept, in order, with their multiplicities |
| `EnrollmentsManagement.DeleteEnrollmentIdempotent` | src/pages/admin/EnrollmentsManagement.tsx:142 | deleting the same id twice equals deleting it once |
| `EnrollmentsManagement.DeleteAbsentEnrollment` | src/pages/admin/EnrollmentsManagement.tsx:142 | deleting an id no enrollment has changes nothing |
| `EnrollmentsManagement.SubmitEnabled` | src/pages/admin/EnrollmentsManagement.tsx:211 | the submit button is enabled iff both the user id and the course id are non-empty |
| `EnrollmentsManagement.EnrollmentsPage.constructor` | src/pages/admin/EnrollmentsManagement.tsx:105-113 | the page starts with the mock enrollments, the dialog closed and an empty form |
| `EnrollmentsManagement.EnrollmentsPage.SelectUser` | src/pages/admin/EnrollmentsManagement.tsx:178 | only the form's user id changes |
| `EnrollmentsManagement.EnrollmentsPage.SelectCourse` | src/pages/admin/EnrollmentsManagement.tsx:193 | only the form's course id changes |
| `EnrollmentsManagement.EnrollmentsPage.HandleAddEnrollment` | src/pages/admin/EnrollmentsManagement.tsx:128-139 | `enrollments` is unchanged; the dialog is closed and the form reset to empty ids, which disables submit again |
| `EnrollmentsManagement.EnrollmentsPage.HandleDeleteEnrollment` | src/pages/admin/EnrollmentsManagement.tsx:141-149 | `enrollments` becomes `DeleteEnrollment` of its old value; the rest of the state is unchanged |
| `ManageCourses.FilteredCourses` | src/pages/admin/ManageCourses.tsx:64-71 | an order-preserving subsequence; a course is kept iff the term matches title or instructor case-insensitively and the category and status filters are unset, empty, or equal; multiplicities are kept |
| `ManageCourses.DeleteCourse` | src/pages/admin/ManageCourses.tsx:85-86 | no remaining course has the id; all others are kept, in order, with their multiplicities |
| `ManageCourses.DeleteCourseIdempotent` | src/pages/admin/ManageCourses.tsx:86 | deleting the same id twice equals deleting it once |
| `ManageCourses.DeleteAbsentCourse` | src/pages/admin/ManageCourses.tsx:86 | deleting an id no course has changes nothing |
| `ManageCourses.ManageCoursesPage.constructor` | src/pages/admin/ManageCourses.tsx:57-61 | the page starts with the mock courses and the dialog closed |
| `ManageCourses.ManageCoursesPage.HandleAddCourse` | src/pages/admin/ManageCourses.tsx:73-83 | `courses` is unchanged and the dialog is closed |
| `ManageCourses.ManageCoursesPage.HandleDeleteCourse` | src/pages/admin/ManageCourses.tsx:85-93 | `courses` becomes `DeleteCourse` of its old value |
| `CoursesPage.CardActionOf` | src/pages/user/Courses.tsx:109-119 | a card offers "Enroll Now" iff its course is not yet enrolled, and the offer is for that course's own id |
| `CoursesPage.Enroll` | src/pages/user/Courses.tsx:58-63 | same length and order; a course with the id becomes enrolled and keeps its other fields; other courses are unchanged; no course goes from enrolled to not enrolled |
| `CoursesPage.EnrollIdempotent` | src/pages/user/Courses.tsx:61 | enrolling twice in one id equals enrolling once |
| `CoursesPage.EnrollAbsentId` | src/pages/user/Courses.tsx:61 | enrolling in an id no course has changes nothing |
| `CoursesPage.EnrollDisablesAction` | src/pages/user/Courses.tsx:109-119 | after the "Enroll Now" action of a card is taken, that card shows "Already Enrolled" |
| `CoursesPage.CoursesView.constructor` | src/pages/user/Courses.tsx:54 | the page starts with the mock catalogue |
| `CoursesPage.CoursesView.HandleEnroll` | src/pages/user/Courses.tsx:58-70 | `courses` becomes `Enroll` of its old value |
| `ProfilePage.InitialProfile` | src/pages/user/Profile.tsx:20-29 | name and email come from the session, or are "" when nobody is signed in; the password fields start empty |
| `ProfilePage.SetField` | src/pages/user/Profile.tsx:39-42 | the named field takes the new value and every other field is unchanged |
| `ProfilePage.Flip` | src/pages/user/Profile.tsx:44-46 | exactly the named switch is negated; the other three are unchanged |
| `ProfilePage.FlipTwice` | src/pages/user/Profile.tsx:45 | flipping the same switch twice restores the settings |
| `ProfilePage.SubmitPasswordOutcome` | src/pages/user/Profile.tsx:56-79 | if the new and confirm passwords differ the profile is unchanged; otherwise the three password fields become "" and name, email, bio, location and website are unchanged |
| `ProfilePage.SubmitPasswordIgnoresCurrent` | src/pages/user/Profile.tsx:59 | neither the branch taken nor the cleared result depends on the current-password field |
| `ProfilePage.Profile.constructor` | src/pages/user/Profile.tsx:20-37 | the page starts with `InitialProfile` of the session and the default notification settings |
| `ProfilePage.Profile.HandleProfileChange` | src/pages/user/Profile.tsx:39-42 | the profile becomes `SetField` of the named input; the notifications are unchanged |
| `ProfilePage.Profile.HandleNotificationChange` | src/pages/user/Profile.tsx:44-46 | the notifications become `Flip` of the key; the profile is unchanged |
| `ProfilePage.Profile.HandleSubmitPassword` | src/pages/user/Profile.tsx:56-79 | reports whether the passwords matched, and the profile becomes `SubmitPassword` of its old value |

## Left out

- Rendering, CSS, icons, UI-library components and toast notifications are left out. The
  toast text in `handleToggleUserStatus` (`users.find` at `src/pages/admin/ManageUsers.tsx:107-113`)
  only feeds a toast.
- Router machinery is left out. Redirect and navigation targets are strings. Path matching is
  exact and case-sensitive, and only `/course/:id` has a parameter; React Router's
  case-insensitive matching and trailing-slash handling are not modelled.
- JSON encoding and local storage are reduced to an `Option<Session>`. A corrupt store entry,
  which `JSON.parse` would reject at `src/App.tsx:92`, is not modelled.
- The transient `loading = true` inside `login` and `register`, and React's batching and
  scheduling of effects, are not modelled. Each handler is one sequential step.
- Auth.RestartTrustsStore: the store holds a typed `Session`, so a stored role other than
  "user" or "admin" cannot be represented. The code adopts such an entry unchecked
  (`src/App.tsx:90-92`), and then the redirects never settle: `/dashboard` goes to `/`
  (`src/App.tsx:140-141`), `/` goes to `/login` (`src/App.tsx:156`), and `/login` goes back to
  `/dashboard` (`src/components/layouts/AuthLayout.tsx:11`).
- Routes.RedirectsSettle: holds only for the two roles the model can represent; with a
  hand-edited stored role outside them, the redirect cycle above is not modelled.
- `LoginPage.LoginForm.HandleSubmit`: neither `login` nor anything else in the model can throw.
  Whether the router's `navigate` throws is a parameter of the method, and it is the only way
  the catch branch is reached.
- The input `onChange` setters of the login form, the search and filter inputs of the list
  screens, and the tab setters are left out. `activeTab` has the two-valued type `Role`, so it
  only ever holds "user" or "admin". The filter functions take the search term and the
  selections as parameters.
- `handleViewUser` only opens a details dialog, and `handleSubmitProfile` and
  `handleSubmitNotifications` only show a toast. None of them changes modelled state.
- Numeric ids are natural numbers; negative or fractional ids do not occur in the mock data
  and are not modelled.
- `toLowerCase` is ASCII-only: Unicode case mapping is not modelled.
- The 200-character bio limit is help text only and is not enforced by the code, so it is not
  modelled.
- `src/pages/auth/Register.tsx` is not part of this model; only the `register` function it
  calls is modelled.
- The dashboards, reports, certificates, my-courses, course-detail and forgot-password pages,
  the sidebars and the other layouts are left out. They render static data or compose other
  components, and hold no logic of their own.
