/** `src/pages/auth/Login.tsx`: the sign-in form and its submit handler. */
module LoginPage {
  import opened Common
  import opened Auth
  import opened Routes
  import NotFound

  /** The message shown when the submit handler catches an exception. */
  const ErrorMessage := "An error occurred. Please try again."

  /** Where the form navigates after calling `login`: chosen by the
      selected tab alone. */
  function TabTarget(activeTab: Role): string
  {
    if activeTab == Admin then "/admin" else "/dashboard"
  }

  /** The tab's target is the home page of any session with that role. */
  lemma TabTargetIsHome(activeTab: Role, session: Session)
    requires session.role == activeTab
    ensures TabTarget(activeTab) == NotFound.HomePath(Some(session))
  {
  }

  /** The form's state. `activeTab` has type `Role`, so it only ever holds
      the two tab values. */
  class LoginForm {
    var activeTab: Role
    var email: string
    var password: string
    var error: string
    var isLoading: bool

    constructor()
      ensures activeTab == User && email == "" && password == "" && error == "" && !isLoading
    {
      activeTab := User;
      email := "";
      password := "";
      error := "";
      isLoading := false;
    }

    /** `handleSubmit`: clear the error, call `login` and ignore its result,
        then navigate by tab. `navigateThrows` says whether the router's
        `navigate`, which is outside the model, throws; in that case the
        catch block sets the error message and nothing is navigated to.
        `isLoading` is cleared by the `finally` block on both paths. */
    method HandleSubmit(auth: AuthProvider, navigateThrows: bool) returns (target: Option<string>)
      modifies this, auth, auth.store
      ensures auth.State() == AfterLogin(old(auth.State()), email, password, activeTab)
      ensures target == if navigateThrows then None else Some(TabTarget(activeTab))
      ensures error == if navigateThrows then ErrorMessage else ""
      ensures !isLoading
      ensures activeTab == old(activeTab) && email == old(email) && password == old(password)
    {
      error := "";
      isLoading := true;
      var _ := auth.Login(email, password, activeTab);
      if navigateThrows {
        error := ErrorMessage;
        target := None;
      } else {
        target := Some(TabTarget(activeTab));
      }
      isLoading := false;
    }
  }

  /** With nobody signed in, a failed sign-in still navigates, and the
      guarded page it lands on sends the visitor back to `/login`, where
      the form is shown again. */
  lemma FailedLoginBouncesToLogin(s: AuthState, email: string, password: string, tab: Role)
    requires s.user.None?
    requires !LoginSucceeds(email, password, tab)
    ensures Resolve(AfterLogin(s, email, password, tab), TabTarget(tab)) == Redirect("/login")
    ensures Resolve(AfterLogin(s, email, password, tab), "/login") == Show
  {
  }

  /** A successful sign-in navigates to a page the new session may see. */
  lemma SuccessfulLoginShowsTarget(s: AuthState, email: string, password: string, tab: Role)
    requires LoginSucceeds(email, password, tab)
    ensures Resolve(AfterLogin(s, email, password, tab), TabTarget(tab)) == Show
  {
  }
}
