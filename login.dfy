/** The login form's submit: the signing-in flag, the error and the dashboard it navigates to. */
module Login {
  import opened Wrappers
  import opened Strings
  import opened Auth
  import opened Routes

  datatype LoginState = LoginState(error: string, loading: bool, navigatedTo: Option<string>)

  /** The credential check's answer: the `custom:role` attribute when signed in, the error's message when not. */
  datatype SignInResult = SignedIn(roleAttribute: Option<string>) | Failed(message: string)

  /** Submitting clears the error and raises the loading flag while the credentials are checked. */
  function Begin(st: LoginState): (r: LoginState)
    ensures r.error == "" && r.loading && r.navigatedTo == st.navigatedTo
  {
    st.(error := "", loading := true)
  }

  /**
   * The answer arrives: a signed-in user is sent to the dashboard of the role (absent or
   * empty reads as Player); a failure sets the message and navigates nowhere. Loading
   * ends either way.
   */
  function Finish(st: LoginState, result: SignInResult): (r: LoginState)
    ensures !r.loading
    ensures result.SignedIn? ==> r.navigatedTo == Some(DashboardFor(RoleFromClaim(result.roleAttribute))) && r.error == st.error
    ensures result.Failed? ==> r.navigatedTo == st.navigatedTo && r.error == OrElse(result.message, "Failed to log in")
    ensures result.Failed? ==> r.error != ""
  {
    match result
    case SignedIn(attr) => st.(navigatedTo := Some(DashboardFor(RoleFromClaim(attr))), loading := false)
    case Failed(message) => st.(error := OrElse(message, "Failed to log in"), loading := false)
  }

  /** `handleSubmit` from a fresh page: the role picks the dashboard, a missing role attribute the player's. */
  lemma SubmitFacts(st: LoginState, result: SignInResult)
    requires st.navigatedTo.None?
    ensures var r := Finish(Begin(st), result);
      && !r.loading
      && (result.SignedIn? ==> r.error == "" && r.navigatedTo.Some?)
      && (result == SignedIn(None) ==> r.navigatedTo == Some(PLAYER_HOME))
      && (result.Failed? ==> r.navigatedTo.None? && r.error != "")
  {
  }
}
