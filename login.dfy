/** The login screen: the form, its change handlers, the two submit-time checks and the
    launched block that authenticates. */
module Login {
  import opened KotlinText
  import opened AuthValidation
  import opened Backend
  import opened Routes

  datatype LoginUiState = LoginUiState(email: string, password: string, isLoading: bool, error: Option<string>)

  const DEFAULT_STATE: LoginUiState := LoginUiState("", "", false, None)

  const PASSWORD_BLANK := "Password can't be blank"

  /** The two early returns of `onSignInClick`: the e-mail result first, then a blank password. */
  function SignInCheck(emailResult: ValidationResult, password: string): (c: Check)
    ensures c == Pass <==> emailResult.successful && !IsBlank(password)
    ensures !emailResult.successful ==> c == Reject(emailResult.errorMessage)
    ensures emailResult.successful && IsBlank(password) ==> c == Reject(Some(PASSWORD_BLANK))
  {
    if !emailResult.successful then Reject(emailResult.errorMessage)
    else if IsBlank(password) then Reject(Some(PASSWORD_BLANK))
    else Pass
  }

  /** No blank password passes, whatever the e-mail result: empty, spaces, tabs, line breaks
      or any other run of Kotlin whitespace. */
  lemma BlankPasswordRejected(emailResult: ValidationResult)
    ensures forall password :: IsBlank(password) ==> SignInCheck(emailResult, password).Reject?
    ensures SignInCheck(emailResult, "").Reject? && SignInCheck(emailResult, " \t\n").Reject?
  {
  }

  /** The view-model; the e-mail validator is given to it at construction and is otherwise
      unknown. */
  class LoginViewModel {
    var state: LoginUiState
    const validateEmail: string -> ValidationResult
    /** The backend calls made so far. */
    ghost var calls: seq<Call>

    constructor (validateEmail: string -> ValidationResult)
      ensures state == DEFAULT_STATE && this.validateEmail == validateEmail && calls == []
    {
      state := DEFAULT_STATE;
      this.validateEmail := validateEmail;
      calls := [];
    }

    method OnEmailChange(email: string)
      modifies this
      ensures state == old(state).(email := email, error := None) && calls == old(calls)
    {
      state := state.(email := email, error := None);
    }

    method OnPasswordChange(password: string)
      modifies this
      ensures state == old(state).(password := password, error := None) && calls == old(calls)
    {
      state := state.(password := password, error := None);
    }

    /** `onSignInClick` up to the account service call. A failed check sets the error and
        nothing else, with no call made; otherwise the launched block starts (loading, no
        error) and authenticates with the form's e-mail and password. */
    method OnSignInClick() returns (started: bool)
      modifies this
      ensures var s := old(state);
        var c := SignInCheck(validateEmail(s.email), s.password);
        if c.Reject? then
          !started && state == s.(error := c.error) && calls == old(calls)
        else
          && started
          && state == s.(isLoading := true, error := None)
          && calls == old(calls) + [Authenticate(s.email, s.password)]
    {
      var emailResult := validateEmail(state.email);
      var c := SignInCheck(emailResult, state.password);
      if c.Reject? {
        state := state.(error := c.error);
        return false;
      }
      state := state.(isLoading := true, error := None);
      calls := calls + [Authenticate(state.email, state.password)];
      started := true;
    }

    /** The rest of the launched block once `authenticate` has returned or thrown. An exception
        goes to the generic crash handler and leaves this state (still loading) alone. */
    method CompleteSignIn(outcome: Outcome<()>) returns (navigation: Option<Navigation>)
      modifies this
      ensures outcome.Success? ==>
        state == old(state).(isLoading := false, error := None) && navigation == Some(Navigation(HOME_SCREEN, LOGIN_SCREEN))
      ensures outcome.Failure? ==> state == old(state) && navigation == None
      ensures calls == old(calls)
    {
      navigation := None;
      if outcome.Success? {
        state := state.(isLoading := false, error := None);
        navigation := Some(Navigation(HOME_SCREEN, LOGIN_SCREEN));
      }
    }
  }
}
