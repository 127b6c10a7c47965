/** The sign-up screen: the form, its change handlers, the submit-time validation chain, and
    the launched block that creates the account and then the user profile. */
module SignUp {
  import opened KotlinText
  import opened AuthValidation
  import opened Backend
  import opened Routes

  /** The sign-up form as the screen shows it. */
  datatype SignUpUiState = SignUpUiState(
    name: string,
    email: string,
    password: string,
    confirmPassword: string,
    isLoading: bool,
    error: Option<string>)

  const DEFAULT_STATE: SignUpUiState := SignUpUiState("", "", "", "", false, None)

  const PASSWORDS_DIFFER := "Passwords don't match"

  /** The `when` of `onSignUpClick`: the name, e-mail and password results are looked at in
      that order and the first failure's message is the error; the confirmation is compared
      only when all three passed. */
  function SignUpCheck(nameResult: ValidationResult, emailResult: ValidationResult,
                       passwordResult: ValidationResult, password: string, confirmPassword: string): (c: Check)
    ensures c == Pass <==>
      nameResult.successful && emailResult.successful && passwordResult.successful && password == confirmPassword
    ensures !nameResult.successful ==> c == Reject(nameResult.errorMessage)
    ensures nameResult.successful && !emailResult.successful ==> c == Reject(emailResult.errorMessage)
    ensures nameResult.successful && emailResult.successful && !passwordResult.successful ==>
      c == Reject(passwordResult.errorMessage)
    ensures nameResult.successful && emailResult.successful && passwordResult.successful && password != confirmPassword ==>
      c == Reject(Some(PASSWORDS_DIFFER))
  {
    if !nameResult.successful then Reject(nameResult.errorMessage)
    else if !emailResult.successful then Reject(emailResult.errorMessage)
    else if !passwordResult.successful then Reject(passwordResult.errorMessage)
    else if password != confirmPassword then Reject(Some(PASSWORDS_DIFFER))
    else Pass
  }

  /** A failing name decides the outcome whatever the other fields hold, and a failing e-mail
      decides it whatever the password and confirmation hold. */
  lemma EarlierCheckWins(nameResult: ValidationResult, emailResult: ValidationResult, emailResult': ValidationResult,
                         passwordResult: ValidationResult, passwordResult': ValidationResult,
                         password: string, confirmPassword: string, password': string, confirmPassword': string)
    ensures !nameResult.successful ==>
      SignUpCheck(nameResult, emailResult, passwordResult, password, confirmPassword)
        == SignUpCheck(nameResult, emailResult', passwordResult', password', confirmPassword')
    ensures nameResult.successful && !emailResult.successful ==>
      SignUpCheck(nameResult, emailResult, passwordResult, password, confirmPassword)
        == SignUpCheck(nameResult, emailResult, passwordResult', password', confirmPassword')
  {
  }

  /** The view-model. The three validators are given to it at construction and are otherwise
      unknown. */
  class SignUpViewModel {
    var state: SignUpUiState
    const validateName: string -> ValidationResult
    const validateEmail: string -> ValidationResult
    const validatePassword: string -> ValidationResult
    /** The backend calls made so far. */
    ghost var calls: seq<Call>

    constructor (validateName: string -> ValidationResult, validateEmail: string -> ValidationResult,
                 validatePassword: string -> ValidationResult)
      ensures state == DEFAULT_STATE && calls == []
      ensures this.validateName == validateName && this.validateEmail == validateEmail
      ensures this.validatePassword == validatePassword
    {
      state := DEFAULT_STATE;
      this.validateName := validateName;
      this.validateEmail := validateEmail;
      this.validatePassword := validatePassword;
      calls := [];
    }

    method OnNameChange(name: string)
      modifies this
      ensures state == old(state).(name := name, error := None) && calls == old(calls)
    {
      state := state.(name := name, error := None);
    }

    method OnEmailChange(email: string)
      modifies this
      ensures state == old(state).(email := email, error := None) && calls == old(calls)
    {
      state := state.(email := email, error := None);
    }

    method OnPasswordChange(password: string)
      modifies this
      ensures state == old(state).(password := password, error := None) && calls == old(calls)
    {
      state := state.(password := password, error := None);
    }

    method OnConfirmPasswordChange(confirmPassword: string)
      modifies this
      ensures state == old(state).(confirmPassword := confirmPassword, error := None) && calls == old(calls)
    {
      state := state.(confirmPassword := confirmPassword, error := None);
    }

    /** `onSignUpClick` up to the account service call. A failed check sets the error and
        nothing else, with no call made. Otherwise the launched block starts: loading, no
        error, and `signUp` with the form's e-mail and password. The form as it was when
        clicked is returned: the block goes on with it in `CompleteSignUp`. */
    method OnSignUpClick() returns (submitted: Option<SignUpUiState>)
      modifies this
      ensures var s := old(state);
        var c := SignUpCheck(validateName(s.name), validateEmail(s.email), validatePassword(s.password),
                             s.password, s.confirmPassword);
        if c.Reject? then
          submitted == None && state == s.(error := c.error) && calls == old(calls)
        else
          && submitted == Some(s)
          && state == s.(isLoading := true, error := None)
          && calls == old(calls) + [Backend.SignUp(s.email, s.password)]
    {
      var nameResult := validateName(state.name);
      var emailResult := validateEmail(state.email);
      var passwordResult := validatePassword(state.password);
      var s := state;
      var c := SignUpCheck(nameResult, emailResult, passwordResult, s.password, s.confirmPassword);
      if c.Reject? {
        state := state.(error := c.error);
        return None;
      }
      state := state.(isLoading := true, error := None);
      calls := calls + [Backend.SignUp(s.email, s.password)];
      submitted := Some(s);
    }

    /** The rest of the launched block, given the form captured at the click, what `signUp`
        returned, and then (if it got that far) what `initUserProfile` did. The profile is
        created for the id that `signUp` returned. Exceptions go to the generic crash handler,
        which does not touch this state: after a failure the screen stays loading and no
        navigation happens. */
    method CompleteSignUp(submitted: SignUpUiState, signUp: Outcome<string>, initProfile: Outcome<()>)
      returns (navigation: Option<Navigation>)
      modifies this
      ensures signUp.Failure? ==> state == old(state) && navigation == None && calls == old(calls)
      ensures signUp.Success? ==>
        calls == old(calls) + [InitUserProfile(submitted.email, submitted.name, signUp.value)]
      ensures signUp.Success? && initProfile.Success? ==>
        state == old(state).(isLoading := false, error := None) && navigation == Some(Navigation(HOME_SCREEN, SIGNUP_SCREEN))
      ensures signUp.Success? && initProfile.Failure? ==> state == old(state) && navigation == None
    {
      navigation := None;
      if signUp.Failure? {
        return;
      }
      var uid := signUp.value;
      calls := calls + [InitUserProfile(submitted.email, submitted.name, uid)];
      if initProfile.Failure? {
        return;
      }
      state := state.(isLoading := false, error := None);
      navigation := Some(Navigation(HOME_SCREEN, SIGNUP_SCREEN));
    }
  }
}
