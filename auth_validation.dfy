/** What the sign-up and login forms share: the result shape of the field validators, and the
    outcome of a chain of checks. The validators themselves belong to the authentication layer
    and are not part of this model; the view-models receive them as opaque functions. */
module AuthValidation {
  import opened KotlinText

  /** The result of `ValidateEmail`, `ValidateName` or `ValidatePassword`. */
  datatype ValidationResult = ValidationResult(successful: bool, errorMessage: Option<string>)

  /** The outcome of a submit-time validation chain: go ahead, or stop with this error. */
  datatype Check = Pass | Reject(error: Option<string>)
}
