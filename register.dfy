/** The registration form: the submit handler's validation, in its order,
    and the mapping of the sign-up call's result onto the form's messages.
    The handler awaits the sign-up call, so it is split at the await: the
    part up to the call, and the continuation that runs when the call
    settles. */
module Register {
  import opened Js

  const MinPasswordLength := 6
  const MismatchMessage := "Las contraseñas no coinciden"
  const TooShortMessage := "La contraseña debe tener al menos 6 caracteres"
  const CreatedMessage := "Cuenta creada exitosamente. Revisa tu email para confirmar tu cuenta."
  const ExceptionMessage := "Error al crear la cuenta. Intenta nuevamente."

  /** The error the authentication backend returns. */
  datatype AuthError = AuthError(message: string)

  /** How the awaited sign-up call settles: it returns, with or without an
      error, or it throws. */
  datatype SignUpOutcome = Returned(error: Option<AuthError>) | Threw

  /** The arguments of the sign-up call. */
  datatype Credentials = Credentials(email: string, password: string)

  class RegisterComponent {
    var email: string
    var password: string
    var confirmPassword: string
    var loading: bool
    var errorMessage: string
    var successMessage: string
    /** Sign-up calls issued whose continuation has not run yet. */
    ghost var pending: nat

    constructor ()
      ensures email == "" && password == "" && confirmPassword == ""
      ensures !loading && errorMessage == "" && successMessage == ""
      ensures pending == 0
    {
      email, password, confirmPassword := "", "", "";
      loading := false;
      errorMessage, successMessage := "", "";
      pending := 0;
    }

    /** The form's inputs are written by the user. */
    method SetForm(newEmail: string, newPassword: string, newConfirm: string)
      modifies this
      ensures email == newEmail && password == newPassword && confirmPassword == newConfirm
      ensures loading == old(loading) && errorMessage == old(errorMessage)
      ensures successMessage == old(successMessage) && pending == old(pending)
    {
      email, password, confirmPassword := newEmail, newPassword, newConfirm;
    }

    /** The submit handler up to the await. Mismatched passwords are reported
        first, then passwords shorter than six UTF-16 code units; both end the
        handler with `loading` false and no call. Otherwise the sign-up call
        is issued with the form's email and password and the form waits with
        `loading` true and both messages cleared. */
    method OnSubmit() returns (signUp: Option<Credentials>)
      modifies this
      ensures email == old(email) && password == old(password)
      ensures confirmPassword == old(confirmPassword)
      ensures successMessage == ""
      ensures password != confirmPassword ==>
                signUp == None && errorMessage == MismatchMessage && !loading
      ensures password == confirmPassword && Utf16Length(password) < MinPasswordLength ==>
                signUp == None && errorMessage == TooShortMessage && !loading
      ensures password == confirmPassword && Utf16Length(password) >= MinPasswordLength ==>
                signUp == Some(Credentials(email, password)) && errorMessage == "" && loading
      ensures pending == old(pending) + (if signUp.Some? then 1 else 0)
    {
      signUp := None;
      loading := true;
      errorMessage := "";
      successMessage := "";
      if password != confirmPassword {
        errorMessage := MismatchMessage;
        loading := false;
        return;
      }
      if Utf16Length(password) < MinPasswordLength {
        errorMessage := TooShortMessage;
        loading := false;
        return;
      }
      signUp := Some(Credentials(email, password));
      pending := pending + 1;
    }

    /** The rest of the handler, once the sign-up call has settled: a returned
        error is shown with its own message, a clean return shows the
        confirmation and schedules the move to the login page, a thrown
        exception shows the fixed retry text; `loading` ends false on every
        path. */
    method OnSignUpSettled(outcome: SignUpOutcome) returns (redirectScheduled: bool)
      requires pending > 0
      modifies this
      ensures !loading && pending == old(pending) - 1
      ensures email == old(email) && password == old(password)
      ensures confirmPassword == old(confirmPassword)
      ensures outcome == Returned(None) ==>
                successMessage == CreatedMessage && errorMessage == old(errorMessage) && redirectScheduled
      ensures outcome.Returned? && outcome.error.Some? ==>
                errorMessage == outcome.error.value.message && successMessage == old(successMessage)
                && !redirectScheduled
      ensures outcome.Threw? ==>
                errorMessage == ExceptionMessage && successMessage == old(successMessage) && !redirectScheduled
    {
      redirectScheduled := false;
      match outcome {
        case Returned(error) =>
          if error.Some? {
            errorMessage := error.value.message;
          } else {
            successMessage := CreatedMessage;
            redirectScheduled := true;
          }
        case Threw =>
          errorMessage := ExceptionMessage;
      }
      loading := false;
      pending := pending - 1;
    }

    /** One whole submission with nothing else in between: the call is made
        only when both checks pass; each path writes exactly one of the two
        messages (a returned error writes its own text, which may be empty),
        the success text only for a clean return.
        `loading` is false at the end of every path. */
    method SubmitAndAwait(outcome: SignUpOutcome) returns (signUp: Option<Credentials>, redirectScheduled: bool)
      modifies this
      ensures !loading && pending == old(pending)
      ensures email == old(email) && password == old(password)
      ensures confirmPassword == old(confirmPassword)
      ensures signUp.Some? <==> password == confirmPassword && Utf16Length(password) >= MinPasswordLength
      ensures signUp.Some? ==> signUp.value == Credentials(email, password)
      ensures password != confirmPassword ==> errorMessage == MismatchMessage && successMessage == ""
      ensures password == confirmPassword && Utf16Length(password) < MinPasswordLength ==>
                errorMessage == TooShortMessage && successMessage == ""
      ensures redirectScheduled <==> signUp.Some? && outcome == Returned(None)
      ensures signUp.Some? && outcome == Returned(None) ==>
                successMessage == CreatedMessage && errorMessage == ""
      ensures signUp.Some? && outcome.Returned? && outcome.error.Some? ==>
                errorMessage == outcome.error.value.message && successMessage == ""
      ensures signUp.Some? && outcome.Threw? ==>
                errorMessage == ExceptionMessage && successMessage == ""
    {
      redirectScheduled := false;
      signUp := OnSubmit();
      if signUp.Some? {
        redirectScheduled := OnSignUpSettled(outcome);
      }
    }
  }
}
