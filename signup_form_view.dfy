/** The decision logic of the sign-up form: the submit gate, the start of a
    pending sign-up, and the links to the other steps. */
module SignupScreen {
  import opened Models
  import opened Text
  import opened Session

  /** The message shown when the form is not ready. */
  const ValidationMessage: string := "Please enter NetID and matching passwords."

  /** The plain navigation controls of the sign-up form. */
  datatype SignupLink = BackToLogin | OpenPressureTester

  class SignupFormView {
    const app: AppState
    var netId: string
    var password: string
    var confirmPassword: string
    var wantsPressure: bool
    var wantsLocation: bool
    var showValidationError: bool
    var validationMessage: string

    constructor (app: AppState)
      ensures this.app == app
      ensures netId == "" && password == "" && confirmPassword == ""
      ensures wantsPressure && wantsLocation
      ensures !showValidationError && validationMessage == ""
    {
      this.app := app;
      netId := "";
      password := "";
      confirmPassword := "";
      wantsPressure := true;
      wantsLocation := true;
      showValidationError := false;
      validationMessage := "";
    }

    /** The form may be submitted exactly when the netid holds a
        non-whitespace character, a password was typed, and it was confirmed
        identically. */
    function CanSubmit(): (ready: bool)
      reads this`netId, this`password, this`confirmPassword
      ensures ready <==> HasNonWhitespace(netId) && |password| > 0 && password == confirmPassword
    {
      Trim(netId) != [] && password != [] && password == confirmPassword
    }

    /** The effect of a submission. A form that is not ready only raises the
        validation alert. A ready one starts a pending sign-up with the netid
        as typed (untrimmed) and the chosen factors, and moves to the review of
        the unknowing click; the alert state is left alone. */
    twostate predicate SubmitHandled(sample: ClickSample)
      reads this, app
    {
      if old(CanSubmit()) then
        && app.pendingSignup
          == Some(PendingSignupData(netId, wantsPressure, wantsLocation, Some(sample), None))
        && app.signupUnknowingSample == Some(sample)
        && app.authStep == SignupUnknowingReview
        && showValidationError == old(showValidationError)
        && validationMessage == old(validationMessage)
      else
        && app.pendingSignup == old(app.pendingSignup)
        && app.signupUnknowingSample == old(app.signupUnknowingSample)
        && app.authStep == old(app.authStep)
        && showValidationError
        && validationMessage == ValidationMessage
    }

    method HandleCreateAccount(unknowingSample: ClickSample)
      modifies app`pendingSignup, app`signupUnknowingSample, app`authStep
      modifies this`showValidationError, this`validationMessage
      ensures SubmitHandled(unknowingSample)
    {
      if !CanSubmit() {
        validationMessage := ValidationMessage;
        showValidationError := true;
      } else {
        app.StartPendingSignup(netId, wantsPressure, wantsLocation, unknowingSample);
        app.Go(SignupUnknowingReview);
      }
    }

    /** The end of a click on the sign-up control: the gate in front of
        `handleCreateAccount` raises the same alert as its own guard, so a
        click has the effect of a submission either way. */
    method SignupClickEnded(sample: ClickSample)
      modifies app`pendingSignup, app`signupUnknowingSample, app`authStep
      modifies this`showValidationError, this`validationMessage
      ensures SubmitHandled(sample)
    {
      if CanSubmit() {
        HandleCreateAccount(sample);
      } else {
        validationMessage := ValidationMessage;
        showValidationError := true;
      }
    }

    /** "Back to login" returns to the login step; the pressure tester opens
        its own step. Nothing else changes. */
    method FollowLink(link: SignupLink)
      modifies app`authStep
      ensures app.authStep == match link
        case BackToLogin => Login
        case OpenPressureTester => SignupPressureTry
    {
      match link
      case BackToLogin => app.Go(Login);
      case OpenPressureTester => app.Go(SignupPressureTry);
    }
  }
}
