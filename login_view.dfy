/** The decision logic of the login screen: the submit gate, the routing of a
    login click, and the links to the other steps. */
module LoginScreen {
  import opened Models
  import opened Text
  import opened Directory
  import opened Session

  /** The plain navigation controls of the login screen. */
  datatype LoginLink = ForgotPassword | NeedHelp | Back | SignUp

  class LoginView {
    const app: AppState
    var netId: string
    var password: string
    /** The "use Trio as a second factor" toggle. */
    var wantsTrioPressure: bool
    var showMissingUserAlert: bool

    constructor (app: AppState)
      ensures this.app == app
      ensures netId == "" && password == "" && wantsTrioPressure && !showMissingUserAlert
    {
      this.app := app;
      netId := "";
      password := "";
      wantsTrioPressure := true;
      showMissingUserAlert := false;
    }

    /** The log-in control is live exactly when the netid holds a
        non-whitespace character and a password was typed. */
    function CanSubmit(): (ready: bool)
      reads this`netId, this`password
      ensures ready <==> HasNonWhitespace(netId) && |password| > 0
    {
      Trim(netId) != [] && password != []
    }

    /** The effect of `handleLogin` on the session and on the alert flag. With
        the behavioural factor on, one login attempt is made and routes to
        success or to the e-mail fallback. With it off, a known netid only
        records the click and routes to the classic second factor; an unknown
        one only raises the alert. */
    twostate predicate LoginHandled(sample: ClickSample)
      reads this, app
    {
      if wantsTrioPressure then
        var r := LoginAttempt(old(app.users), netId, sample);
        && app.users == r.users
        && app.currentUser == (if r.accepted then r.user else old(app.currentUser))
        && app.lastLoginSample == (if r.accepted then Some(sample) else old(app.lastLoginSample))
        && app.authStep == (if r.accepted then LoginSuccess else EmailOtpFallback)
        && showMissingUserAlert == old(showMissingUserAlert)
      else if Contains(old(app.users), netId) then
        && app.users == old(app.users)
        && app.currentUser == old(app.currentUser)
        && app.lastLoginSample == Some(sample)
        && app.authStep == DuoFactor
        && showMissingUserAlert == old(showMissingUserAlert)
      else
        && app.users == old(app.users)
        && app.currentUser == old(app.currentUser)
        && app.lastLoginSample == old(app.lastLoginSample)
        && app.authStep == old(app.authStep)
        && showMissingUserAlert
    }

    method HandleLogin(sample: ClickSample)
      modifies app`users, app`currentUser, app`lastLoginSample, app`authStep, this`showMissingUserAlert
      ensures LoginHandled(sample)
      ensures old(app.Valid()) ==> app.Valid()
    {
      if wantsTrioPressure {
        var ok := app.AttemptTrioLogin(netId, sample);
        if ok {
          app.Go(LoginSuccess);
        } else {
          app.Go(EmailOtpFallback);
        }
      } else {
        if Contains(app.users, netId) {
          app.lastLoginSample := Some(sample);
          app.Go(DuoFactor);
        } else {
          showMissingUserAlert := true;
        }
      }
    }

    /** The end of a click on the log-in control: handled only when the gate
        is open, otherwise nothing at all changes. */
    method LoginClickEnded(sample: ClickSample)
      modifies app`users, app`currentUser, app`lastLoginSample, app`authStep, this`showMissingUserAlert
      ensures old(CanSubmit()) ==> LoginHandled(sample)
      ensures !old(CanSubmit()) ==> unchanged(app) && showMissingUserAlert == old(showMissingUserAlert)
      ensures old(app.Valid()) ==> app.Valid()
    {
      if CanSubmit() {
        HandleLogin(sample);
      }
    }

    /** "Forgot password?" and "Need help?" open the e-mail fallback, "Back"
        returns to mode selection, and the sign-up button opens the form. */
    method FollowLink(link: LoginLink)
      modifies app`authStep
      ensures app.authStep == match link
        case ForgotPassword => EmailOtpFallback
        case NeedHelp => EmailOtpFallback
        case Back => ModeSelection
        case SignUp => SignupForm
    {
      match link
      case ForgotPassword => app.Go(EmailOtpFallback);
      case NeedHelp => app.Go(EmailOtpFallback);
      case Back => app.Go(ModeSelection);
      case SignUp => app.Go(SignupForm);
    }
  }
}
