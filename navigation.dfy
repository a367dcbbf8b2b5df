/** The transitions the remaining screens request from the session: plain
    step changes, the knowing click and "Finish sign up" of the review
    screen, and "Log Out" on the dashboard; and a whole sign-up / login /
    log-out session driven through them. */
module Navigation {
  import opened Models
  import opened Directory
  import opened Profiles
  import opened Session

  /** Controls whose only effect is a step change. */
  datatype ScreenLink =
    | DuoBackToLogin
    | DuoApprove
    | OtpBackToLogin
    | OtpVerify
    | LoginSuccessBackToLogin
    | ContinueToDashboard
    | PressureTryBackToSignup
    | SignupSuccessBackToLogin
    | ReviewBackToSignup

  /** The step during which each control is on screen: the root view shows
      one screen per step, and each control belongs to one screen. */
  function Screen(link: ScreenLink): AuthStep {
    match link
    case DuoBackToLogin => DuoFactor
    case DuoApprove => DuoFactor
    case OtpBackToLogin => EmailOtpFallback
    case OtpVerify => EmailOtpFallback
    case LoginSuccessBackToLogin => LoginSuccess
    case ContinueToDashboard => LoginSuccess
    case PressureTryBackToSignup => SignupPressureTry
    case SignupSuccessBackToLogin => SignupSuccess
    case ReviewBackToSignup => SignupUnknowingReview
  }

  /** The step each control opens. Every control leaves its own screen; the
      dashboard opens only from the success screen, and the success screen
      only from the classic factor or the e-mail code. */
  function Target(link: ScreenLink): (step: AuthStep)
    ensures step != Screen(link)
    ensures step == Dashboard ==> Screen(link) == LoginSuccess
    ensures step == LoginSuccess ==> Screen(link) == DuoFactor || Screen(link) == EmailOtpFallback
  {
    match link
    case DuoBackToLogin => Login
    case DuoApprove => LoginSuccess
    case OtpBackToLogin => Login
    case OtpVerify => LoginSuccess
    case LoginSuccessBackToLogin => Login
    case ContinueToDashboard => Dashboard
    case PressureTryBackToSignup => SignupForm
    case SignupSuccessBackToLogin => Login
    case ReviewBackToSignup => SignupForm
  }

  /** Among the plain controls, only classic approval and e-mail verification
      open the success step, and only "continue" on the success screen opens
      the dashboard. */
  lemma EntriesToSuccessAndDashboard(link: ScreenLink)
    ensures Target(link) == LoginSuccess <==> link == DuoApprove || link == OtpVerify
    ensures Target(link) == Dashboard <==> link == ContinueToDashboard
    ensures Target(link) == Dashboard ==> Screen(link) == LoginSuccess
  {
  }

  /** A control is pressed while its screen is shown; it moves to its target,
      so the dashboard is entered this way only from the success step. */
  method FollowLink(app: AppState, link: ScreenLink)
    requires app.authStep == Screen(link)
    modifies app`authStep
    ensures app.authStep == Target(link)
    ensures app.authStep == Dashboard ==> old(app.authStep) == LoginSuccess
  {
    app.Go(Target(link));
  }

  /** The second click on the review screen becomes the knowing sample. */
  method KnowingClickEnded(app: AppState, sample: ClickSample)
    modifies app`pendingSignup
    ensures old(app.pendingSignup).None? ==> app.pendingSignup == None
    ensures old(app.pendingSignup).Some? ==>
      app.pendingSignup == Some(old(app.pendingSignup).value.(knowing := Some(sample)))
  {
    app.StoreKnowingSample(sample);
  }

  /** "Finish sign up": the sign-up is finalized if it can be, and the success
      step is shown either way. */
  method FinishSignup(app: AppState)
    modifies app`users, app`currentUser, app`pendingSignup, app`signupUnknowingSample, app`authStep
    ensures !CompleteSignup(old(app.pendingSignup)) ==>
      && app.users == old(app.users) && app.currentUser == old(app.currentUser)
      && app.pendingSignup == old(app.pendingSignup)
      && app.signupUnknowingSample == old(app.signupUnknowingSample)
    ensures CompleteSignup(old(app.pendingSignup)) ==>
      var user := EnrolledUser(old(app.pendingSignup));
      && app.users == Upsert(old(app.users), user)
      && app.currentUser == Some(user)
      && app.pendingSignup == None && app.signupUnknowingSample == None
    ensures app.authStep == SignupSuccess
    ensures old(app.Valid()) ==> app.Valid()
  {
    app.FinalizeSignup();
    app.Go(SignupSuccess);
  }

  /** "Log Out": the session is cleared and the login step shown; the
      directory and the mode survive. */
  method LogOut(app: AppState)
    modifies app`currentUser, app`lastLoginSample, app`pendingSignup, app`signupUnknowingSample, app`authStep
    ensures app.currentUser == None && app.lastLoginSample == None
    ensures app.pendingSignup == None && app.signupUnknowingSample == None
    ensures app.authStep == Login
  {
    app.ClearForNewSession();
    app.Go(Login);
  }

  // The sign-up / login scenario: "abc123" enrolls both factors from two
  // clicks and then logs in with a third.
  const ScenarioUnknowing := ClickSample(0.6, LocationSpot(0.5, 0.5))
  const ScenarioKnowing := ClickSample(0.6, LocationSpot(0.52, 0.48))
  const ScenarioLogin := ClickSample(0.65, LocationSpot(0.55, 0.5))
  const ScenarioPending := PendingSignupData("abc123", true, true, Some(ScenarioUnknowing), Some(ScenarioKnowing))
  const ScenarioEnrolled := TrioUser("abc123", true, true,
    Some(PressureProfile(Medium, 0.6)), Some(LocationProfile(LocationSpot(0.51, 0.49), 0.25)))
  const ScenarioAdapted := TrioUser("abc123", true, true,
    Some(PressureProfile(Medium, 0.615)), Some(LocationProfile(LocationSpot(0.522, 0.493), 0.25)))

  /** Enrolment gives pressure baseline 0.6 (medium) and spot (0.51, 0.49)
      with radius 0.25, into an empty directory. */
  lemma ScenarioEnrolment()
    ensures CompleteSignup(Some(ScenarioPending))
    ensures Upsert([], EnrolledUser(Some(ScenarioPending))) == [ScenarioEnrolled]
  {
  }

  /** The login click differs by 0.05 in pressure and lies about 0.041 from
      the spot: it is accepted, and both baselines move toward it, the
      pressure one to 0.615. */
  lemma ScenarioLoginAccepted()
    ensures LoginAttempt([ScenarioEnrolled], "abc123", ScenarioLogin)
      == LoginResult(true, [ScenarioAdapted], Some(ScenarioAdapted))
  {
  }

  /** Drives the scenario through the session, then logs out: the login is
      accepted, the pressure baseline ends at 0.615, and after logging out the
      session is empty while the user is still in the directory. */
  method SignupLoginLogoutScenario() returns (accepted: bool, baseline: real, loggedOut: bool, stillKnown: bool)
    ensures accepted && baseline == 0.615 && loggedOut && stillKnown
  {
    var app := new AppState();
    app.SelectMode(DeveloperBeta);
    app.StartPendingSignup("abc123", true, true, ScenarioUnknowing);
    KnowingClickEnded(app, ScenarioKnowing);
    assert app.pendingSignup == Some(ScenarioPending) && app.users == [];
    ScenarioEnrolment();
    FinishSignup(app);
    assert app.users == Upsert([], EnrolledUser(Some(ScenarioPending)));

    ScenarioLoginAccepted();
    accepted := app.AttemptTrioLogin("abc123", ScenarioLogin);
    baseline := app.users[0].pressureProfile.value.baselineValue;

    LogOut(app);
    loggedOut := app.currentUser.None? && app.lastLoginSample.None?;
    stillKnown := Contains(app.users, "abc123");
  }
}
