/** The session state machine: the observable `AppState` object whose fields
    the views read and whose methods they call. */
module Session {
  import opened Models
  import opened Directory
  import opened Profiles

  /** What a login attempt does to the directory: whether it was accepted, the
      directory afterwards, and the rewritten user when the netid was found. */
  datatype LoginResult = LoginResult(accepted: bool, users: seq<TrioUser>, user: Option<TrioUser>)

  /** The directory side of `attemptTrioLogin`: the first entry with the netid
      is authenticated and overwritten by its adapted copy, whatever the outcome. */
  function LoginAttempt(users: seq<TrioUser>, netid: string, sample: ClickSample): (r: LoginResult)
    ensures |r.users| == |users|
    ensures r.user.Some? <==> Contains(users, netid)
    ensures r.accepted ==> r.user.Some?
  {
    match FirstIndex(users, netid)
    case None => LoginResult(false, users, None)
    case Some(idx) =>
      var outcome := Authenticate(users[idx], sample);
      LoginResult(outcome.accepted, users[idx := outcome.user], Some(outcome.user))
  }

  /** An unknown netid is rejected and creates or changes no entry. */
  lemma LoginAttemptUnknownNetid(users: seq<TrioUser>, netid: string, sample: ClickSample)
    requires forall i :: 0 <= i < |users| ==> users[i].netid != netid
    ensures LoginAttempt(users, netid, sample) == LoginResult(false, users, None)
  {
  }

  /** A known netid: exactly the first entry with it is rewritten, to the user
      `Authenticate` returns; the decision is that of `Authenticate`; every
      other index is untouched. */
  lemma LoginAttemptKnownNetid(users: seq<TrioUser>, netid: string, sample: ClickSample, idx: nat)
    requires idx < |users| && users[idx].netid == netid
    requires forall j :: 0 <= j < idx ==> users[j].netid != netid
    ensures var r := LoginAttempt(users, netid, sample);
      var outcome := Authenticate(users[idx], sample);
      && r.accepted == outcome.accepted
      && r.user == Some(outcome.user)
      && r.users[idx] == outcome.user
      && r.users[idx].netid == netid
      && (forall j :: 0 <= j < |users| && j != idx ==> r.users[j] == users[j])
  {
    var found := FirstIndex(users, netid);
    assert found.Some?;
    assert found.value == idx;
  }

  /** A login attempt keeps the netids unique. */
  lemma LoginAttemptKeepsUnique(users: seq<TrioUser>, netid: string, sample: ClickSample)
    requires UniqueNetids(users)
    ensures UniqueNetids(LoginAttempt(users, netid, sample).users)
  {
    var found := FirstIndex(users, netid);
    if found.Some? {
      var idx := found.value;
      WriteBackKeepsUnique(users, idx, Authenticate(users[idx], sample).user);
    }
  }

  /** A pending sign-up that can be finalized: it exists and holds both clicks. */
  predicate CompleteSignup(pending: Option<PendingSignupData>) {
    pending.Some? && pending.value.unknowing.Some? && pending.value.knowing.Some?
  }

  /** The user a complete pending sign-up enrolls. */
  function EnrolledUser(pending: Option<PendingSignupData>): TrioUser
    requires CompleteSignup(pending)
  {
    var p := pending.value;
    Enroll(p, p.unknowing.value, p.knowing.value)
  }

  /** The enrolment part of `finalizeSignup`: a profile is built for each
      enabled factor only, from the two sign-up clicks. */
  method BuildUser(pending: PendingSignupData, unknowing: ClickSample, knowing: ClickSample)
    returns (user: TrioUser)
    ensures user == Enroll(pending, unknowing, knowing)
  {
    var pressureProfile: Option<PressureProfile> := None;
    if pending.usesPressure {
      var avg := (unknowing.pressure + knowing.pressure) / 2.0;
      var level := LevelFrom(avg);
      pressureProfile := Some(PressureProfile(level, avg));
    }

    var locationProfile: Option<LocationProfile> := None;
    if pending.usesLocation {
      var avgX := (unknowing.spot.xNorm + knowing.spot.xNorm) / 2.0;
      var avgY := (unknowing.spot.yNorm + knowing.spot.yNorm) / 2.0;
      var baseline := LocationSpot(avgX, avgY);
      locationProfile := Some(LocationProfile(baseline, EnrolledLocationTolerance));
    }

    user := TrioUser(pending.netid, pending.usesPressure, pending.usesLocation,
                     pressureProfile, locationProfile);
  }

  /** The pressure block of `attemptTrioLogin`: when the factor applies, a
      pressure within 0.18 of the baseline passes and moves the baseline by one
      adaptation step; a factor that does not apply passes unchanged. */
  method CheckPressure(user: TrioUser, sample: ClickSample) returns (passed: bool, updated: TrioUser)
    ensures FactorResult(passed, updated) == PressureStep(user, sample)
  {
    passed, updated := true, user;
    if user.usesPressure && user.pressureProfile.Some? {
      var profile := user.pressureProfile.value;
      var diff := Abs(sample.pressure - profile.baselineValue);
      if diff <= PressureTolerance {
        profile := profile.(baselineValue := profile.baselineValue * (1.0 - Alpha) + sample.pressure * Alpha);
        profile := profile.(baselineLevel := LevelFrom(profile.baselineValue));
        updated := user.(pressureProfile := Some(profile));
      } else {
        passed := false;
      }
    }
  }

  /** The click-spot block of `attemptTrioLogin`: when the factor applies, a
      click within the tolerance radius of the baseline passes and moves the
      baseline by one adaptation step; a factor that does not apply passes
      unchanged. */
  method CheckLocation(user: TrioUser, sample: ClickSample) returns (passed: bool, updated: TrioUser)
    ensures FactorResult(passed, updated) == LocationStep(user, sample)
  {
    passed, updated := true, user;
    if user.usesLocation && user.locationProfile.Some? {
      var locProfile := user.locationProfile.value;
      var dx := sample.spot.xNorm - locProfile.baselineSpot.xNorm;
      var dy := sample.spot.yNorm - locProfile.baselineSpot.yNorm;
      // sqrt(dx * dx + dy * dy) <= tolerance, on squares
      if 0.0 <= locProfile.tolerance && dx * dx + dy * dy <= locProfile.tolerance * locProfile.tolerance {
        var newX := locProfile.baselineSpot.xNorm * (1.0 - Alpha) + sample.spot.xNorm * Alpha;
        var newY := locProfile.baselineSpot.yNorm * (1.0 - Alpha) + sample.spot.yNorm * Alpha;
        locProfile := locProfile.(baselineSpot := LocationSpot(newX, newY));
        updated := user.(locationProfile := Some(locProfile));
      } else {
        passed := false;
      }
    }
  }

  class AppState {
    var mode: Option<AppMode>
    var authStep: AuthStep
    var users: seq<TrioUser>
    var currentUser: Option<TrioUser>
    var pendingSignup: Option<PendingSignupData>
    var lastLoginSample: Option<ClickSample>
    var signupUnknowingSample: Option<ClickSample>

    /** The invariant every operation keeps: one directory entry per netid. */
    ghost predicate Valid()
      reads this
    {
      UniqueNetids(users)
    }

    constructor ()
      ensures Valid()
      ensures mode == None && authStep == ModeSelection && users == []
      ensures currentUser == None && pendingSignup == None
      ensures lastLoginSample == None && signupUnknowingSample == None
    {
      mode := None;
      authStep := ModeSelection;
      users := [];
      currentUser := None;
      pendingSignup := None;
      lastLoginSample := None;
      signupUnknowingSample := None;
    }

    /** Moves the flow to `step`; nothing else changes. */
    method Go(step: AuthStep)
      modifies this`authStep
      ensures authStep == step
    {
      authStep := step;
    }

    /** Records the mode and moves to the login step; the result does not depend
      on the prior state, so a repeated call changes nothing more. */
    method SelectMode(newMode: AppMode)
      modifies this`mode, this`authStep
      ensures mode == Some(newMode) && authStep == Login
    {
      mode := Some(newMode);
      Go(Login);
    }

    /** Replaces any pending sign-up by a fresh one holding only the unknowing
        click, and keeps that click for the review screen. */
    method StartPendingSignup(netid: string, usesPressure: bool, usesLocation: bool,
                              unknowingSample: ClickSample)
      modifies this`pendingSignup, this`signupUnknowingSample
      ensures pendingSignup ==
        Some(PendingSignupData(netid, usesPressure, usesLocation, Some(unknowingSample), None))
      ensures signupUnknowingSample == Some(unknowingSample)
    {
      var pending := PendingSignupData(netid, usesPressure, usesLocation, Some(unknowingSample), None);
      pendingSignup := Some(pending);
      signupUnknowingSample := Some(unknowingSample);
    }

    /** Sets the knowing click of the pending sign-up; without one, does nothing. */
    method StoreKnowingSample(sample: ClickSample)
      modifies this`pendingSignup
      ensures old(pendingSignup).None? ==> pendingSignup == None
      ensures old(pendingSignup).Some? ==>
        pendingSignup == Some(old(pendingSignup).value.(knowing := Some(sample)))
    {
      if pendingSignup.None? {
        return;
      }
      var pending := pendingSignup.value;
      pending := pending.(knowing := Some(sample));
      pendingSignup := Some(pending);
    }

    /** Turns a complete pending sign-up into a user, replaces every directory
        entry with its netid by it, makes it the current user and releases the
        sign-up data. An absent or incomplete sign-up changes nothing. */
    method FinalizeSignup()
      modifies this`users, this`currentUser, this`pendingSignup, this`signupUnknowingSample
      ensures !CompleteSignup(old(pendingSignup)) ==>
        && users == old(users) && currentUser == old(currentUser)
        && pendingSignup == old(pendingSignup)
        && signupUnknowingSample == old(signupUnknowingSample)
      ensures CompleteSignup(old(pendingSignup)) ==>
        var user := EnrolledUser(old(pendingSignup));
        && users == Upsert(old(users), user)
        && currentUser == Some(user)
        && pendingSignup == None && signupUnknowingSample == None
      ensures old(Valid()) ==> Valid()
    {
      if !CompleteSignup(pendingSignup) {
        return;
      }
      var pending := pendingSignup.value;
      var user := BuildUser(pending, pending.unknowing.value, pending.knowing.value);

      ghost var before := users;
      users := RemoveNetid(users, user.netid);
      users := users + [user];
      assert users == Upsert(before, user);
      if old(Valid()) {
        UpsertKeepsUnique(before, user);
        assert Valid();
      }
      currentUser := Some(user);

      pendingSignup := None;
      signupUnknowingSample := None;
    }

    /** Authenticates a login click for `netid`. An unknown netid is rejected
        with nothing changed. Otherwise the first entry with that netid is
        overwritten by its adapted copy whatever the outcome, and only an
        accepted login sets the current user and the last login click. */
    method AttemptTrioLogin(netid: string, sample: ClickSample) returns (ok: bool)
      modifies this`users, this`currentUser, this`lastLoginSample
      ensures var r := LoginAttempt(old(users), netid, sample);
        && ok == r.accepted
        && users == r.users
        && currentUser == (if ok then r.user else old(currentUser))
        && lastLoginSample == (if ok then Some(sample) else old(lastLoginSample))
      ensures old(Valid()) ==> Valid()
    {
      ghost var before := users;
      var found := FirstIndex(users, netid);
      if found.None? {
        return false;
      }
      var idx := found.value;
      var user := users[idx];

      var pressureOK, locationOK;
      pressureOK, user := CheckPressure(user, sample);
      locationOK, user := CheckLocation(user, sample);

      ok := pressureOK && locationOK;
      users := users[idx := user];
      if old(Valid()) {
        WriteBackKeepsUnique(before, idx, user);
        assert Valid();
      }

      if ok {
        currentUser := Some(user);
        lastLoginSample := Some(sample);
      }
    }

    /** Forgets the session: current user, last login click and pending
        sign-up. The directory, the mode and the flow step are kept. */
    method ClearForNewSession()
      modifies this`currentUser, this`lastLoginSample, this`pendingSignup, this`signupUnknowingSample
      ensures currentUser == None && lastLoginSample == None
      ensures pendingSignup == None && signupUnknowingSample == None
    {
      currentUser := None;
      lastLoginSample := None;
      pendingSignup := None;
      signupUnknowingSample := None;
    }
  }
}
