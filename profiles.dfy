/** The behavioural profile engine behind `finalizeSignup` and
    `attemptTrioLogin`: building baselines from the two sign-up clicks, matching
    a login click against them factor by factor, and adapting every factor
    that matched by an exponential moving average. */
module Profiles {
  import opened Models

  /** Largest accepted difference between a login pressure and the baseline. */
  const PressureTolerance: real := 0.18
  /** Radius given to every new click-spot baseline. */
  const EnrolledLocationTolerance: real := 0.25
  /** Weight of the new sample in an adaptation step. */
  const Alpha: real := 0.3

  function Abs(x: real): real {
    if x < 0.0 then -x else x
  }

  function Mean(a: real, b: real): real {
    (a + b) / 2.0
  }

  /** One adaptation step from the baseline `prior` toward the sample `next`:
      the result lies between the two and leaves 70% of the gap. */
  function Ema(prior: real, next: real): (r: real)
    ensures prior <= next ==> prior <= r <= next
    ensures next <= prior ==> next <= r <= prior
    ensures r - next == 0.7 * (prior - next)
  {
    prior * (1.0 - Alpha) + next * Alpha
  }

  /** The step is the fixed convex combination 0.7 / 0.3: it lies between the
      baseline and the sample, and closes 30% of the gap to the sample. */
  lemma EmaLaw(prior: real, next: real)
    ensures Ema(prior, next) == 0.7 * prior + 0.3 * next
    ensures prior <= next ==> prior <= Ema(prior, next) <= next
    ensures next <= prior ==> next <= Ema(prior, next) <= prior
    ensures Ema(prior, next) - next == 0.7 * (prior - next)
  {
  }

  // ----- enrolment -----------------------------------------------------------

  /** The pressure baseline built from the two sign-up clicks. */
  function EnrolPressure(unknowing: ClickSample, knowing: ClickSample): PressureProfile {
    var avg := Mean(unknowing.pressure, knowing.pressure);
    PressureProfile(LevelFrom(avg), avg)
  }

  /** The click-spot baseline built from the two sign-up clicks. */
  function EnrolLocation(unknowing: ClickSample, knowing: ClickSample): LocationProfile {
    var avgX := Mean(unknowing.spot.xNorm, knowing.spot.xNorm);
    var avgY := Mean(unknowing.spot.yNorm, knowing.spot.yNorm);
    LocationProfile(LocationSpot(avgX, avgY), EnrolledLocationTolerance)
  }

  /** The user that a complete pending sign-up turns into. The profile of a
      factor is present exactly when the factor is enabled; a pressure baseline
      sits at the midpoint of the two pressures and is classified, a spot
      baseline at the componentwise midpoint with radius 0.25. */
  function Enroll(pending: PendingSignupData, unknowing: ClickSample, knowing: ClickSample): (user: TrioUser)
    ensures user.netid == pending.netid
    ensures user.usesPressure == pending.usesPressure && user.usesLocation == pending.usesLocation
    ensures user.pressureProfile.Some? <==> pending.usesPressure
    ensures user.locationProfile.Some? <==> pending.usesLocation
    ensures user.pressureProfile.Some? ==>
      var p := user.pressureProfile.value;
      2.0 * p.baselineValue == unknowing.pressure + knowing.pressure
      && p.baselineLevel == LevelFrom(p.baselineValue)
    ensures user.locationProfile.Some? ==>
      var l := user.locationProfile.value;
      2.0 * l.baselineSpot.xNorm == unknowing.spot.xNorm + knowing.spot.xNorm
      && 2.0 * l.baselineSpot.yNorm == unknowing.spot.yNorm + knowing.spot.yNorm
      && l.tolerance == 0.25
  {
    TrioUser(
      pending.netid,
      pending.usesPressure,
      pending.usesLocation,
      if pending.usesPressure then Some(EnrolPressure(unknowing, knowing)) else None,
      if pending.usesLocation then Some(EnrolLocation(unknowing, knowing)) else None)
  }

  /** Which click came first does not matter. */
  lemma EnrollSymmetric(pending: PendingSignupData, s1: ClickSample, s2: ClickSample)
    ensures Enroll(pending, s1, s2) == Enroll(pending, s2, s1)
  {
  }

  // ----- matching and adaptation -----------------------------------------------

  /** The pressure factor is evaluated only when enabled and a profile is stored. */
  predicate PressureApplies(user: TrioUser) {
    user.usesPressure && user.pressureProfile.Some?
  }

  /** The click-spot factor is evaluated only when enabled and a profile is stored. */
  predicate LocationApplies(user: TrioUser) {
    user.usesLocation && user.locationProfile.Some?
  }

  /** `abs(sample.pressure - baselineValue) <= 0.18`. */
  predicate PressureMatches(profile: PressureProfile, sample: ClickSample) {
    Abs(sample.pressure - profile.baselineValue) <= PressureTolerance
  }

  /** `sqrt(dx * dx + dy * dy) <= tolerance`, compared on squares; a negative
      tolerance admits no distance. */
  predicate LocationMatches(profile: LocationProfile, sample: ClickSample) {
    var dx := sample.spot.xNorm - profile.baselineSpot.xNorm;
    var dy := sample.spot.yNorm - profile.baselineSpot.yNorm;
    0.0 <= profile.tolerance && dx * dx + dy * dy <= profile.tolerance * profile.tolerance
  }

  /** The pressure baseline after a match: 30% closer to the sample and
      classified afresh. */
  function AdaptPressure(profile: PressureProfile, sample: ClickSample): (r: PressureProfile)
    ensures r.baselineLevel == LevelFrom(r.baselineValue)
    ensures sample.pressure - r.baselineValue == 0.7 * (sample.pressure - profile.baselineValue)
  {
    var v := Ema(profile.baselineValue, sample.pressure);
    PressureProfile(LevelFrom(v), v)
  }

  /** The click-spot baseline after a match: each coordinate 30% closer to
      the sample, so the squared distance shrinks to 49%; the radius is kept. */
  function AdaptLocation(profile: LocationProfile, sample: ClickSample): (r: LocationProfile)
    ensures r.tolerance == profile.tolerance
    ensures sample.spot.xNorm - r.baselineSpot.xNorm == 0.7 * (sample.spot.xNorm - profile.baselineSpot.xNorm)
    ensures sample.spot.yNorm - r.baselineSpot.yNorm == 0.7 * (sample.spot.yNorm - profile.baselineSpot.yNorm)
  {
    profile.(baselineSpot := LocationSpot(
      Ema(profile.baselineSpot.xNorm, sample.spot.xNorm),
      Ema(profile.baselineSpot.yNorm, sample.spot.yNorm)))
  }

  /** Whether one factor passed, and the user with that factor's profile as it
      stands afterwards. */
  datatype FactorResult = FactorResult(passed: bool, user: TrioUser)

  /** The pressure factor alone: it passes exactly when it does not apply or
      matches; only a passing applicable factor changes the user, and then
      only its pressure profile, to the adapted one. */
  function PressureStep(user: TrioUser, sample: ClickSample): (r: FactorResult)
    ensures r.passed <==> (PressureApplies(user) ==> PressureMatches(user.pressureProfile.value, sample))
    ensures r.user == user.(pressureProfile := r.user.pressureProfile)
    ensures PressureApplies(user) && r.passed ==>
      r.user.pressureProfile == Some(AdaptPressure(user.pressureProfile.value, sample))
    ensures !(PressureApplies(user) && r.passed) ==> r.user == user
  {
    if PressureApplies(user) then
      var profile := user.pressureProfile.value;
      if PressureMatches(profile, sample) then
        FactorResult(true, user.(pressureProfile := Some(AdaptPressure(profile, sample))))
      else
        FactorResult(false, user)
    else
      FactorResult(true, user)
  }

  /** The click-spot factor alone, in the same shape as `PressureStep`. */
  function LocationStep(user: TrioUser, sample: ClickSample): (r: FactorResult)
    ensures r.passed <==> (LocationApplies(user) ==> LocationMatches(user.locationProfile.value, sample))
    ensures r.user == user.(locationProfile := r.user.locationProfile)
    ensures LocationApplies(user) && r.passed ==>
      r.user.locationProfile == Some(AdaptLocation(user.locationProfile.value, sample))
    ensures !(LocationApplies(user) && r.passed) ==> r.user == user
  {
    if LocationApplies(user) then
      var profile := user.locationProfile.value;
      if LocationMatches(profile, sample) then
        FactorResult(true, user.(locationProfile := Some(AdaptLocation(profile, sample))))
      else
        FactorResult(false, user)
    else
      FactorResult(true, user)
  }

  /** The overall decision and the user carrying every adapted baseline. */
  datatype AuthOutcome = AuthOutcome(accepted: bool, user: TrioUser)

  /** Matches a login click against a stored user: pressure first, then the
      click spot on the user as the pressure factor left it. Identity, flags,
      which profiles exist, and the spot radius never change. */
  function Authenticate(user: TrioUser, sample: ClickSample): (r: AuthOutcome)
    ensures r.user.netid == user.netid
    ensures r.user.usesPressure == user.usesPressure && r.user.usesLocation == user.usesLocation
    ensures r.user.pressureProfile.Some? <==> user.pressureProfile.Some?
    ensures r.user.locationProfile.Some? <==> user.locationProfile.Some?
    ensures r.user.locationProfile.Some? ==>
      r.user.locationProfile.value.tolerance == user.locationProfile.value.tolerance
  {
    var afterPressure := PressureStep(user, sample);
    var afterLocation := LocationStep(afterPressure.user, sample);
    AuthOutcome(afterPressure.passed && afterLocation.passed, afterLocation.user)
  }

  /** The decision is the AND of the factors; a factor that does not apply passes. */
  lemma AcceptedIffFactorsPass(user: TrioUser, sample: ClickSample)
    ensures Authenticate(user, sample).accepted <==>
      (PressureApplies(user) ==> PressureMatches(user.pressureProfile.value, sample))
      && (LocationApplies(user) ==> LocationMatches(user.locationProfile.value, sample))
  {
    assert LocationApplies(PressureStep(user, sample).user) == LocationApplies(user);
  }

  /** The pressure baseline as it stands after the call: moved to
      0.7 * b + 0.3 * p and re-classified when the factor matched, untouched
      otherwise, whatever the click-spot factor decides. */
  lemma PressureAdaptation(user: TrioUser, sample: ClickSample)
    ensures var after := Authenticate(user, sample).user.pressureProfile;
      if PressureApplies(user) && PressureMatches(user.pressureProfile.value, sample) then
        var v := 0.7 * user.pressureProfile.value.baselineValue + 0.3 * sample.pressure;
        after == Some(PressureProfile(LevelFrom(v), v))
      else
        after == user.pressureProfile
  {
    if user.pressureProfile.Some? {
      EmaLaw(user.pressureProfile.value.baselineValue, sample.pressure);
    }
  }

  /** The click-spot baseline as it stands after the call: each coordinate
      moved to 0.7 * b + 0.3 * s when the factor matched, untouched otherwise,
      whatever the pressure factor decides. */
  lemma LocationAdaptation(user: TrioUser, sample: ClickSample)
    ensures var after := Authenticate(user, sample).user.locationProfile;
      if LocationApplies(user) && LocationMatches(user.locationProfile.value, sample) then
        var b := user.locationProfile.value;
        after == Some(LocationProfile(
          LocationSpot(0.7 * b.baselineSpot.xNorm + 0.3 * sample.spot.xNorm,
                       0.7 * b.baselineSpot.yNorm + 0.3 * sample.spot.yNorm),
          b.tolerance))
      else
        after == user.locationProfile
  {
    var afterPressure := PressureStep(user, sample).user;
    assert afterPressure.locationProfile == user.locationProfile;
    assert LocationApplies(afterPressure) == LocationApplies(user);
    if LocationApplies(user) {
      var b := user.locationProfile.value;
      EmaLaw(b.baselineSpot.xNorm, sample.spot.xNorm);
      EmaLaw(b.baselineSpot.yNorm, sample.spot.yNorm);
    }
  }

  /** Adaptation is per factor: a pressure match followed by a click-spot
      miss rejects the login, yet the pressure baseline has moved and the spot
      baseline has not. */
  lemma PartialFactorIndependence(user: TrioUser, sample: ClickSample)
    requires PressureApplies(user) && LocationApplies(user)
    requires PressureMatches(user.pressureProfile.value, sample)
    requires !LocationMatches(user.locationProfile.value, sample)
    ensures !Authenticate(user, sample).accepted
    ensures Authenticate(user, sample).user.pressureProfile
      == Some(AdaptPressure(user.pressureProfile.value, sample))
    ensures Authenticate(user, sample).user.locationProfile == user.locationProfile
  {
    AcceptedIffFactorsPass(user, sample);
    LocationAdaptation(user, sample);
  }

  /** Adaptation closes on the sample: clicking again exactly as in an
      accepted login is accepted by the adapted profiles. */
  lemma AcceptedSampleStillAccepted(user: TrioUser, sample: ClickSample)
    requires Authenticate(user, sample).accepted
    ensures Authenticate(Authenticate(user, sample).user, sample).accepted
  {
    var adapted := Authenticate(user, sample).user;
    AcceptedIffFactorsPass(user, sample);
    AcceptedIffFactorsPass(adapted, sample);
    PressureAdaptation(user, sample);
    LocationAdaptation(user, sample);
    if PressureApplies(adapted) {
      var b := user.pressureProfile.value.baselineValue;
      EmaLaw(b, sample.pressure);
      assert sample.pressure - adapted.pressureProfile.value.baselineValue == 0.7 * (sample.pressure - b);
    }
    if LocationApplies(adapted) {
      var b := user.locationProfile.value;
      var dx := sample.spot.xNorm - b.baselineSpot.xNorm;
      var dy := sample.spot.yNorm - b.baselineSpot.yNorm;
      var a := adapted.locationProfile.value;
      assert sample.spot.xNorm - a.baselineSpot.xNorm == 0.7 * dx;
      assert sample.spot.yNorm - a.baselineSpot.yNorm == 0.7 * dy;
      assert (0.7 * dx) * (0.7 * dx) + (0.7 * dy) * (0.7 * dy) == 0.49 * (dx * dx + dy * dy);
    }
  }

  // ----- the unit-square domain ---------------------------------------------------

  /** Samples from the capture view lie in the unit interval / unit square. */
  predicate SampleInRange(sample: ClickSample) {
    0.0 <= sample.pressure <= 1.0
    && 0.0 <= sample.spot.xNorm <= 1.0 && 0.0 <= sample.spot.yNorm <= 1.0
  }

  /** Every stored baseline lies in the domain of the samples. */
  predicate ProfilesInRange(user: TrioUser) {
    (user.pressureProfile.Some? ==> 0.0 <= user.pressureProfile.value.baselineValue <= 1.0)
    && (user.locationProfile.Some? ==>
      var s := user.locationProfile.value.baselineSpot;
      0.0 <= s.xNorm <= 1.0 && 0.0 <= s.yNorm <= 1.0)
  }

  /** Enrolment from in-range samples gives in-range baselines. */
  lemma EnrollInRange(pending: PendingSignupData, unknowing: ClickSample, knowing: ClickSample)
    requires SampleInRange(unknowing) && SampleInRange(knowing)
    ensures ProfilesInRange(Enroll(pending, unknowing, knowing))
  {
  }

  /** A login with an in-range sample keeps the baselines in range. */
  lemma AuthenticateKeepsInRange(user: TrioUser, sample: ClickSample)
    requires ProfilesInRange(user) && SampleInRange(sample)
    ensures ProfilesInRange(Authenticate(user, sample).user)
  {
    PressureAdaptation(user, sample);
    LocationAdaptation(user, sample);
  }

  /** The numeric pressure check and the three-level classification are
      decoupled: two pressures can share a level and still be too far apart,
      and two pressures in different levels can be close enough. */
  lemma ToleranceIndependentOfLevel()
    ensures LevelFrom(0.3) == LevelFrom(0.79)
      && !PressureMatches(PressureProfile(LevelFrom(0.3), 0.3), ClickSample(0.79, LocationSpot(0.5, 0.5)))
    ensures LevelFrom(0.29) != LevelFrom(0.31)
      && PressureMatches(PressureProfile(LevelFrom(0.29), 0.29), ClickSample(0.31, LocationSpot(0.5, 0.5)))
  {
  }
}
