/** Value types of the Trio prototype: operating modes, flow positions,
    the three-level pressure classification, click samples, behavioural
    profiles, stored users and the in-flight sign-up record. */
module Models {

  datatype Option<T> = None | Some(value: T)

  /** The two operating modes offered on the first screen. */
  datatype AppMode = DeveloperBeta | PublicBeta

  /** Every position of the sign-up / login flow; exactly one is active. */
  datatype AuthStep =
    | ModeSelection
    | Login
    | DuoFactor
    | EmailOtpFallback
    | Dashboard
    | SignupForm
    | SignupUnknowingReview
    | SignupSuccess
    | LoginSuccess
    | SignupPressureTry

  /** Pressures below this value are soft. */
  const MediumThreshold: real := 0.3
  /** Pressures at or above this value are firm. */
  const FirmThreshold: real := 0.8

  datatype PressureLevel = Soft | Medium | Firm {

    /** The label shown to the user; its initial alone tells the levels apart. */
    function DisplayName(): (name: string)
      ensures |name| > 0 && name[0] == "SMF"[Rank()]
    {
      match this
      case Soft => "Soft"
      case Medium => "Medium"
      case Firm => "Firm"
    }

    /** A typical pressure value for the level: a pressure in the unit
        interval that the classifier assigns back to this level. */
    function RepresentativeValue(): (v: real)
      ensures 0.0 <= v <= 1.0 && LevelFrom(v) == this
    {
      match this
      case Soft => 0.2
      case Medium => 0.6
      case Firm => 0.9
    }

    /** Position of the level in the order Soft < Medium < Firm. */
    function Rank(): nat {
      match this
      case Soft => 0
      case Medium => 1
      case Firm => 2
    }
  }

  /** Classifies a numeric pressure into a discrete level (`from(pressure:)`). */
  function LevelFrom(value: real): (level: PressureLevel)
    ensures level == Soft <==> value < MediumThreshold
    ensures level == Firm <==> FirmThreshold <= value
  {
    if value < MediumThreshold then Soft
    else if value < FirmThreshold then Medium
    else Firm
  }

  /** Each level is hit exactly on its half-open bucket: the function is total
      and its boundaries belong to the upper bucket. */
  lemma LevelFromBuckets(value: real)
    ensures LevelFrom(value) == Soft <==> value < 0.3
    ensures LevelFrom(value) == Medium <==> 0.3 <= value < 0.8
    ensures LevelFrom(value) == Firm <==> 0.8 <= value
    ensures LevelFrom(0.3) == Medium && LevelFrom(0.8) == Firm && LevelFrom(0.2999) == Soft
  {
  }

  /** A larger pressure never gives a lower level. */
  lemma LevelFromMonotone(v1: real, v2: real)
    requires v1 <= v2
    ensures LevelFrom(v1).Rank() <= LevelFrom(v2).Rank()
  {
  }

  /** The representative values lie in the unit interval, increase with the
      level, and each one is classified back into its own level. */
  lemma RepresentativeRoundTrip(level: PressureLevel)
    ensures LevelFrom(level.RepresentativeValue()) == level
    ensures 0.0 <= level.RepresentativeValue() <= 1.0
    ensures forall other: PressureLevel :: level.Rank() < other.Rank() ==>
      level.RepresentativeValue() < other.RepresentativeValue()
  {
  }

  /** Distinct levels have distinct labels. */
  lemma DisplayNameInjective(l1: PressureLevel, l2: PressureLevel)
    ensures l1.DisplayName() == l2.DisplayName() <==> l1 == l2
  {
    if l1 != l2 {
      var n1, n2 := l1.DisplayName(), l2.DisplayName();
      assert n1[0] != n2[0] || |n1| != |n2|;
    }
  }

  /** A normalized position inside the clicked element. */
  datatype LocationSpot = LocationSpot(xNorm: real, yNorm: real)

  /** Stored pressure baseline: a running mean and its classification. */
  datatype PressureProfile = PressureProfile(baselineLevel: PressureLevel, baselineValue: real)

  /** Stored click-spot baseline and the radius around it that is accepted. */
  datatype LocationProfile = LocationProfile(baselineSpot: LocationSpot, tolerance: real)

  /** One completed click: its terminal pressure and its spot. */
  datatype ClickSample = ClickSample(pressure: real, spot: LocationSpot)

  /** A stored user. The profiles are optional and are not tied to the flags
      by the type: a set flag with an absent profile is representable. */
  datatype TrioUser = TrioUser(
    netid: string,
    usesPressure: bool,
    usesLocation: bool,
    pressureProfile: Option<PressureProfile>,
    locationProfile: Option<LocationProfile>)

  /** A sign-up between the form and its completion; either sample may be missing. */
  datatype PendingSignupData = PendingSignupData(
    netid: string,
    usesPressure: bool,
    usesLocation: bool,
    unknowing: Option<ClickSample>,
    knowing: Option<ClickSample>)
}
