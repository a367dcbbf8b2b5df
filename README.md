# Trio behavioural second factor: a Dafny model

Trio is a macOS demo of a Duo-style login that watches *how* a user clicks.
Signing up records two clicks on the sign-up screen, an "unknowing" one and a
"knowing" one. From those it builds a pressure baseline (the mean pressure,
classified as soft, medium or firm) and a click-spot baseline (the mean
normalized position, with a radius of 0.25). Each later login click is checked
against every enabled factor:

- the pressure must be within 0.18 of its baseline;
- the spot must be within the radius of its baseline.

Each factor that matches moves its own baseline 30% of the way toward the
click. The login is accepted when every factor matched.

The model covers:

- `Models`: the value types, the three-level pressure classifier and its
  representative values and labels.
- `Text`: trimming with the `.whitespaces` set, as used by the submit gates.
- `Directory`: the in-memory user list, searched by netid. Sign-up does
  "remove every entry with the netid, then append".
- `Profiles`: the profile engine as pure functions. This is enrolment, the
  per-factor match, and the exponential-moving-average adaptation.
- `Session`: the `AppState` object as a class whose methods update its fields
  in place. It is proved against the `Directory` and `Profiles` functions and
  keeps the invariant "one entry per netid".
- `LoginScreen` and `SignupScreen`: the decision logic of the two form
  screens, as classes over the session. This is the submit gates, login
  routing, sign-up submission and the navigation controls.
- `Navigation`: the bare step changes of the other screens, "Finish sign up",
  "Log Out", and a whole sign-up / login / log-out session driven through
  them.

Modelling choices:

- Swift `Double` is modelled as `real`.
- The test `sqrt(dx*dx + dy*dy) <= tolerance` is modelled as
  `0 <= tolerance && dx*dx + dy*dy <= tolerance*tolerance`. Over the reals the
  two are equivalent for every tolerance.
- `go(to:)` is a plain assignment of the step.
- A click sample is an input: the model does not produce it.

## Model

| member | source | states |
|---|---|---|
| Models.PressureLevel.DisplayName | Trio/Models.swift:52-58 | every label is non-empty and its initial ("S", "M", "F") follows the level's rank, so it identifies the level |
| Models.PressureLevel.RepresentativeValue | Trio/Models.swift:60-66 | the representative value of a level lies in [0, 1] and is classified back into that level |
| Models.LevelFrom | Trio/Models.swift:70-76 | a pressure is soft exactly below the 0.3 threshold and firm exactly from the 0.8 threshold, so medium is exactly the rest |
| Models.LevelFromBuckets | Trio/Models.swift:70-76 | the classifier is total and returns soft exactly below 0.3, medium exactly on [0.3, 0.8) and firm exactly from 0.8; the values 0.3 and 0.8 belong to the upper bucket |
| Models.LevelFromMonotone | Trio/Models.swift:70-76 | a larger pressure never gets a lower level under soft < medium < firm |
| Models.RepresentativeRoundTrip | Trio/Models.swift:60-76 | each level's representative value (0.2, 0.6, 0.9) lies in [0, 1], grows with the level, and is classified back into that same level |
| Models.DisplayNameInjective | Trio/Models.swift:52-58 | two levels have the same label exactly when they are the same level |
| Text.TrimStart | Trio/LoginView.swift:21 | the result is a suffix of the input that does not start with whitespace, and every dropped character is whitespace |
| Text.TrimEnd | Trio/LoginView.swift:21 | the result is a prefix of the input that does not end with whitespace, and every dropped character is whitespace |
| Text.Trim | Trio/SignupFormView.swift:27 | the trimmed netid is empty exactly when the input holds no non-whitespace character; otherwise it starts and ends with a non-whitespace character |
| Directory.FirstIndex | Trio/AppState.swift:104 | the index found holds the netid and no earlier index does; nothing is found exactly when no entry has the netid |
| Directory.Contains | Trio/LoginView.swift:226 | true exactly when some entry has the netid |
| Directory.RemoveNetid | Trio/AppState.swift:93 | no entry with the netid is left, and every other entry is kept as many times as it occurred |
| Directory.RemoveNetidConcat | Trio/AppState.swift:93 | removal distributes over concatenation, so it is a filter that keeps order |
| Directory.RemoveNetidKeepsEntry | Trio/AppState.swift:93 | an entry with a different netid is still present after removal, at some index |
| Directory.RemoveNetidKeepsOrder | Trio/AppState.swift:93 | two kept entries appear after removal in the same relative order as before |
| Directory.RemoveNetidAbsent | Trio/AppState.swift:93 | a directory without the netid is left exactly as it is |
| Directory.RemoveNetidKeepsUnique | Trio/AppState.swift:93 | removal keeps the netids unique |
| Directory.Upsert | Trio/AppState.swift:93-94 | the new user is the last entry and the only one with its netid; every entry with another netid is kept with its multiplicity |
| Directory.UpsertKeepsUnique | Trio/AppState.swift:93-94 | remove-then-append keeps the netids unique |
| Directory.UpsertKeepsOrder | Trio/AppState.swift:93-94 | entries with other netids keep their relative order across remove-then-append |
| Directory.UpsertLastWriteWins | Trio/AppState.swift:93-94 | enrolling the same netid twice leaves what a single enrolment of the second user leaves: no duplicate, no trace of the first |
| Directory.WriteBackKeepsUnique | Trio/AppState.swift:149 | overwriting an index with a user of the same netid keeps the netids unique |
| Profiles.Ema | Trio/AppState.swift:120-122 | one adaptation step lies between the baseline and the sample, and the gap left to the sample is 70% of the gap before |
| Profiles.AdaptPressure | Trio/AppState.swift:120-123 | the adapted pressure baseline is 30% closer to the sample and its level is the classification of the new value |
| Profiles.AdaptLocation | Trio/AppState.swift:138-141 | each coordinate of the adapted spot is 30% closer to the sample, and the radius is kept |
| Profiles.PressureStep | Trio/AppState.swift:113-128 | the pressure factor passes exactly when it is disabled, has no profile, or is within 0.18; only a passing applicable factor changes the user, and then only its pressure profile, to the adapted one |
| Profiles.LocationStep | Trio/AppState.swift:130-146 | the spot factor passes exactly when it is disabled, has no profile, or is within the radius; only a passing applicable factor changes the user, and then only its spot profile, to the adapted one |
| Profiles.EmaLaw | Trio/AppState.swift:120-122 | the adaptation step with alpha 0.3 is 0.7 * baseline + 0.3 * sample; it lies between the two and leaves 70% of the gap to the sample |
| Profiles.Enroll | Trio/AppState.swift:62-91 | netid and flags are copied; each profile exists exactly when its factor is enabled; the pressure baseline is the mean of the two pressures and its level is the classification of that mean; the spot is the componentwise mean with radius 0.25 |
| Profiles.EnrollSymmetric | Trio/AppState.swift:62-83 | the baselines do not depend on which of the two clicks came first |
| Profiles.Authenticate | Trio/AppState.swift:108-148 | a login never changes the user's netid, flags, which profiles exist, or the spot radius |
| Profiles.AcceptedIffFactorsPass | Trio/AppState.swift:110-148 | the login is accepted exactly when every applicable factor matches; a factor that is disabled or has no profile passes |
| Profiles.PressureAdaptation | Trio/AppState.swift:113-128 | after any login the pressure profile is the adapted, re-classified one when that factor matched, and unchanged otherwise, whatever the spot factor decided |
| Profiles.LocationAdaptation | Trio/AppState.swift:130-146 | after any login the spot baseline has each coordinate adapted when that factor matched, and is unchanged otherwise, whatever the pressure factor decided; the radius is kept |
| Profiles.PartialFactorIndependence | Trio/AppState.swift:110-148 | a pressure match with a spot miss rejects the login, yet still adapts the pressure baseline and leaves the spot baseline alone |
| Profiles.AcceptedSampleStillAccepted | Trio/AppState.swift:113-146 | repeating an accepted click against the adapted profiles is accepted again |
| Profiles.EnrollInRange | Trio/AppState.swift:62-83 | clicks inside the unit interval and unit square give baselines inside them |
| Profiles.AuthenticateKeepsInRange | Trio/AppState.swift:113-146 | adaptation toward an in-range click keeps the baselines in range |
| Profiles.ToleranceIndependentOfLevel | Trio/AppState.swift:115-123 | the 0.18 check ignores the level: two pressures of one level can fail it, and two of different levels can pass it |
| Session.LoginAttempt | Trio/AppState.swift:103-149 | the directory length is kept; a user is rewritten exactly when the netid is present; an acceptance implies a rewritten user |
| Session.LoginAttemptUnknownNetid | Trio/AppState.swift:104-106 | an unknown netid is rejected and leaves the directory as it was |
| Session.LoginAttemptKnownNetid | Trio/AppState.swift:108-149 | with a known netid, exactly the first entry with it is overwritten by the authenticated copy, whatever the outcome; the decision is that of the factor check; every other index is unchanged |
| Session.LoginAttemptKeepsUnique | Trio/AppState.swift:149 | a login attempt keeps the netids unique |
| Session.BuildUser | Trio/AppState.swift:62-91 | the step-by-step profile building yields the enrolled user |
| Session.CheckPressure | Trio/AppState.swift:113-128 | the pressure block computes the pressure factor's decision and its adapted user |
| Session.CheckLocation | Trio/AppState.swift:130-146 | the spot block computes the spot factor's decision and its adapted user |
| Session.AppState.constructor | Trio/AppState.swift:6-19 | a new session has no mode, shows mode selection, has an empty directory and holds no user, sign-up or click |
| Session.AppState.Go | Trio/AppState.swift:21-25 | only the step changes, to the requested one |
| Session.AppState.SelectMode | Trio/AppState.swift:27-30 | the mode is set and the step becomes login; nothing else changes, and the state reached does not depend on the prior state, so a second call changes nothing |
| Session.AppState.StartPendingSignup | Trio/AppState.swift:34-47 | the pending sign-up is replaced by one with the given netid and flags, the unknowing click and no knowing click; the review click is set; the directory is untouched |
| Session.AppState.StoreKnowingSample | Trio/AppState.swift:49-53 | with no pending sign-up nothing changes; otherwise only its knowing click is set |
| Session.AppState.FinalizeSignup | Trio/AppState.swift:55-99 | with no pending sign-up or a missing click, nothing changes; otherwise the enrolled user replaces every entry with its netid, becomes the current user, and the sign-up data is cleared; one entry per netid is preserved |
| Session.AppState.AttemptTrioLogin | Trio/AppState.swift:103-157 | the result and the new directory are those of the login attempt; the current user and last login click change only on acceptance; one entry per netid is preserved |
| Session.AppState.ClearForNewSession | Trio/AppState.swift:159-165 | current user, last login click, pending sign-up and review click are cleared; directory, mode and step are kept |
| LoginScreen.LoginView.constructor | Trio/LoginView.swift:6-14 | empty fields, the behavioural factor on, no alert |
| LoginScreen.LoginView.CanSubmit | Trio/LoginView.swift:20-23 | the gate is open exactly when the netid holds a non-whitespace character and a password was typed |
| LoginScreen.LoginView.HandleLogin | Trio/LoginView.swift:215-233 | with the factor on: one login attempt, then the success step if it is accepted, else the e-mail fallback. With it off and the netid known: only the last click is set and the step becomes the classic factor, with no profile touched and no current user. With it off and the netid unknown: only the alert is raised |
| LoginScreen.LoginView.LoginClickEnded | Trio/LoginView.swift:170-177 | a closed gate changes nothing in the session and raises no alert; an open one has exactly the effect of handling the login |
| LoginScreen.LoginView.FollowLink | Trio/LoginView.swift:98-202 | "Forgot password?" and "Need help?" open the e-mail fallback, "Back" opens mode selection, and sign-up opens the form; nothing else changes |
| SignupScreen.SignupFormView.constructor | Trio/SignupFormView.swift:10-24 | empty fields, both factors chosen, no validation alert |
| SignupScreen.SignupFormView.CanSubmit | Trio/SignupFormView.swift:26-30 | the gate is open exactly when the netid holds a non-whitespace character, a password was typed, and the confirmation equals it |
| SignupScreen.SignupFormView.HandleCreateAccount | Trio/SignupFormView.swift:257-271 | a closed gate only sets the validation message and alert; an open one starts a pending sign-up with the untrimmed netid and the chosen factors and moves to the review step, leaving the alert state alone |
| SignupScreen.SignupFormView.SignupClickEnded | Trio/SignupFormView.swift:57-68 | the click's own gate has the same effect as the handler's guard, so every click has the effect of one submission |
| SignupScreen.SignupFormView.FollowLink | Trio/SignupFormView.swift:47-223 | "Back to login" opens the login step and the pressure tester opens its own step; nothing else changes |
| Navigation.Target | Trio/RootView.swift:8-29 | every plain control leaves the step whose screen shows it; a control that opens the dashboard is on the success screen, and one that opens the success step is on the classic-factor or e-mail-code screen |
| Navigation.FollowLink | Trio/DuoFactorView.swift:80-88 | a plain control, pressed while its screen is shown, changes only the step, to its target, so the dashboard is entered only from the success step. The controls are on the classic factor, e-mail code, login success, pressure tester, sign-up success and review screens |
| Navigation.EntriesToSuccessAndDashboard | Trio/LoginSuccessView.swift:40-48 | among the plain controls, only classic approval and e-mail verification open the success step, and only "continue", which is on the success screen, opens the dashboard |
| Navigation.KnowingClickEnded | Trio/SignupUnknowingReviewView.swift:61-68 | the second review click becomes the pending sign-up's knowing click, if a sign-up is pending |
| Navigation.FinishSignup | Trio/SignupUnknowingReviewView.swift:111-114 | the sign-up is finalized when it can be, and the sign-up success step is shown either way; one entry per netid is preserved |
| Navigation.LogOut | Trio/DashboardView.swift:47-50 | the session is cleared and the login step is shown; the directory survives |
| Navigation.ScenarioEnrolment | Trio/AppState.swift:55-99 | clicks at pressure 0.6, spots (0.5, 0.5) and (0.52, 0.48), enroll a medium baseline of 0.6 and the spot (0.51, 0.49) with radius 0.25 |
| Navigation.ScenarioLoginAccepted | Trio/AppState.swift:103-157 | a login click at 0.65 and (0.55, 0.5) is accepted and moves the baselines to 0.615 (medium) and (0.522, 0.493) |
| Navigation.SignupLoginLogoutScenario | Trio/AppState.swift:27-165 | mode selection, sign-up, the knowing click, finishing, login and log-out in sequence: the login is accepted, the baseline ends at 0.615, the session is empty afterwards and the user stays in the directory |

## Left out

- SwiftUI rendering, layout, alert presentation, `withAnimation` and the `@Published` observation are not modelled. `go(to:)` is a plain assignment.
- `PressureCaptureView` (the AppKit event wrapper that measures a click) is not part of this model. Its samples are inputs.
- IEEE-754 rounding of `Double` and of `sqrt` is not modelled. Arithmetic is exact over the reals, and the distance test is compared on squares.
- The `TrioUser.id` UUID is omitted. It is random and no logic reads it.
- Text.IsWhitespace: `.whitespaces` is taken as tab plus the Unicode space separators, on single scalar values. Grapheme clusters and Foundation's exact tables are not modelled.
- Form fields that no logic reads are omitted: names, SBU id, e-mail, password visibility, devices.
- The live pressure preview, `isDev` and all `String(format:)` texts only affect display and are left out.
- The `displayName` and `description` strings of `AppMode` are display text and are left out.
- The display-only views are not modelled beyond the step changes their buttons request: `ModeSelectionView`, `PressureIndicatorView`, `RootView`, `TrioApp` and the pressure tester's live readout.
- `SignupCalibrationView` and `PressureFactorView` are not part of this model: no step of the root view shows them.
- Netids and passwords are compared as sequences of Unicode scalar values. Swift's `String ==` compares by canonical equivalence, so two spellings of one accented netid are one user in the app and two in the model. This affects `FirstIndex`, `Contains`, `RemoveNetid`, `Upsert` and the password confirmation in the sign-up gate.
- Navigation.FollowLink: "Verify and continue" on the e-mail code screen is disabled while the trimmed code is empty. The code field is not modelled, so `OtpVerify` opens the success step unconditionally.
- The review screen's local copy of the knowing click and the disabled state of the "Finish sign up" button are not modelled. `FinishSignup` covers the button being pressed without a knowing click, in which case nothing is finalized.
- The `.disabled(!canSubmit)` modifier on the login control is UI. The model keeps the gate inside the click handler, which is what decides.
- Session.AppState.AttemptTrioLogin: the two factor blocks are the separate methods `CheckPressure` and `CheckLocation`. Its local flags `pressureOK`/`locationOK` are their results.
- Session.AppState.FinalizeSignup: the profile building is the separate method `BuildUser`.
- `firstIndex`, `contains` and `removeAll` are library calls. They are modelled as the functions `FirstIndex`, `Contains` and `RemoveNetid`.
