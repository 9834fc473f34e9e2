/** The eligibility policy of the rating manager as functions over the values the manager
    reads from its store, together with the effect of each operation on those values and
    on the platform's review prompt. */
module RatingPolicy {
  import opened Wrappers
  import AppVersion

  /** A moment in time, as seconds relative to the platform's reference date. The model
      never does arithmetic on it: months are measured by the calendar. */
  type Timestamp = int

  /** `Date.distantPast`, read when no date was ever stored (1 January 0001). */
  const DistantPast: Timestamp := -63114076800

  /** The calendar's whole-month difference from the first date to the second; `None`
      when the calendar returns no month component. */
  type Calendar = (Timestamp, Timestamp) -> Option<int>

  /** Points needed before the prompt may be shown. */
  const MinimumXPPointsNeeded: int := 100

  /** Whole months that must be strictly exceeded since the last prompt. */
  const MinimumMonths: int := 4

  /** The version read when no version was ever stored. */
  const UntestedAppVersion: string := "0.0.0.0"

  /** Bounds of the platform's `Int`, taken to be 64 bits wide (a 64-bit device). */
  const MinInt: int := -0x8000_0000_0000_0000
  const MaxInt: int := 0x7FFF_FFFF_FFFF_FFFF

  predicate InIntRange(x: int) {
    MinInt <= x <= MaxInt
  }

  /** The four persisted values, each as it reads (defaults applied to unset keys). */
  datatype Settings = Settings(
    lastTestedDate: Timestamp,
    lastTestedAppVersion: string,
    actualXPPoints: int,
    shouldShowRatingManager: bool)

  /** What a store in which nothing was ever saved reads as. */
  const DefaultSettings: Settings := Settings(DistantPast, UntestedAppVersion, 0, false)

  /** What the running process supplies: its version token, the test-mode switch (fixed
      at `false` in the shipped source), whether the platform review request is available
      (iOS 10.3 or later) and the calendar used to count months. */
  datatype Config = Config(
    currentVersion: string,
    isTest: bool,
    reviewAvailable: bool,
    calendar: Calendar)

  /** `shouldShow()`: test mode forces `true`; otherwise the build must differ from the one
      last tested, the points must reach the threshold and the month difference since the
      last test must exist and exceed `MinimumMonths`. The stored remote flag plays no part. */
  function ShouldShow(s: Settings, currentVersion: string, monthsElapsed: Option<int>, isTest: bool): (r: bool)
    ensures isTest ==> r
    ensures !isTest && s.lastTestedAppVersion == currentVersion ==> !r
    ensures !isTest && s.actualXPPoints < MinimumXPPointsNeeded ==> !r
    ensures !isTest && monthsElapsed.None? ==> !r
    ensures !isTest && monthsElapsed.Some? && monthsElapsed.value <= MinimumMonths ==> !r
    ensures (!isTest && s.lastTestedAppVersion != currentVersion && s.actualXPPoints >= MinimumXPPointsNeeded
             && monthsElapsed.Some? && monthsElapsed.value > MinimumMonths) ==> r
  {
    if !isTest then
      if s.lastTestedAppVersion == currentVersion then false
      else if s.actualXPPoints < MinimumXPPointsNeeded then false
      else match monthsElapsed
        case Some(months) => months > MinimumMonths
        case None => false
    else
      true
  }

  /** The decision taken at `now`, with the months counted from the stored date. */
  function ShouldShowAt(s: Settings, cfg: Config, now: Timestamp): (eligible: bool) {
    ShouldShow(s, cfg.currentVersion, cfg.calendar(s.lastTestedDate, now), cfg.isTest)
  }

  /** `addXPPoints`: the stored points become the points read plus `points`; no clamping,
      negative amounts included. A sum outside the 64-bit range traps before the write, so
      the persisted values stay as they were. */
  function AddXPPoints(s: Settings, points: int): (t: Settings) {
    if InIntRange(s.actualXPPoints + points) then s.(actualXPPoints := s.actualXPPoints + points) else s
  }

  /** `updateNewStatus`: stamp `now` and the current version, clear the points. */
  function UpdateNewStatus(s: Settings, now: Timestamp, currentVersion: string): (t: Settings) {
    s.(lastTestedDate := now, lastTestedAppVersion := currentVersion, actualXPPoints := 0)
  }

  /** `updateShouldShowRatingManager`: store the remote flag. */
  function UpdateShouldShowRatingManager(s: Settings, flag: bool): (t: Settings) {
    s.(shouldShowRatingManager := flag)
  }

  /** What one operation leaves behind: the new values, whether the confirmation alert
      was put on screen, and whether the platform review was requested. */
  datatype Effect = Effect(state: Settings, alertShown: bool, reviewRequested: bool)

  /** `showStoreReviewController`, and the confirm action of the alert: re-check
      eligibility; when it holds and the review API is available, request the review and
      reset the status; otherwise do nothing. */
  function ShowStoreReviewController(s: Settings, cfg: Config, now: Timestamp): (e: Effect) {
    if ShouldShowAt(s, cfg, now) && cfg.reviewAvailable then
      Effect(UpdateNewStatus(s, now, cfg.currentVersion), false, true)
    else
      Effect(s, false, false)
  }

  /** `presentStoreReviewController`: nothing when not eligible; without an asker model,
      go straight to `showStoreReviewController`; with one, put up the alert and wait. */
  function PresentStoreReviewController(s: Settings, cfg: Config, now: Timestamp, withPrompt: bool): (e: Effect) {
    if !ShouldShowAt(s, cfg, now) then Effect(s, false, false)
    else if !withPrompt then ShowStoreReviewController(s, cfg, now)
    else Effect(s, true, false)
  }

  /** The dismiss action of the alert: reset the status, never request a review. */
  function DismissAction(s: Settings, cfg: Config, now: Timestamp): (e: Effect) {
    Effect(UpdateNewStatus(s, now, cfg.currentVersion), false, false)
  }

  // ---------------------------------------------------------------------------------
  // Properties of single operations

  /** The cooldown boundary is exclusive: exactly `MinimumMonths` fails, one more passes,
      and a missing month component fails. */
  lemma CooldownIsStrict(s: Settings, currentVersion: string)
    requires s.lastTestedAppVersion != currentVersion && s.actualXPPoints >= MinimumXPPointsNeeded
    ensures !ShouldShow(s, currentVersion, Some(MinimumMonths), false)
    ensures ShouldShow(s, currentVersion, Some(MinimumMonths + 1), false)
    ensures !ShouldShow(s, currentVersion, None, false)
  {
  }

  /** The threshold is inclusive: exactly `MinimumXPPointsNeeded` points pass that check. */
  lemma ThresholdIsInclusive(s: Settings, currentVersion: string, months: int)
    requires s.lastTestedAppVersion != currentVersion && months > MinimumMonths
    requires s.actualXPPoints == MinimumXPPointsNeeded
    ensures ShouldShow(s, currentVersion, Some(months), false)
  {
  }

  /** The remote flag does not take part in the eligibility decision. */
  lemma RemoteFlagIsIndependent(s: Settings, flag: bool, cfg: Config, now: Timestamp)
    ensures ShouldShowAt(UpdateShouldShowRatingManager(s, flag), cfg, now) == ShouldShowAt(s, cfg, now)
    ensures UpdateShouldShowRatingManager(s, flag).shouldShowRatingManager == flag
    ensures UpdateShouldShowRatingManager(s, flag).(shouldShowRatingManager := s.shouldShowRatingManager) == s
  {
  }

  /** `addXPPoints` changes the points by exactly the amount (when it does not trap) and
      nothing else. */
  lemma AddXPPointsChangesOnlyPoints(s: Settings, points: int)
    requires InIntRange(s.actualXPPoints + points)
    ensures AddXPPoints(s, points).actualXPPoints == s.actualXPPoints + points
    ensures AddXPPoints(s, points).(actualXPPoints := s.actualXPPoints) == s
  {
  }

  /** Resetting twice at the same moment is resetting once; the remote flag survives. */
  lemma UpdateNewStatusIsIdempotent(s: Settings, now: Timestamp, currentVersion: string)
    ensures UpdateNewStatus(UpdateNewStatus(s, now, currentVersion), now, currentVersion)
         == UpdateNewStatus(s, now, currentVersion)
    ensures UpdateNewStatus(s, now, currentVersion).shouldShowRatingManager == s.shouldShowRatingManager
  {
  }

  /** Once the status is reset, the prompt is not eligible again at any later time unless
      test mode is on: the stored version now matches the running one. */
  lemma NotEligibleAfterUpdateNewStatus(s: Settings, cfg: Config, stamped: Timestamp, later: Timestamp)
    requires !cfg.isTest
    ensures !ShouldShowAt(UpdateNewStatus(s, stamped, cfg.currentVersion), cfg, later)
  {
  }

  /** An ineligible call to `presentStoreReviewController` changes nothing and shows nothing. */
  lemma IneligiblePresentationIsInert(s: Settings, cfg: Config, now: Timestamp, withPrompt: bool)
    requires !ShouldShowAt(s, cfg, now)
    ensures PresentStoreReviewController(s, cfg, now, withPrompt) == Effect(s, false, false)
  {
  }

  /** Without an asker model, an eligible call requests the review exactly when the API is
      available, and then resets the status; the second check it makes at the same
      moment always agrees with the first. */
  lemma PresentationWithoutPrompt(s: Settings, cfg: Config, now: Timestamp)
    requires ShouldShowAt(s, cfg, now)
    ensures PresentStoreReviewController(s, cfg, now, false).reviewRequested == cfg.reviewAvailable
    ensures PresentStoreReviewController(s, cfg, now, false).state
         == if cfg.reviewAvailable then UpdateNewStatus(s, now, cfg.currentVersion) else s
    ensures !PresentStoreReviewController(s, cfg, now, false).alertShown
  {
  }

  /** With an asker model, an eligible call only shows the alert; the stored values wait
      for the user's answer. */
  lemma PresentationWithPrompt(s: Settings, cfg: Config, now: Timestamp)
    requires ShouldShowAt(s, cfg, now)
    ensures PresentStoreReviewController(s, cfg, now, true) == Effect(s, true, false)
  {
  }

  /** Declining resets exactly as a successful confirmation does, but never requests a
      review; a confirmation whose re-check fails changes nothing. */
  lemma ConfirmAndDismissOutcomes(s: Settings, cfg: Config, now: Timestamp)
    ensures !DismissAction(s, cfg, now).reviewRequested
    ensures ShouldShowAt(s, cfg, now) && cfg.reviewAvailable ==>
              ShowStoreReviewController(s, cfg, now).reviewRequested
              && ShowStoreReviewController(s, cfg, now).state == DismissAction(s, cfg, now).state
    ensures !(ShouldShowAt(s, cfg, now) && cfg.reviewAvailable) ==>
              ShowStoreReviewController(s, cfg, now) == Effect(s, false, false)
  {
  }

  /** A new build number under the same short version passes the version check: when
      the stored token is that of the old build and the running one that of the new build,
      eligibility rests on the points and the months alone. */
  lemma RebuildPassesVersionCheck(s: Settings, shortVersion: Option<string>, oldBuild: string, newBuild: string,
                                  monthsElapsed: Option<int>)
    requires oldBuild != newBuild
    requires s.lastTestedAppVersion == AppVersion.AppCurrentVersion(shortVersion, Some(oldBuild))
    ensures s.lastTestedAppVersion != AppVersion.AppCurrentVersion(shortVersion, Some(newBuild))
    ensures ShouldShow(s, AppVersion.AppCurrentVersion(shortVersion, Some(newBuild)), monthsElapsed, false)
         <==> s.actualXPPoints >= MinimumXPPointsNeeded && monthsElapsed.Some? && monthsElapsed.value > MinimumMonths
  {
    AppVersion.BuildBumpChangesToken(shortVersion, oldBuild, newBuild);
  }

  /** The first-launch walk-through: from an empty store, earning 100 points makes the
      prompt eligible (the distant-past date clears the cooldown), and right after the
      reset it is not. */
  lemma FirstLaunchScenario(cfg: Config, now: Timestamp)
    requires !cfg.isTest && cfg.currentVersion != UntestedAppVersion
    requires cfg.calendar(DistantPast, now).Some? && cfg.calendar(DistantPast, now).value > MinimumMonths
    ensures ShouldShowAt(AddXPPoints(DefaultSettings, 100), cfg, now)
    ensures !ShouldShowAt(UpdateNewStatus(AddXPPoints(DefaultSettings, 100), now, cfg.currentVersion), cfg, now)
  {
  }

  /** Test mode overrides every check, even with no points and a matching version. */
  lemma TestModeOverridesEverything(s: Settings, cfg: Config, now: Timestamp)
    requires cfg.isTest
    ensures ShouldShowAt(s, cfg, now)
  {
  }

  // ---------------------------------------------------------------------------------
  // Sequences of operations within one run of the app

  /** The calls the app can make, and the two answers the user can give to the alert. */
  datatype Event =
    | EarnPoints(points: int)
    | SetRemoteFlag(flag: bool)
    | Present(withPrompt: bool, at: Timestamp)
    | Confirm(at: Timestamp)
    | Dismiss(at: Timestamp)

  function Step(s: Settings, cfg: Config, e: Event): (effect: Effect) {
    match e
    case EarnPoints(points) => Effect(AddXPPoints(s, points), false, false)
    case SetRemoteFlag(flag) => Effect(UpdateShouldShowRatingManager(s, flag), false, false)
    case Present(withPrompt, at) => PresentStoreReviewController(s, cfg, at, withPrompt)
    case Confirm(at) => ShowStoreReviewController(s, cfg, at)
    case Dismiss(at) => DismissAction(s, cfg, at)
  }

  /** The values left after a sequence of events, and how many reviews were requested. */
  datatype History = History(state: Settings, reviews: nat)

  function Run(s: Settings, cfg: Config, events: seq<Event>): (h: History) {
    if events == [] then History(s, 0)
    else
      var h := Run(s, cfg, events[..|events| - 1]);
      var e := Step(h.state, cfg, events[|events| - 1]);
      History(e.state, h.reviews + if e.reviewRequested then 1 else 0)
  }

  /** Once the running build is recorded as tested, no event requests a review and the
      record stays. */
  lemma StepKeepsTestedBuild(s: Settings, cfg: Config, e: Event)
    requires !cfg.isTest && s.lastTestedAppVersion == cfg.currentVersion
    ensures Step(s, cfg, e).state.lastTestedAppVersion == cfg.currentVersion
    ensures !Step(s, cfg, e).reviewRequested
  {
  }

  /** Whatever happens afterwards in the same build, a build already recorded as tested
      never requests a review again. */
  lemma {:induction false} TestedBuildNeverAsksAgain(s: Settings, cfg: Config, events: seq<Event>)
    requires !cfg.isTest && s.lastTestedAppVersion == cfg.currentVersion
    ensures Run(s, cfg, events).reviews == 0
    ensures Run(s, cfg, events).state.lastTestedAppVersion == cfg.currentVersion
  {
    if events != [] {
      var prefix := events[..|events| - 1];
      TestedBuildNeverAsksAgain(s, cfg, prefix);
      StepKeepsTestedBuild(Run(s, cfg, prefix).state, cfg, events[|events| - 1]);
    }
  }

  /** With test mode off, one build requests the platform review at most once, however
      many points are earned and however the user answers; after a request the running
      build is the one recorded as tested. */
  lemma {:induction false} AtMostOneReviewPerBuild(s: Settings, cfg: Config, events: seq<Event>)
    requires !cfg.isTest
    ensures Run(s, cfg, events).reviews <= 1
    ensures Run(s, cfg, events).reviews == 1 ==> Run(s, cfg, events).state.lastTestedAppVersion == cfg.currentVersion
  {
    if events != [] {
      var prefix := events[..|events| - 1];
      AtMostOneReviewPerBuild(s, cfg, prefix);
      if Run(s, cfg, prefix).reviews == 1 {
        StepKeepsTestedBuild(Run(s, cfg, prefix).state, cfg, events[|events| - 1]);
      }
    }
  }

  /** With test mode on the limit is gone: two calls in a row request two reviews. */
  lemma TestModeRequestsRepeatedly(s: Settings, cfg: Config, now: Timestamp)
    requires cfg.isTest && cfg.reviewAvailable
    ensures Run(s, cfg, [Present(false, now), Present(false, now)]).reviews == 2
  {
    var events := [Present(false, now), Present(false, now)];
    assert events[..1][..0] == [];
    assert Run(s, cfg, events[..1]).reviews == 1;
  }

  /** Only `updateShouldShowRatingManager` writes the remote flag. */
  lemma {:induction false} RemoteFlagOnlySetExplicitly(s: Settings, cfg: Config, events: seq<Event>)
    requires forall i :: 0 <= i < |events| ==> !events[i].SetRemoteFlag?
    ensures Run(s, cfg, events).state.shouldShowRatingManager == s.shouldShowRatingManager
  {
    if events != [] {
      var prefix := events[..|events| - 1];
      RemoteFlagOnlySetExplicitly(s, cfg, prefix);
    }
  }

  function Sum(amounts: seq<int>): (total: int) {
    if amounts == [] then 0 else Sum(amounts[..|amounts| - 1]) + amounts[|amounts| - 1]
  }

  /** One `addXPPoints` call per amount. */
  function Earnings(amounts: seq<int>): (events: seq<Event>)
    ensures |events| == |amounts|
    ensures forall i :: 0 <= i < |amounts| ==> events[i] == EarnPoints(amounts[i])
  {
    seq(|amounts|, i requires 0 <= i < |amounts| => EarnPoints(amounts[i]))
  }

  /** Points accumulate: successive `addXPPoints` calls add up their amounts, as long as
      no running total leaves the 64-bit range, and touch nothing else. */
  lemma {:induction false} PointsAccumulate(s: Settings, cfg: Config, amounts: seq<int>)
    requires forall k :: 0 <= k <= |amounts| ==> InIntRange(s.actualXPPoints + Sum(amounts[..k]))
    ensures Run(s, cfg, Earnings(amounts)) == History(s.(actualXPPoints := s.actualXPPoints + Sum(amounts)), 0)
  {
    if amounts != [] {
      var prefix := amounts[..|amounts| - 1];
      forall k | 0 <= k <= |prefix|
        ensures InIntRange(s.actualXPPoints + Sum(prefix[..k]))
      {
        assert prefix[..k] == amounts[..k];
      }
      PointsAccumulate(s, cfg, prefix);
      assert Earnings(amounts)[..|amounts| - 1] == Earnings(prefix);
      assert amounts[..|amounts|] == amounts;
    }
  }

  /** `addXPPoints(5); addXPPoints(3)` from an empty store leaves 8 points. */
  lemma EarnFiveThenThree(cfg: Config)
    ensures Run(DefaultSettings, cfg, [EarnPoints(5), EarnPoints(3)]).state.actualXPPoints == 8
  {
    var amounts := [5, 3];
    assert [EarnPoints(5), EarnPoints(3)] == Earnings(amounts);
    assert amounts[..0] == [] && amounts[..1] == [5] && amounts[..2] == amounts;
    assert [5][..0] == [];
    PointsAccumulate(DefaultSettings, cfg, [5, 3]);
  }
}
