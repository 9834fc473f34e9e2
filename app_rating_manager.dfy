/** The rating manager as the source runs it: an object over four persisted keys, each of
    which may be unset, read with its default and written in place. */
module AppRatingManager {
  import opened Wrappers
  import opened RatingPolicy

  class RatingManager {
    /** Version token, test switch, review availability and calendar of this process. */
    const config: Config

    /** The four stored keys; `None` is a key never written. */
    var lastDateChecked: Option<Timestamp>
    var testedAppVersion: Option<string>
    var actualXPPointsStored: Option<int>
    var shouldShowRatingManagerStored: Option<bool>

    /** How many times the platform review request has been made. */
    ghost var reviewRequests: nat

    /** Stored points are platform integers. */
    ghost predicate Valid()
      reads this
    {
      actualXPPointsStored.Some? ==> InIntRange(actualXPPointsStored.value)
    }

    /** A process starting on a store in which nothing was ever saved. */
    constructor (config: Config)
      ensures Valid()
      ensures this.config == config
      ensures lastDateChecked == None && testedAppVersion == None
      ensures actualXPPointsStored == None && shouldShowRatingManagerStored == None
      ensures Snapshot() == DefaultSettings
      ensures reviewRequests == 0
    {
      this.config := config;
      lastDateChecked, testedAppVersion := None, None;
      actualXPPointsStored, shouldShowRatingManagerStored := None, None;
      reviewRequests := 0;
    }

    /** `getLastTestedDate`: the stored date, or the distant past. */
    function GetLastTestedDate(): (date: Timestamp)
      reads this
      ensures lastDateChecked.None? ==> date == DistantPast
      ensures lastDateChecked.Some? ==> date == lastDateChecked.value
    {
      lastDateChecked.GetOr(DistantPast)
    }

    /** `getLastTestedAppVersion`: the stored version, or "0.0.0.0". */
    function GetLastTestedAppVersion(): (version: string)
      reads this
      ensures testedAppVersion.None? ==> version == UntestedAppVersion
      ensures testedAppVersion.Some? ==> version == testedAppVersion.value
    {
      testedAppVersion.GetOr(UntestedAppVersion)
    }

    /** `getActualXPPoints`: the stored points, or 0; always a platform integer. */
    function GetActualXPPoints(): (points: int)
      reads this
      ensures actualXPPointsStored.None? ==> points == 0
      ensures actualXPPointsStored.Some? ==> points == actualXPPointsStored.value
      ensures Valid() ==> InIntRange(points)
    {
      actualXPPointsStored.GetOr(0)
    }

    /** `shouldShowRatingManager`: the stored remote flag, or `false`. */
    function ShouldShowRatingManager(): (flag: bool)
      reads this
      ensures shouldShowRatingManagerStored.None? ==> !flag
      ensures shouldShowRatingManagerStored.Some? ==> flag == shouldShowRatingManagerStored.value
    {
      shouldShowRatingManagerStored.GetOr(false)
    }

    /** The four values as they read now. */
    function Snapshot(): (s: Settings)
      reads this
    {
      Settings(GetLastTestedDate(), GetLastTestedAppVersion(), GetActualXPPoints(), ShouldShowRatingManager())
    }

    /** `shouldShow()` on the stored values at `now`, months counted from the stored date. */
    function ShouldShow(now: Timestamp): (r: bool)
      reads this
      ensures config.isTest ==> r
      ensures !config.isTest && GetLastTestedAppVersion() == config.currentVersion ==> !r
      ensures !config.isTest && GetActualXPPoints() < MinimumXPPointsNeeded ==> !r
      ensures (!config.isTest && GetLastTestedAppVersion() != config.currentVersion
               && GetActualXPPoints() >= MinimumXPPointsNeeded) ==>
                (r <==> config.calendar(GetLastTestedDate(), now).Some?
                        && config.calendar(GetLastTestedDate(), now).value > MinimumMonths)
    {
      ShouldShowAt(Snapshot(), config, now)
    }

    /** `setTodayAsLatestTestedDate`. */
    method SetTodayAsLatestTestedDate(now: Timestamp)
      modifies this
      ensures lastDateChecked == Some(now)
      ensures testedAppVersion == old(testedAppVersion) && actualXPPointsStored == old(actualXPPointsStored)
      ensures shouldShowRatingManagerStored == old(shouldShowRatingManagerStored)
      ensures reviewRequests == old(reviewRequests)
    {
      lastDateChecked := Some(now);
    }

    /** `setCurrentVersionNumberAsLastTested`. */
    method SetCurrentVersionNumberAsLastTested()
      modifies this
      ensures testedAppVersion == Some(config.currentVersion)
      ensures lastDateChecked == old(lastDateChecked) && actualXPPointsStored == old(actualXPPointsStored)
      ensures shouldShowRatingManagerStored == old(shouldShowRatingManagerStored)
      ensures reviewRequests == old(reviewRequests)
    {
      testedAppVersion := Some(config.currentVersion);
    }

    /** `setActualXPPoints`: stores a platform integer. */
    method SetActualXPPoints(value: int)
      requires InIntRange(value)
      modifies this
      ensures Valid()
      ensures actualXPPointsStored == Some(value)
      ensures lastDateChecked == old(lastDateChecked) && testedAppVersion == old(testedAppVersion)
      ensures shouldShowRatingManagerStored == old(shouldShowRatingManagerStored)
      ensures reviewRequests == old(reviewRequests)
    {
      actualXPPointsStored := Some(value);
    }

    /** `addXPPoints`: read the points, write back their sum with `points`. The sum must
        stay a platform integer, since an overflowing `+` traps. */
    method AddXPPoints(points: int)
      requires Valid()
      requires InIntRange(GetActualXPPoints() + points)
      modifies this
      ensures Valid()
      ensures Snapshot() == RatingPolicy.AddXPPoints(old(Snapshot()), points)
      ensures GetActualXPPoints() == old(GetActualXPPoints()) + points
      ensures lastDateChecked == old(lastDateChecked) && testedAppVersion == old(testedAppVersion)
      ensures shouldShowRatingManagerStored == old(shouldShowRatingManagerStored)
      ensures reviewRequests == old(reviewRequests)
    {
      var successes := GetActualXPPoints();
      SetActualXPPoints(successes + points);
    }

    /** `updateShouldShowRatingManager`: store the remote flag, nothing else. */
    method UpdateShouldShowRatingManager(flag: bool)
      modifies this
      ensures ShouldShowRatingManager() == flag
      ensures Snapshot() == RatingPolicy.UpdateShouldShowRatingManager(old(Snapshot()), flag)
      ensures lastDateChecked == old(lastDateChecked) && testedAppVersion == old(testedAppVersion)
      ensures actualXPPointsStored == old(actualXPPointsStored)
      ensures reviewRequests == old(reviewRequests)
    {
      shouldShowRatingManagerStored := Some(flag);
    }

    /** `updateNewStatus`: stamp the date and the version, clear the points; the remote
        flag stays as it was. */
    method UpdateNewStatus(now: Timestamp)
      modifies this
      ensures Valid()
      ensures Snapshot() == RatingPolicy.UpdateNewStatus(old(Snapshot()), now, config.currentVersion)
      ensures lastDateChecked == Some(now) && testedAppVersion == Some(config.currentVersion)
      ensures actualXPPointsStored == Some(0)
      ensures shouldShowRatingManagerStored == old(shouldShowRatingManagerStored)
      ensures reviewRequests == old(reviewRequests)
    {
      SetTodayAsLatestTestedDate(now);
      SetCurrentVersionNumberAsLastTested();
      SetActualXPPoints(0);
    }

    /** `showStoreReviewController`, also the confirm action of the alert: when the
        re-check passes and the review API is available, request the review and reset the
        status; otherwise leave every key as it is. */
    method ShowStoreReviewController(now: Timestamp)
      requires Valid()
      modifies this
      ensures Valid()
      ensures Snapshot() == RatingPolicy.ShowStoreReviewController(old(Snapshot()), config, now).state
      ensures reviewRequests == old(reviewRequests)
        + if RatingPolicy.ShowStoreReviewController(old(Snapshot()), config, now).reviewRequested then 1 else 0
      ensures !RatingPolicy.ShowStoreReviewController(old(Snapshot()), config, now).reviewRequested ==> unchanged(this)
    {
      if ShouldShow(now) {
        if config.reviewAvailable {
          reviewRequests := reviewRequests + 1;
          UpdateNewStatus(now);
        }
      }
    }

    /** `presentStoreReviewController`: nothing when not eligible; without an asker model
        go straight to `showStoreReviewController`; with one, report that the alert is up
        and leave the keys to the user's answer. */
    method PresentStoreReviewController(withPrompt: bool, now: Timestamp) returns (alertShown: bool)
      requires Valid()
      modifies this
      ensures Valid()
      ensures alertShown == RatingPolicy.PresentStoreReviewController(old(Snapshot()), config, now, withPrompt).alertShown
      ensures Snapshot() == RatingPolicy.PresentStoreReviewController(old(Snapshot()), config, now, withPrompt).state
      ensures reviewRequests == old(reviewRequests)
        + if RatingPolicy.PresentStoreReviewController(old(Snapshot()), config, now, withPrompt).reviewRequested then 1 else 0
      ensures !old(ShouldShow(now)) ==> unchanged(this)
    {
      if !ShouldShow(now) {
        return false;
      }
      if !withPrompt {
        ShowStoreReviewController(now);
        return false;
      }
      alertShown := true;
    }

    /** The alert's confirm action: `showStoreReviewController`, then the asker's
        callback with `true`, returned here. */
    method ConfirmAction(now: Timestamp) returns (accepted: bool)
      requires Valid()
      modifies this
      ensures Valid()
      ensures accepted
      ensures Snapshot() == RatingPolicy.ShowStoreReviewController(old(Snapshot()), config, now).state
      ensures reviewRequests == old(reviewRequests)
        + if RatingPolicy.ShowStoreReviewController(old(Snapshot()), config, now).reviewRequested then 1 else 0
    {
      ShowStoreReviewController(now);
      accepted := true;
    }

    /** The alert's dismiss action: `updateNewStatus` without any review request, then the
        asker's callback with `false`, returned here. */
    method DismissAction(now: Timestamp) returns (accepted: bool)
      modifies this
      ensures Valid()
      ensures !accepted
      ensures Snapshot() == RatingPolicy.DismissAction(old(Snapshot()), config, now).state
      ensures reviewRequests == old(reviewRequests)
    {
      UpdateNewStatus(now);
      accepted := false;
    }
  }

  /** `addXPPoints(5); addXPPoints(3)` on a fresh store reads back 8. */
  method AddFiveThenThree(config: Config) returns (points: int)
    ensures points == 8
  {
    var manager := new RatingManager(config);
    manager.AddXPPoints(5);
    manager.AddXPPoints(3);
    points := manager.GetActualXPPoints();
  }

  /** On a fresh store, 100 points make the prompt eligible; presenting it without an
      asker model requests the review once, after which the same build is not eligible. */
  method FirstLaunch(config: Config, now: Timestamp) returns (eligible: bool, eligibleAfter: bool)
    requires !config.isTest && config.reviewAvailable && config.currentVersion != UntestedAppVersion
    requires config.calendar(DistantPast, now).Some? && config.calendar(DistantPast, now).value > MinimumMonths
    ensures eligible && !eligibleAfter
  {
    var manager := new RatingManager(config);
    manager.AddXPPoints(100);
    eligible := manager.ShouldShow(now);
    var alertShown := manager.PresentStoreReviewController(false, now);
    eligibleAfter := manager.ShouldShow(now);
  }
}
