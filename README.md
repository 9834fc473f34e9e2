# AMAppRatingManager in Dafny

A model of the rating-prompt gating policy of `AMAppRatingManager`: an app earns
"experience points", and the manager decides whether the in-app review prompt may be shown,
from four persisted values: the date of the last check, the build last tested, the points
earned since, and a separate "remote should-show" flag. The prompt is eligible only when the
running build differs from the one last tested, at least 100 points were earned, and the
calendar counts strictly more than 4 whole months since the last check; a test switch forces
it. Showing the review, or declining the manager's own alert, resets the status: it stamps
the date and the build and clears the points.

Modules:

- `Wrappers`: the `Option` type used for unset keys and a missing month component.
- `AppVersion`: the version token `"<shortVersion>.<buildNumber>"` of the running build.
- `RatingPolicy`: the values as they read (`Settings`), the eligibility decision
  `ShouldShow`, the effect of every operation as a function, and the lemmas: single-call
  properties, and properties of any sequence of calls within one build (`Run` over `Event`s),
  chief among them that with test mode off a build requests the platform review at most once.
- `AppRatingManager`: the class `RatingManager` with the four stored keys as fields (each an
  `Option`, `None` meaning never written), getters applying the defaults, the private
  setters, and methods for `addXPPoints`, `updateNewStatus`, the remote flag, and the
  presentation flow. Each state-changing method states its new stored values and ties the
  values as they read (`Snapshot()`) to the matching `RatingPolicy` function.

Inputs in place of the platform: the current time is a `Timestamp` parameter; the
calendar's whole-month difference is a `Calendar` function in the process `Config`, along
with the version token, the test switch (the source fixes it at `false`) and whether the
review API is available (iOS 10.3 or later). The platform review request is the ghost
counter `reviewRequests`. The alert's two buttons are the methods `ConfirmAction` and
`DismissAction`, which return the value the source passes to the asker's callback.

Two behaviours of the code that the model keeps as written:

- Points are not kept non-negative: `addXPPoints` accepts negative amounts.
- The confirm button and the no-alert path both re-check eligibility in
  `showStoreReviewController` and reset only when the check passes and the review API is
  available; when it is unavailable nothing is reset, yet the callback still gets `true`.

`AppVersion.TokenIsAmbiguous` shows that the token does not determine the version and
build it was made from ("1.2" with build "3" and "1" with build "2.3" both give "1.2.3").

## Model

| member | source | states |
|---|---|---|
| `AppVersion.AppCurrentVersion` | AMRatingManagerExample/AMRatingManagerExample/AMAppRatingManager.swift:209-213 | the token is the short version (empty when missing), one '.', then the build number (empty when missing) |
| `RatingPolicy.RebuildPassesVersionCheck` | AMRatingManagerExample/AMRatingManagerExample/AMAppRatingManager.swift:110 | when the stored token is the old build's and the running one the new build's, the version check passes and eligibility rests on points and months alone |
| `AppVersion.BuildBumpChangesToken` | AMRatingManagerExample/AMRatingManagerExample/AMAppRatingManager.swift:212 | with the same short version, different build numbers give different tokens |
| `AppVersion.TokenIsAmbiguous` | AMRatingManagerExample/AMRatingManagerExample/AMAppRatingManager.swift:212 | two different version/build pairs can give the same token |
| `RatingPolicy.ShouldShow` | AMRatingManagerExample/AMRatingManagerExample/AMAppRatingManager.swift:107-128 | test mode gives true; otherwise false on a matching version, on points below 100, on a missing or at-most-4 month difference, and true when all three checks pass |
| `RatingPolicy.CooldownIsStrict` | AMRatingManagerExample/AMRatingManagerExample/AMAppRatingManager.swift:118-125 | with version and points passing, exactly 4 months fails, 5 passes, no month component fails |
| `RatingPolicy.ThresholdIsInclusive` | AMRatingManagerExample/AMRatingManagerExample/AMAppRatingManager.swift:113 | exactly 100 points pass the threshold check |
| `RatingPolicy.TestModeOverridesEverything` | AMRatingManagerExample/AMRatingManagerExample/AMAppRatingManager.swift:107-128 | with test mode on the prompt is eligible whatever the stored values and the time |
| `RatingPolicy.RemoteFlagIsIndependent` | AMRatingManagerExample/AMRatingManagerExample/AMAppRatingManager.swift:89-98 | writing the remote flag stores that flag, changes nothing else and does not affect eligibility |
| `RatingPolicy.AddXPPointsChangesOnlyPoints` | AMRatingManagerExample/AMRatingManagerExample/AMAppRatingManager.swift:80-83 | adding points changes the points by exactly the amount, negative included, and nothing else |
| `RatingPolicy.UpdateNewStatusIsIdempotent` | AMRatingManagerExample/AMRatingManagerExample/AMAppRatingManager.swift:147-151 | resetting twice at one moment equals resetting once; the remote flag is kept |
| `RatingPolicy.NotEligibleAfterUpdateNewStatus` | AMRatingManagerExample/AMRatingManagerExample/AMAppRatingManager.swift:147-151 | after a reset, with test mode off, the prompt is not eligible at any time |
| `RatingPolicy.IneligiblePresentationIsInert` | AMRatingManagerExample/AMRatingManagerExample/AMAppRatingManager.swift:57 | an ineligible presentation shows no alert, requests no review and changes no value |
| `RatingPolicy.PresentationWithoutPrompt` | AMRatingManagerExample/AMRatingManagerExample/AMAppRatingManager.swift:56-61 | without an asker model an eligible presentation requests the review exactly when the API is available, and then resets |
| `RatingPolicy.PresentationWithPrompt` | AMRatingManagerExample/AMRatingManagerExample/AMAppRatingManager.swift:62-76 | with an asker model an eligible presentation only shows the alert |
| `RatingPolicy.ConfirmAndDismissOutcomes` | AMRatingManagerExample/AMRatingManagerExample/AMAppRatingManager.swift:64-72 | dismiss never requests a review and resets as a successful confirm does; a confirm whose re-check fails changes nothing |
| `RatingPolicy.FirstLaunchScenario` | AMRatingManagerExample/AMRatingManagerExample/AMAppRatingManager.swift:107-128 | from an empty store 100 points make the prompt eligible, and right after a reset it is not |
| `RatingPolicy.StepKeepsTestedBuild` | AMRatingManagerExample/AMRatingManagerExample/AMAppRatingManager.swift:133-151 | once the running build is recorded, no operation requests a review or changes that record |
| `RatingPolicy.TestedBuildNeverAsksAgain` | AMRatingManagerExample/AMRatingManagerExample/AMAppRatingManager.swift:107-151 | from a recorded build, any sequence of calls and answers requests no review |
| `RatingPolicy.AtMostOneReviewPerBuild` | AMRatingManagerExample/AMRatingManagerExample/AMAppRatingManager.swift:56-151 | with test mode off, any sequence of calls and answers requests at most one review, after which the build is recorded |
| `RatingPolicy.TestModeRequestsRepeatedly` | AMRatingManagerExample/AMRatingManagerExample/AMAppRatingManager.swift:33-34 | with test mode on, two presentations in a row request two reviews |
| `RatingPolicy.RemoteFlagOnlySetExplicitly` | AMRatingManagerExample/AMRatingManagerExample/AMAppRatingManager.swift:89-91 | a sequence of calls that never writes the remote flag leaves it as it was |
| `RatingPolicy.PointsAccumulate` | AMRatingManagerExample/AMRatingManagerExample/AMAppRatingManager.swift:80-83 | successive point additions leave the starting points plus the sum of the amounts, and nothing else changed |
| `RatingPolicy.EarnFiveThenThree` | AMRatingManagerExample/AMRatingManagerExample/AMAppRatingManager.swift:80-83 | adding 5 then 3 to an empty store gives 8 |
| `AppRatingManager.RatingManager.constructor` | AMRatingManagerExample/AMRatingManagerExample/AMAppRatingManager.swift:155-202 | a store with nothing written reads as distant past, "0.0.0.0", 0 and false |
| `AppRatingManager.RatingManager.GetLastTestedDate` | AMRatingManagerExample/AMRatingManagerExample/AMAppRatingManager.swift:181-184 | the stored date, or the distant past when unset |
| `AppRatingManager.RatingManager.GetLastTestedAppVersion` | AMRatingManagerExample/AMRatingManagerExample/AMAppRatingManager.swift:165-167 | the stored version, or "0.0.0.0" when unset |
| `AppRatingManager.RatingManager.GetActualXPPoints` | AMRatingManagerExample/AMRatingManagerExample/AMAppRatingManager.swift:200-202 | the stored points, or 0 when unset; a platform integer (64 bits assumed) |
| `AppRatingManager.RatingManager.ShouldShowRatingManager` | AMRatingManagerExample/AMRatingManagerExample/AMAppRatingManager.swift:96-98 | the stored remote flag, or false when unset |
| `AppRatingManager.RatingManager.ShouldShow` | AMRatingManagerExample/AMRatingManagerExample/AMAppRatingManager.swift:107-128 | the decision on the values as read: test mode true, matching version or too few points false, otherwise true exactly when the calendar counts more than 4 months since the stored date |
| `AppRatingManager.RatingManager.SetTodayAsLatestTestedDate` | AMRatingManagerExample/AMRatingManagerExample/AMAppRatingManager.swift:174-176 | stores the date, other keys unchanged |
| `AppRatingManager.RatingManager.SetCurrentVersionNumberAsLastTested` | AMRatingManagerExample/AMRatingManagerExample/AMAppRatingManager.swift:158-160 | stores the running version token, other keys unchanged |
| `AppRatingManager.RatingManager.SetActualXPPoints` | AMRatingManagerExample/AMRatingManagerExample/AMAppRatingManager.swift:193-195 | stores the points, other keys unchanged |
| `AppRatingManager.RatingManager.AddXPPoints` | AMRatingManagerExample/AMRatingManagerExample/AMAppRatingManager.swift:80-83 | the points read afterwards are the old points plus the amount; date, version and flag keys unchanged |
| `AppRatingManager.RatingManager.UpdateShouldShowRatingManager` | AMRatingManagerExample/AMRatingManagerExample/AMAppRatingManager.swift:89-91 | the flag then reads as given; the other keys unchanged |
| `AppRatingManager.RatingManager.UpdateNewStatus` | AMRatingManagerExample/AMRatingManagerExample/AMAppRatingManager.swift:147-151 | stores now, the running version and 0 points; the remote flag unchanged |
| `AppRatingManager.RatingManager.ShowStoreReviewController` | AMRatingManagerExample/AMRatingManagerExample/AMAppRatingManager.swift:133-140 | when eligible and the API is available, one review request and a reset; otherwise no key changes |
| `AppRatingManager.RatingManager.PresentStoreReviewController` | AMRatingManagerExample/AMRatingManagerExample/AMAppRatingManager.swift:56-77 | nothing when ineligible; without an asker model the show step; with one the alert is up and the keys wait |
| `AppRatingManager.RatingManager.ConfirmAction` | AMRatingManagerExample/AMRatingManagerExample/AMAppRatingManager.swift:64-67 | runs the show step (re-check, request, reset) and reports true |
| `AppRatingManager.RatingManager.DismissAction` | AMRatingManagerExample/AMRatingManagerExample/AMAppRatingManager.swift:69-72 | resets unconditionally, no review request, reports false |
| `AppRatingManager.AddFiveThenThree` | AMRatingManagerExample/AMRatingManagerExample/AMAppRatingManager.swift:80-83 | on a fresh store, adding 5 then 3 reads back 8 |
| `AppRatingManager.FirstLaunch` | AMRatingManagerExample/AMRatingManagerExample/AMAppRatingManager.swift:56-61 | on a fresh store 100 points make the prompt eligible, and after presenting without an asker model it is not |

## Left out

- The alert itself (`UIAlertController`, its actions, `present`) and the asker model's texts: the two buttons are the methods `ConfirmAction` and `DismissAction`, and the callback's argument is their result.
- `SKStoreReviewController.requestReview()`: a platform call, counted by the ghost `reviewRequests`; `#available(iOS 10.3, *)` is the input `reviewAvailable`.
- `UserDefaults` mechanics (type conversions between stored kinds, synchronisation): each key is a typed optional field with the documented default on read.
- `Calendar.dateComponents` and `Date()`: the month difference is the input `Calendar` and the current time a parameter.
- Every clock read within one call is taken as the same `now`: on the no-alert path of `presentStoreReviewController` the two eligibility checks and the date `setTodayAsLatestTestedDate` stores, and on the confirm path the re-check in `showStoreReviewController` and the stored date. The source reads `Date()` anew each time.
- Version comparison: the source compares `String`s under Unicode canonical equivalence; the model compares character sequences. The two agree on version tokens made of digits and periods.
- `Bundle.infoDictionary` lookup: the short version and build number are inputs of `AppCurrentVersion`, and the running token is part of `Config`.
- Integer width: the platform's `Int` is taken to be 64 bits (a 64-bit device). On a 32-bit device the points add traps at ±2^31, which the model does not capture.
- `RatingPolicy.AddXPPoints`: a sum outside the 64-bit range traps in the source; the class method requires the sum to fit, and the sequence model treats a trapping call as one that writes nothing.
- ViewController.swift: UI glue (labels, button handler, printing callbacks) that calls manager members which do not exist.
