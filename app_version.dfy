/** The identity token of the running build: the bundle's short version string and its
    build number joined by a dot. */
module AppVersion {
  import opened Wrappers

  /** `Bundle.appCurrentVersion`: "<shortVersion>.<buildNumber>", where a missing
      Info.plist entry reads as the empty string. The token is the short version, then a
      single '.', then the build number. */
  function AppCurrentVersion(shortVersion: Option<string>, buildNumber: Option<string>): (token: string)
    ensures |token| == |shortVersion.GetOr("")| + 1 + |buildNumber.GetOr("")|
    ensures token[..|shortVersion.GetOr("")|] == shortVersion.GetOr("")
    ensures token[|shortVersion.GetOr("")|] == '.'
    ensures token[|shortVersion.GetOr("")| + 1..] == buildNumber.GetOr("")
  {
    shortVersion.GetOr("") + "." + buildNumber.GetOr("")
  }

  /** Within one short version, a new build number always gives a new token (the rating
      policy's version check then passes: `RatingPolicy.RebuildPassesVersionCheck`). */
  lemma BuildBumpChangesToken(shortVersion: Option<string>, oldBuild: string, newBuild: string)
    requires oldBuild != newBuild
    ensures AppCurrentVersion(shortVersion, Some(oldBuild)) != AppCurrentVersion(shortVersion, Some(newBuild))
  {
  }

  /** The token does not determine the pair it was built from: version "1.2" with build
      "3" and version "1" with build "2.3" read as the same build. */
  lemma TokenIsAmbiguous()
    ensures AppCurrentVersion(Some("1.2"), Some("3")) == AppCurrentVersion(Some("1"), Some("2.3"))
  {
  }
}
