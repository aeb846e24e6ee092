/**
 * The part of the semantic-version value type that the core uses: the value
 * itself, its zero value and its canonical text (major.minor.patch[-pre][+build]).
 */
module Semver {
  import Text

  /** One dot-separated pre-release identifier: numeric or alphanumeric. */
  datatype PreRelease = Numeric(n: nat) | Alphanumeric(s: string)

  datatype Version = Version(major: nat, minor: nat, patch: nat, pre: seq<PreRelease>, build: seq<string>)

  /** The zero value Version{}. */
  const ZeroVersion: Version := Version(0, 0, 0, [], [])

  /** A plain release version such as 0.1.1. */
  function Release(major: nat, minor: nat, patch: nat): Version
  {
    Version(major, minor, patch, [], [])
  }

  function PreReleaseString(p: PreRelease): string
  {
    match p
    case Numeric(n) => Text.NatToString(n)
    case Alphanumeric(s) => s
  }

  function VersionString(v: Version): (s: string)
    ensures |s| >= 5
    ensures v.pre == [] && v.build == [] ==>
      s == Text.NatToString(v.major) + "." + Text.NatToString(v.minor) + "." + Text.NatToString(v.patch)
  {
    var core := Text.NatToString(v.major) + "." + Text.NatToString(v.minor) + "." + Text.NatToString(v.patch);
    var pre := if v.pre == [] then ""
      else "-" + Text.Join(seq(|v.pre|, i requires 0 <= i < |v.pre| => PreReleaseString(v.pre[i])), ".");
    var build := if v.build == [] then "" else "+" + Text.Join(v.build, ".");
    core + pre + build
  }

  lemma {:induction false} ReleaseStrings()
    ensures VersionString(ZeroVersion) == "0.0.0"
    ensures VersionString(Release(0, 1, 1)) == "0.1.1"
    ensures VersionString(Release(0, 10, 0)) == "0.10.0"
  {
    assert Text.NatToString(10) == "10" by {
      assert Text.NatToString(1) == "1";
      assert Text.NatToString(0) == "0";
    }
  }
}
