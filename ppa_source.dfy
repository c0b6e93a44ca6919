/**
 * The string handling of the PPA packaging script
 * (tools/ppa/prepare_source_tarball_and_debian_folder.py): reading the
 * version number off the end of a package name, checking the version of the
 * built tarball against the one in the code, and naming the tarball and
 * signature the PPA upload needs.
 */
module PpaSource {
  import opened Wrappers
  import opened PyStr

  /** `package_ext` and `signature_ext` of tools/ppa/buildconfig.py. */
  const PackageExt := ".tar.gz"
  const SignatureExt := ".asc"
  const OrigTarballExt := ".orig.tar.gz"

  // ---------------------------------------------------------------------------
  // extract_version

  /** `\d`, for ASCII digits. */
  predicate IsDigit(c: char) {
    '0' <= c <= '9'
  }

  /** `\d{1,3}` matched in full. */
  predicate DigitGroup(g: string) {
    1 <= |g| <= 3 && forall i :: 0 <= i < |g| ==> IsDigit(g[i])
  }

  /** `\d{1,3}\.\d{1,3}(\.\d{1,3})?` matched in full: two or three dot-separated digit groups. */
  predicate IsVersion(v: string) {
    var groups := Split(v, Dot);
    (|groups| == 2 || |groups| == 3) && forall i :: 0 <= i < |groups| ==> DigitGroup(groups[i])
  }

  /** Where `$` can match: the end, or just before a final newline. */
  function MatchEnd(s: string): (e: nat)
    ensures e <= |s|
    ensures e == |s| || (e == |s| - 1 && s[e] == '\n')
  {
    if |s| > 0 && s[|s| - 1] == '\n' then |s| - 1 else |s|
  }

  /**
   * `re.search` of the version pattern, from position `p` on: the first start
   * from which the rest of `s` up to the `$` position is a version.
   */
  function VersionStart(s: string, e: nat, p: nat): (r: Option<nat>)
    requires p <= e <= |s|
    ensures r.Some? ==> p <= r.value <= e && IsVersion(s[r.value..e])
    ensures r.Some? ==> forall q :: p <= q < r.value ==> !IsVersion(s[q..e])
    ensures r.None? ==> forall q :: p <= q <= e ==> !IsVersion(s[q..e])
    decreases e - p
  {
    if IsVersion(s[p..e]) then Some(p)
    else if p == e then None
    else VersionStart(s, e, p + 1)
  }

  /**
   * `extract_version`: the version suffix the search finds, or None where
   * the source fails for want of one.
   */
  function ExtractVersion(packageName: string): (r: Option<string>)
    ensures r.Some? ==> IsVersion(r.value) && EndsWith(packageName[..MatchEnd(packageName)], r.value)
    ensures r.Some? ==> forall q :: 0 <= q < MatchEnd(packageName) - |r.value| ==>
                          !IsVersion(packageName[q..MatchEnd(packageName)])
    ensures r.None? ==> forall q :: 0 <= q <= MatchEnd(packageName) ==>
                          !IsVersion(packageName[q..MatchEnd(packageName)])
  {
    var e := MatchEnd(packageName);
    match VersionStart(packageName, e, 0)
    case None => None
    case Some(p) => Some(packageName[p..e])
  }

  lemma {:induction false} JoinDigitGroups(parts: seq<string>)
    requires forall i :: 0 <= i < |parts| ==> DigitGroup(parts[i])
    ensures forall i :: 0 <= i < |Join(parts, Dot)| ==> IsDigit(Join(parts, Dot)[i]) || Join(parts, Dot)[i] == Dot
    decreases |parts|
  {
    if |parts| > 1 {
      JoinDigitGroups(parts[1..]);
      var rest := Join(parts[1..], Dot);
      var joined := Join(parts, Dot);
      assert joined == parts[0] + [Dot] + rest;
      forall i | 0 <= i < |joined| ensures IsDigit(joined[i]) || joined[i] == Dot {
        if i < |parts[0]| {
          assert joined[i] == parts[0][i];
        } else if i > |parts[0]| {
          assert joined[i] == rest[i - |parts[0]| - 1];
        }
      }
    }
  }

  /** A version holds nothing but digits and dots. */
  lemma VersionChars(v: string)
    requires IsVersion(v)
    ensures forall i :: 0 <= i < |v| ==> IsDigit(v[i]) || v[i] == Dot
  {
    JoinSplit(v, Dot);
    JoinDigitGroups(Split(v, Dot));
  }

  /**
   * A version preceded by a character that cannot be part of one (such as
   * the `-` of a package name) is exactly what `extract_version` returns.
   */
  lemma ExtractVersionAfterSeparator(prefix: string, v: string)
    requires |prefix| > 0 && !IsDigit(prefix[|prefix| - 1]) && prefix[|prefix| - 1] != Dot
    requires IsVersion(v)
    ensures ExtractVersion(prefix + v) == Some(v)
  {
    var s := prefix + v;
    VersionChars(v);
    assert v[|v| - 1] != '\n';
    assert MatchEnd(s) == |s|;
    assert s[|prefix|..|s|] == v;
    forall q | 0 <= q < |prefix| ensures !IsVersion(s[q..|s|]) {
      var w := s[q..|s|];
      assert w[|prefix| - 1 - q] == prefix[|prefix| - 1];
      NotVersionWithChar(w, |prefix| - 1 - q);
    }
  }

  /** A string holding a character other than a digit or a dot is no version. */
  lemma NotVersionWithChar(w: string, k: nat)
    requires k < |w| && !IsDigit(w[k]) && w[k] != Dot
    ensures !IsVersion(w)
  {
    if IsVersion(w) {
      VersionChars(w);
    }
  }

  lemma VersionOneOneFive()
    ensures IsVersion("1.1.5")
  {
    var parts := ["1", "1", "5"];
    assert parts[1..] == ["1", "5"] && parts[1..][1..] == ["5"];
    assert Join(parts, Dot) == "1.1.5";
    SplitJoin(parts, Dot);
  }

  lemma VersionZeroNineThirtyFive()
    ensures IsVersion("0.9.35")
  {
    var parts := ["0", "9", "35"];
    assert parts[1..] == ["9", "35"] && parts[1..][1..] == ["35"];
    assert Join(parts, Dot) == "0.9.35";
    SplitJoin(parts, Dot);
  }

  /** The first doctest of `extract_version`. */
  lemma ExtractVersionShowInFileManager()
    ensures ExtractVersion("show-in-file-manager-1.1.5") == Some("1.1.5")
  {
    VersionOneOneFive();
    ExtractVersionAfterSeparator("show-in-file-manager-", "1.1.5");
    assert "show-in-file-manager-" + "1.1.5" == "show-in-file-manager-1.1.5";
  }

  /** The second doctest of `extract_version`. */
  lemma ExtractVersionRapidPhotoDownloader()
    ensures ExtractVersion("rapid-photo-downloader-0.9.35") == Some("0.9.35")
  {
    VersionZeroNineThirtyFive();
    ExtractVersionAfterSeparator("rapid-photo-downloader-", "0.9.35");
    assert "rapid-photo-downloader-" + "0.9.35" == "rapid-photo-downloader-0.9.35";
  }

  // ---------------------------------------------------------------------------
  // validate_versions

  /** What `validate_versions` ends in: a version, the script exiting, or a name without a version. */
  datatype VersionCheck = Version(version: string) | Exit | NoVersion

  /** `str(tarball)[:-len(package_ext)]`: Python's slice is empty when the string is shorter. */
  function StripPackageExt(tarball: string): (r: string)
    ensures |tarball| >= |PackageExt| ==> |r| == |tarball| - |PackageExt| && tarball == r + tarball[|r|..]
    ensures |tarball| < |PackageExt| ==> r == ""
  {
    if |tarball| >= |PackageExt| then tarball[..|tarball| - |PackageExt|] else ""
  }

  /**
   * `validate_versions`: the expected version when the stripped tarball path
   * ends with it; otherwise, when the user chooses to go on, the version read
   * off the tarball's base name.
   */
  function ValidateVersions(expectedVersion: string, tarball: string, proceed: bool): (r: VersionCheck)
    ensures EndsWith(StripPackageExt(tarball), expectedVersion) ==> r == Version(expectedVersion)
    ensures !EndsWith(StripPackageExt(tarball), expectedVersion) && !proceed ==> r == Exit
    ensures !EndsWith(StripPackageExt(tarball), expectedVersion) && proceed ==>
              r == (match ExtractVersion(BaseName(StripPackageExt(tarball)))
                    case None => NoVersion
                    case Some(v) => Version(v))
    ensures r.Version? ==> r.version == expectedVersion || IsVersion(r.version)
  {
    var fullBaseName := StripPackageExt(tarball);
    var name := BaseName(fullBaseName);
    if !EndsWith(fullBaseName, expectedVersion) then
      if !proceed then Exit
      else
        match ExtractVersion(name)
        case None => NoVersion
        case Some(v) => Version(v)
    else Version(expectedVersion)
  }

  /**
   * When the code's version and the built tarball's disagree and the user
   * goes on, the tarball's own version is used.
   */
  lemma ValidateFallsBackToTarballVersion(folder: string, package: string, v: string, expectedVersion: string)
    requires Slash !in package && |package| > 0
    requires !IsDigit(package[|package| - 1]) && package[|package| - 1] != Dot
    requires IsVersion(v)
    requires !EndsWith(PathJoin(folder, package + v), expectedVersion)
    ensures ValidateVersions(expectedVersion, PathJoin(folder, package + v) + PackageExt, true) == Version(v)
  {
    var path := PathJoin(folder, package + v);
    VersionChars(v);
    assert Slash !in package + v by {
      forall i | 0 <= i < |package + v| ensures (package + v)[i] != Slash {
        if i >= |package| {
          assert (package + v)[i] == v[i - |package|];
        }
      }
    }
    assert StripPackageExt(path + PackageExt) == path;
    BaseNameOfJoin(folder, package + v);
    ExtractVersionAfterSeparator(package, v);
  }

  lemma BaseNameOfJoin(folder: string, name: string)
    requires |name| > 0 && Slash !in name
    ensures BaseName(PathJoin(folder, name)) == name
  {
    var p := PathJoin(folder, name);
    var k := |p| - |name|;
    assert p[k..] == name;
    RFindAppend(p[..k], name, Slash);
    assert p == p[..k] + name;
  }

  // ---------------------------------------------------------------------------
  // copy_sources

  /** The tarball name the PPA expects: `<package>_<version>.orig.tar.gz`. */
  function PpaTarballName(localPackage: string, version: string): (r: string)
    ensures |r| > |localPackage| && r[..|localPackage|] == localPackage && r[|localPackage|] == '_'
    ensures EndsWith(r, OrigTarballExt)
    ensures Slash !in localPackage && Slash !in version ==> Slash !in r
  {
    var r := localPackage + "_" + version + OrigTarballExt;
    assert r[|r| - |OrigTarballExt|..] == OrigTarballExt;
    assert Slash !in localPackage && Slash !in version ==> Slash !in r by {
      if Slash !in localPackage && Slash !in version {
        forall i | 0 <= i < |r| ensures r[i] != Slash {
          if i < |localPackage| {
            assert r[i] == localPackage[i];
          } else if |localPackage| < i < |localPackage| + 1 + |version| {
            assert r[i] == version[i - |localPackage| - 1];
          }
        }
      }
    }
    r
  }

  /** The signature goes next to the tarball, under the tarball's name plus `.asc`. */
  function PpaSignatureName(localPackage: string, version: string): string {
    PpaTarballName(localPackage, version) + SignatureExt
  }

  /** `copy_sources`: the staged tarball path it returns, whether or not it copies. */
  function CopySources(packagingStaging: string, localPackage: string, version: string): (r: string)
    ensures EndsWith(r, PpaTarballName(localPackage, version))
  {
    var name := PpaTarballName(localPackage, version);
    var r := PathJoin(packagingStaging, name);
    assert r[|r| - |name|..] == name;
    r
  }

  /**
   * The package and version can be read back from the PPA tarball name, and
   * from the signature name once `.asc` is stripped, as long as neither holds
   * an underscore.
   */
  lemma PpaNamesRoundTrip(localPackage: string, version: string)
    requires '_' !in localPackage && '_' !in version
    ensures var name := PpaTarballName(localPackage, version);
            var stem := name[..|name| - |OrigTarballExt|];
            Split(stem, '_') == [localPackage, version]
    ensures var sig := PpaSignatureName(localPackage, version);
            EndsWith(sig, SignatureExt) && sig[..|sig| - |SignatureExt|] == PpaTarballName(localPackage, version)
  {
    var name := PpaTarballName(localPackage, version);
    var stem := name[..|name| - |OrigTarballExt|];
    assert stem == localPackage + ['_'] + version;
    SplitJoin([localPackage, version], '_');
    assert Join([localPackage, version], '_') == localPackage + ['_'] + Join([version], '_');
  }

  /** The staged tarball is named for the package and version and sits in the staging folder. */
  lemma CopySourcesInStaging(packagingStaging: string, localPackage: string, version: string)
    requires Slash !in localPackage && Slash !in version
    ensures BaseName(CopySources(packagingStaging, localPackage, version)) == PpaTarballName(localPackage, version)
  {
    BaseNameOfJoin(packagingStaging, PpaTarballName(localPackage, version));
  }
}
