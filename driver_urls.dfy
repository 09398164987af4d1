/**
 * The pure decisions of the ChromeDriver manager in internal/utils/selenium.go:
 * which URL names the version to fetch, which version strings are well formed,
 * which platform archive fits the host, where the archive lives, where the
 * session endpoint is, and which directory must exist for the binary.
 */
module DriverUrls {
  import opened Base
  import opened Strings

  /** The storage bucket that serves ChromeDriver versions and archives. */
  const StorageBase := "https://chromedriver.storage.googleapis.com"

  /** The endpoint whose body is the latest published version. */
  const LatestRelease := StorageBase + "/LATEST_RELEASE"

  /**
   * The URL asked for the version to download: the latest-release marker, or,
   * when a version is pinned, the marker for that release (`LATEST_RELEASE_<pin>`).
   */
  function VersionUrl(pinned: string): (url: string)
    ensures HasPrefix(url, LatestRelease)
    ensures url == LatestRelease <==> pinned == ""
    ensures pinned != "" ==> url[|LatestRelease|] == '_' && url[|LatestRelease| + 1..] == pinned
  {
    if pinned == "" then LatestRelease else LatestRelease + "_" + pinned
  }

  /** Different pinned versions ask different URLs, so the pin is never lost. */
  lemma VersionUrlInjective(a: string, b: string)
    requires VersionUrl(a) == VersionUrl(b)
    ensures a == b
  {
    if a != "" && b != "" {
      assert a == VersionUrl(a)[|LatestRelease| + 1..] == VersionUrl(b)[|LatestRelease| + 1..] == b;
    }
  }

  /** The pattern `^\d+\.\d+\.\d+\.\d+$`: exactly four dot-separated non-empty runs of ASCII digits. */
  predicate IsVersion(s: string)
    ensures IsVersion(s) ==> s != [] && IsDigit(s[|s| - 1])
  {
    var fields := Split(s, '.');
    SplitLastIsSuffix(s, '.');
    |fields| == 4 && forall k :: 0 <= k < 4 ==> IsDigitRun(fields[k])
  }

  /** Four fields written with dots between them. */
  function Dotted(a: string, b: string, c: string, d: string): string
  {
    a + "." + b + "." + c + "." + d
  }

  lemma DottedIsJoin(a: string, b: string, c: string, d: string)
    ensures Dotted(a, b, c, d) == Join([a, b, c, d], ".")
  {
    JoinFour(a, b, c, d, ".");
  }

  lemma JoinFour(a: string, b: string, c: string, d: string, sep: string)
    ensures Join([a, b, c, d], sep) == a + sep + (b + sep + (c + sep + d))
  {
    assert [a, b, c, d][1..] == [b, c, d];
    assert [b, c, d][1..] == [c, d];
    assert [c, d][1..] == [d];
    assert Join([c, d], sep) == c + sep + d;
    assert Join([b, c, d], sep) == b + sep + (c + sep + d);
  }

  /** A digit run contains no dot. */
  lemma DigitRunHasNoDot(s: string)
    requires IsDigitRun(s)
    ensures '.' !in s
  {
  }

  /**
   * A string is a well-formed version exactly when it is four runs of digits
   * joined by dots, which is what the regular expression accepts.
   */
  lemma VersionShape(s: string)
    ensures IsVersion(s) <==>
      exists a, b, c, d :: IsDigitRun(a) && IsDigitRun(b) && IsDigitRun(c) && IsDigitRun(d)
        && s == Dotted(a, b, c, d)
  {
    if IsVersion(s) {
      var f := Split(s, '.');
      JoinSplit(s, '.');
      DottedIsJoin(f[0], f[1], f[2], f[3]);
      assert f == [f[0], f[1], f[2], f[3]];
      assert IsDigitRun(f[0]) && IsDigitRun(f[1]) && IsDigitRun(f[2]) && IsDigitRun(f[3]);
      assert s == Dotted(f[0], f[1], f[2], f[3]);
    }
    if exists a, b, c, d :: IsDigitRun(a) && IsDigitRun(b) && IsDigitRun(c) && IsDigitRun(d)
        && s == Dotted(a, b, c, d) {
      var a, b, c, d :| IsDigitRun(a) && IsDigitRun(b) && IsDigitRun(c) && IsDigitRun(d)
        && s == Dotted(a, b, c, d);
      var parts := [a, b, c, d];
      forall k | 0 <= k < |parts|
        ensures '.' !in parts[k]
      {
        DigitRunHasNoDot(parts[k]);
      }
      DottedIsJoin(a, b, c, d);
      SplitJoin(parts, '.');
    }
  }

  /** A trailing newline (as a text file would have) makes the body malformed. */
  lemma TrailingNewlineIsNotVersion(s: string)
    ensures !IsVersion(s + "\n")
  {
    var t := s + "\n";
    var f := Split(t, '.');
    SplitLastIsSuffix(t, '.');
    var last := f[|f| - 1];
    assert last == [] || last[|last| - 1] == t[|t| - 1] == '\n';
  }

  /** The archive name for Linux on amd64. */
  const Linux64 := "linux64"
  /** The archive name for macOS on Intel. */
  const Mac64 := "mac64"
  /** The archive name for macOS on anything other than amd64. */
  const MacArm64 := "mac_arm64"

  /** The error for an operating system without a published archive. */
  const UnsupportedPlatform := Error("unsupported platform")

  /**
   * The archive platform for `GOOS`/`GOARCH`: Linux on any architecture takes
   * `linux64`; macOS takes `mac64` on amd64 and `mac_arm64` otherwise; every
   * other operating system is refused.
   */
  function Platform(goos: string, goarch: string): (r: Result<string>)
    ensures r.Ok? <==> goos == "linux" || goos == "darwin"
    ensures r.Err? ==> r.error == UnsupportedPlatform
    ensures r == Ok(Linux64) <==> goos == "linux"
    ensures r == Ok(Mac64) <==> goos == "darwin" && goarch == "amd64"
    ensures r == Ok(MacArm64) <==> goos == "darwin" && goarch != "amd64"
  {
    match goos
    case "linux" => Ok(Linux64)
    case "darwin" => if goarch == "amd64" then Ok(Mac64) else Ok(MacArm64)
    case _ => Err(UnsupportedPlatform)
  }

  /** Only the three published archive names are ever chosen, and the architecture matters only on macOS. */
  lemma PlatformTokens(goos: string, goarch: string, goarch': string)
    ensures Platform(goos, goarch).Ok? ==> Platform(goos, goarch).value in {Linux64, Mac64, MacArm64}
    ensures goos != "darwin" ==> Platform(goos, goarch) == Platform(goos, goarch')
  {
  }

  /** The last part of an archive URL, after the version. */
  function ArchiveName(platform: string): string
  {
    "/chromedriver_" + platform + ".zip"
  }

  /** `https://chromedriver.storage.googleapis.com/{ver}/chromedriver_{platform}.zip`. */
  function DownloadUrl(ver: string, platform: string): (url: string)
    ensures HasPrefix(url, StorageBase + "/" + ver + "/")
  {
    StorageBase + "/" + ver + ArchiveName(platform)
  }

  /** The character nine places from the end of an archive name, which tells the platforms apart. */
  function PlatformMark(platform: string): char
  {
    if platform == Linux64 then 'n' else if platform == Mac64 then 'm' else 'a'
  }

  lemma ArchiveNameMark(platform: string)
    requires platform in {Linux64, Mac64, MacArm64}
    ensures var t := ArchiveName(platform); |t| >= 9 && t[|t| - 9] == PlatformMark(platform)
  {
  }

  /** Distinct versions or platforms download from distinct URLs. */
  lemma DownloadUrlInjective(v1: string, p1: string, v2: string, p2: string)
    requires p1 in {Linux64, Mac64, MacArm64} && p2 in {Linux64, Mac64, MacArm64}
    requires DownloadUrl(v1, p1) == DownloadUrl(v2, p2)
    ensures v1 == v2 && p1 == p2
  {
    var u := DownloadUrl(v1, p1);
    var t1, t2 := ArchiveName(p1), ArchiveName(p2);
    ArchiveNameMark(p1);
    ArchiveNameMark(p2);
    assert u == (StorageBase + "/" + v1) + t1;
    assert u == (StorageBase + "/" + v2) + t2;
    assert u[|u| - 9] == t1[|t1| - 9];
    assert u[|u| - 9] == t2[|t2| - 9];
    assert p1 == p2;
    var front := |StorageBase + "/"|;
    assert u == (StorageBase + "/") + v1 + t1;
    assert u == (StorageBase + "/") + v2 + t1;
    assert v1 == u[front..|u| - |t1|] == v2;
  }

  /** The WebDriver endpoint of a local ChromeDriver bound to `port`. */
  function SessionUrl(port: int): (url: string)
    ensures HasPrefix(url, "http://localhost:")
  {
    "http://localhost:" + IntToString(port) + "/wd/hub"
  }

  /** Distinct ports give distinct endpoints: the session talks to the service on its own port. */
  lemma SessionUrlInjective(p: int, q: int)
    requires SessionUrl(p) == SessionUrl(q)
    ensures p == q
  {
    var u := SessionUrl(p);
    assert u == "http://localhost:" + IntToString(p) + "/wd/hub";
    assert u == "http://localhost:" + IntToString(q) + "/wd/hub";
    assert IntToString(p) == u[17..|u| - 7] == IntToString(q);
    IntToStringInjective(p, q);
  }

  /** The prefix of `s` up to and including its last slash, empty when there is none. */
  function UpToLastSlash(s: string): (r: string)
    ensures |r| <= |s| && r == s[..|r|]
    ensures r != [] ==> r[|r| - 1] == '/'
    ensures r == [] <==> '/' !in s
  {
    if s == [] then []
    else if s[|s| - 1] == '/' then s
    else
      var r := UpToLastSlash(s[..|s| - 1]);
      assert '/' in s <==> '/' in s[..|s| - 1];
      r
  }

  /** `s` without the slashes it ends with. */
  function TrimTrailingSlashes(s: string): (r: string)
    ensures |r| <= |s| && r == s[..|r|]
    ensures r == [] || r[|r| - 1] != '/'
    ensures forall k :: |r| <= k < |s| ==> s[k] == '/'
  {
    if s != [] && s[|s| - 1] == '/' then TrimTrailingSlashes(s[..|s| - 1]) else s
  }

  /**
   * `path.Dir`: everything before the last slash without trailing slashes,
   * `/` for a name in the root and `.` for a bare file name.
   */
  function Dir(path: string): (dir: string)
    ensures dir != ""
    ensures '/' !in path ==> dir == "."
    ensures '/' in path ==> HasPrefix(path, dir)
  {
    var upTo := UpToLastSlash(path);
    if upTo == [] then "."
    else
      var d := TrimTrailingSlashes(upTo);
      if d == [] then
        assert path[0] == upTo[0] == '/';
        "/"
      else d
  }
}
