/**
 * The ChromeDriver manager and WebDriver lifecycle of internal/utils/selenium.go.
 *
 * The network, the filesystem, the driver process and the browser are
 * oracles: an `Env` says what each call would answer, and every call the
 * manager makes is appended to the `effects` trace of the `Selenium` object,
 * so that "no download happens" or "the session is quit before the service is
 * stopped" are statements about that trace.
 */
module Selenium {
  import opened Base
  import opened Strings
  import opened DriverUrls

  /** What `os.Stat` reports for the driver path. */
  datatype StatResult = Exists | NotExist | StatFailed(error: Error)

  /** The answer of every outside call the manager can make, in the order it makes them. */
  datatype Env = Env(
    stat: StatResult,                // os.Stat(Driver)
    versionResponse: Result<string>, // GET of the version URL: the body, or the transport error
    goos: string,                    // runtime.GOOS
    goarch: string,                  // runtime.GOARCH
    archiveResponse: Option<Error>,  // GET of the archive URL
    mkdir: Option<Error>,            // os.MkdirAll(path.Dir(Driver), 0755)
    create: Option<Error>,           // os.OpenFile(Driver, O_CREATE|O_WRONLY, 0755)
    copy: Option<Error>,             // io.Copy(file, body)
    serviceStart: Option<Error>,     // selenium.NewChromeDriverService(Driver, Port)
    sessionOpen: Option<Error>)      // selenium.NewRemote(caps, SessionUrl(Port))

  /** A call made to the outside world (or the one warning that stands in for a check). */
  datatype Effect =
    | HttpGet(url: string)
    | WarnInvalidVersion(pinned: string)
    | MakeDirs(dir: string)
    | CreateFile(path: string)
    | WriteBody(path: string)
    | StartService(path: string, port: int)
    | OpenSession(url: string)
    | QuitSession
    | StopService

  /** The handle of a running ChromeDriver process. */
  datatype Service = Service(path: string, port: int)

  /** The handle of an open WebDriver session. */
  datatype Session = Session(url: string)

  /** One fallible call of a sequence: the effects it has and the error it returns, if any. */
  datatype Step = Step(effects: seq<Effect>, failure: Option<Error>)

  /** The effects of all steps, one after the other. */
  function Flatten(steps: seq<Step>): seq<Effect>
  {
    if steps == [] then [] else steps[0].effects + Flatten(steps[1..])
  }

  /** The effects of running the steps in order and returning at the first failing one. */
  function Performed(steps: seq<Step>): (performed: seq<Effect>)
    ensures |performed| <= |Flatten(steps)| && performed == Flatten(steps)[..|performed|]
  {
    if steps == [] then []
    else if steps[0].failure.Some? then steps[0].effects
    else steps[0].effects + Performed(steps[1..])
  }

  /** The error returned by running the steps in order: that of the first failing step. */
  function FirstFailure(steps: seq<Step>): (err: Option<Error>)
    ensures err.Some? <==> exists k :: 0 <= k < |steps| && steps[k].failure.Some?
  {
    if steps == [] then None
    else if steps[0].failure.Some? then steps[0].failure
    else FirstFailure(steps[1..])
  }

  /** A run that meets a failure at step `k` performs steps 0..k and nothing after, and returns that failure. */
  lemma {:induction false} StopsAtFirstFailure(steps: seq<Step>, k: nat)
    requires k < |steps| && steps[k].failure.Some?
    requires forall j :: 0 <= j < k ==> steps[j].failure.None?
    ensures Performed(steps) == Flatten(steps[..k + 1])
    ensures FirstFailure(steps) == steps[k].failure
  {
    if k > 0 {
      StopsAtFirstFailure(steps[1..], k - 1);
      assert steps[1..][..k] == steps[..k + 1][1..];
    }
  }

  /**
   * Running the steps after the calls in `done` have been made: the trace a
   * caller sees, step by step, stopping after the first failing step.
   */
  function RunFrom(done: seq<Effect>, steps: seq<Step>): (trace: seq<Effect>)
    ensures |done| <= |trace| && trace[..|done|] == done
    decreases |steps|
  {
    if steps == [] then done
    else if steps[0].failure.Some? then done + steps[0].effects
    else RunFrom(done + steps[0].effects, steps[1..])
  }

  /** Running after `done` extends `done` by exactly the performed effects. */
  lemma {:induction false} RunFromAppends(done: seq<Effect>, steps: seq<Step>)
    ensures RunFrom(done, steps) == done + Performed(steps)
    decreases |steps|
  {
    if steps != [] && steps[0].failure.None? {
      RunFromAppends(done + steps[0].effects, steps[1..]);
    }
  }

  /** Taking step `k` of a run. */
  lemma Advance(done: seq<Effect>, steps: seq<Step>, k: nat)
    requires k < |steps|
    ensures RunFrom(done, steps[k..]) ==
      if steps[k].failure.Some? then done + steps[k].effects
      else RunFrom(done + steps[k].effects, steps[k + 1..])
    ensures FirstFailure(steps[k..]) ==
      if steps[k].failure.Some? then steps[k].failure else FirstFailure(steps[k + 1..])
  {
    assert steps[k..][1..] == steps[k + 1..];
  }

  /** A run without a failing step performs every step and returns no error. */
  lemma {:induction false} RunsToCompletion(steps: seq<Step>)
    requires forall j :: 0 <= j < |steps| ==> steps[j].failure.None?
    ensures Performed(steps) == Flatten(steps)
    ensures FirstFailure(steps) == None
  {
    if steps != [] {
      RunsToCompletion(steps[1..]);
    }
  }

  /** The body of the version response, or `""` when the GET failed. */
  function FetchedVersion(env: Env): string
  {
    match env.versionResponse
    case Ok(body) => body
    case Err(_) => ""
  }

  /** The archive platform of the host, or `""` when it has none. */
  function HostPlatform(env: Env): string
  {
    match Platform(env.goos, env.goarch)
    case Ok(p) => p
    case Err(_) => ""
  }

  /** The version fetch: one GET, and a warning naming the pinned version when the body is malformed. */
  function VersionStep(pinned: string, env: Env): (step: Step)
    ensures |step.effects| >= 1 && step.effects[0] == HttpGet(VersionUrl(pinned))
    ensures |step.effects| == 2 <==> env.versionResponse.Ok? && !IsVersion(env.versionResponse.value)
    ensures step.failure.Some? <==> env.versionResponse.Err?
  {
    var warn := env.versionResponse.Ok? && !IsVersion(env.versionResponse.value);
    Step([HttpGet(VersionUrl(pinned))] + (if warn then [WarnInvalidVersion(pinned)] else []),
         ErrorOf(env.versionResponse))
  }

  /** The platform choice: no outside call, an error for an unsupported operating system. */
  function PlatformStep(env: Env): Step
  {
    Step([], ErrorOf(Platform(env.goos, env.goarch)))
  }

  /** The archive GET for the fetched version and the host's platform. */
  function ArchiveStep(env: Env): (step: Step)
    ensures |step.effects| == 1 && step.effects[0].HttpGet?
    ensures HasPrefix(step.effects[0].url, StorageBase + "/" + FetchedVersion(env) + "/")
    ensures step.failure == env.archiveResponse
  {
    Step([HttpGet(DownloadUrl(FetchedVersion(env), HostPlatform(env)))], env.archiveResponse)
  }

  /** `os.MkdirAll` of the directory that will hold the driver. */
  function MakeDirsStep(driver: string, env: Env): Step
  {
    Step([MakeDirs(Dir(driver))], env.mkdir)
  }

  /** `os.OpenFile` of the driver path for writing. */
  function CreateStep(driver: string, env: Env): Step
  {
    Step([CreateFile(driver)], env.create)
  }

  /** `io.Copy` of the archive body into the driver file. */
  function CopyStep(driver: string, env: Env): Step
  {
    Step([WriteBody(driver)], env.copy)
  }

  /**
   * The steps of `downloadDriver`, in the order it takes them: version fetch,
   * platform choice (no outside call), archive GET, directory creation, file
   * creation, body copy.
   */
  function DownloadSteps(driver: string, pinned: string, env: Env): (steps: seq<Step>)
    ensures |steps| == 6
    ensures steps[0] == VersionStep(pinned, env) && steps[1].effects == [] && steps[3..] == SaveSteps(driver, env)
  {
    [VersionStep(pinned, env), PlatformStep(env), ArchiveStep(env)] + SaveSteps(driver, env)
  }

  /** The last three download steps, which put the archive on disk. */
  function SaveSteps(driver: string, env: Env): (steps: seq<Step>)
    ensures |steps| == 3
    ensures steps[0].effects == [MakeDirs(Dir(driver))] && steps[2].failure == env.copy
  {
    [MakeDirsStep(driver, env), CreateStep(driver, env), CopyStep(driver, env)]
  }

  /** The effects of `setupDriver`: a download only when the driver is missing. */
  function SetupEffects(driver: string, pinned: string, env: Env): (effects: seq<Effect>)
    ensures !env.stat.NotExist? ==> effects == []
    ensures env.stat.NotExist? ==> |effects| >= 1 && effects[0] == HttpGet(VersionUrl(pinned))
  {
    if env.stat.NotExist? then Performed(DownloadSteps(driver, pinned, env)) else []
  }

  /** The error of `setupDriver`: the download's, or the `os.Stat` error when it is not "does not exist". */
  function SetupFailure(driver: string, pinned: string, env: Env): (err: Option<Error>)
    ensures env.stat.Exists? ==> err == None
    ensures env.stat.StatFailed? ==> err == Some(env.stat.error)
    ensures env.stat.NotExist? && env.versionResponse.Err? ==> err == Some(env.versionResponse.error)
  {
    match env.stat
    case Exists => None
    case NotExist => FirstFailure(DownloadSteps(driver, pinned, env))
    case StatFailed(e) => Some(e)
  }

  /** The steps of `Prologue`: driver setup, service start, session open. */
  function PrologueSteps(driver: string, port: int, pinned: string, env: Env): (steps: seq<Step>)
    ensures |steps| == 3
    ensures steps[1].effects == [StartService(driver, port)] && steps[2].effects == [OpenSession(SessionUrl(port))]
    ensures steps[0].failure == SetupFailure(driver, pinned, env)
  {
    [ Step(SetupEffects(driver, pinned, env), SetupFailure(driver, pinned, env)),
      Step([StartService(driver, port)], env.serviceStart),
      Step([OpenSession(SessionUrl(port))], env.sessionOpen) ]
  }

  /** The effects of `Epilogue` on the handles it finds: the session is quit, then the service stopped. */
  function Teardown(session: Option<Session>, service: Option<Service>): (effects: seq<Effect>)
    ensures QuitSession in effects <==> session.Some?
    ensures StopService in effects <==> service.Some?
    ensures |effects| <= 2
  {
    (if session.Some? then [QuitSession] else []) + (if service.Some? then [StopService] else [])
  }

  /** A driver that is present, or that cannot be looked at, is never downloaded. */
  lemma NoDownloadUnlessMissing(driver: string, pinned: string, env: Env)
    requires !env.stat.NotExist?
    ensures SetupEffects(driver, pinned, env) == []
    ensures env.stat.Exists? ==> SetupFailure(driver, pinned, env) == None
    ensures env.stat.StatFailed? ==> SetupFailure(driver, pinned, env) == Some(env.stat.error)
  {
  }

  /** A failed version fetch ends the download after that one GET, before the platform is even looked at. */
  lemma VersionFailureStopsDownload(driver: string, pinned: string, env: Env)
    requires env.versionResponse.Err?
    ensures Performed(DownloadSteps(driver, pinned, env)) == [HttpGet(VersionUrl(pinned))]
    ensures FirstFailure(DownloadSteps(driver, pinned, env)) == Some(env.versionResponse.error)
  {
    StopsAtFirstFailure(DownloadSteps(driver, pinned, env), 0);
    assert DownloadSteps(driver, pinned, env)[..1] == [VersionStep(pinned, env)];
  }

  /** On an unsupported system the version is fetched, but no archive is requested and nothing is written. */
  lemma UnsupportedPlatformStopsDownload(driver: string, pinned: string, env: Env)
    requires env.versionResponse.Ok?
    requires Platform(env.goos, env.goarch).Err?
    ensures Performed(DownloadSteps(driver, pinned, env)) == VersionStep(pinned, env).effects
    ensures FirstFailure(DownloadSteps(driver, pinned, env)) == Some(UnsupportedPlatform)
  {
    var steps := DownloadSteps(driver, pinned, env);
    StopsAtFirstFailure(steps, 1);
    assert steps[..2] == [steps[0], steps[1]];
    assert steps[..2][1..] == [steps[1]];
  }

  /**
   * A malformed version body is only warned about: when every later step
   * succeeds, the archive of that very body is downloaded and written, and
   * the download reports success.
   */
  lemma MalformedVersionStillDownloads(driver: string, pinned: string, env: Env, body: string)
    requires env.versionResponse == Ok(body) && !IsVersion(body)
    requires Platform(env.goos, env.goarch).Ok?
    requires env.archiveResponse.None? && env.mkdir.None? && env.create.None? && env.copy.None?
    ensures Performed(DownloadSteps(driver, pinned, env)) ==
      [HttpGet(VersionUrl(pinned)), WarnInvalidVersion(pinned),
       HttpGet(DownloadUrl(body, Platform(env.goos, env.goarch).value)),
       MakeDirs(Dir(driver)), CreateFile(driver), WriteBody(driver)]
    ensures FirstFailure(DownloadSteps(driver, pinned, env)) == None
  {
    var steps := DownloadSteps(driver, pinned, env);
    var platform := Platform(env.goos, env.goarch).value;
    assert steps[5..][1..] == [];
    assert Performed(steps[5..]) == [WriteBody(driver)];
    assert steps[4..][1..] == steps[5..];
    assert Performed(steps[4..]) == [CreateFile(driver), WriteBody(driver)];
    assert steps[3..][1..] == steps[4..];
    assert Performed(steps[3..]) == [MakeDirs(Dir(driver)), CreateFile(driver), WriteBody(driver)];
    assert steps[2..][1..] == steps[3..];
    assert Performed(steps[2..]) == [HttpGet(DownloadUrl(body, platform))] + Performed(steps[3..]);
    assert steps[1..][1..] == steps[2..];
    assert Performed(steps[1..]) == Performed(steps[2..]);
    assert Performed(steps) == [HttpGet(VersionUrl(pinned)), WarnInvalidVersion(pinned)] + Performed(steps[1..]);
    RunsToCompletion(steps);
  }

  /** `Epilogue` on a live session and service quits the session first, then stops the service. */
  lemma TeardownOrder(session: Session, service: Service)
    ensures Teardown(Some(session), Some(service)) == [QuitSession, StopService]
  {
  }

  /** The ChromeDriver manager: configuration, the nilable embedded handles, and the trace of calls. */
  class Selenium {
    const driver: string
    const port: int
    const driverVersion: string

    /** Whether the internal HTTP client is set (`client.Prologue`) or nil (`client.Epilogue`). */
    var client: bool
    /** The embedded `*selenium.Service`; `None` is nil. */
    var service: Option<Service>
    /** The embedded `selenium.WebDriver`; `None` is nil. */
    var webDriver: Option<Session>
    /** Every outside call made so far, oldest first. */
    var effects: seq<Effect>

    /** A session never exists without the service it talks to. */
    ghost predicate Valid()
      reads this
    {
      webDriver.Some? ==> service.Some?
    }

    constructor (driver: string, port: int, driverVersion: string)
      ensures this.driver == driver && this.port == port && this.driverVersion == driverVersion
      ensures !client && service == None && webDriver == None && effects == []
      ensures Valid()
    {
      this.driver := driver;
      this.port := port;
      this.driverVersion := driverVersion;
      client := false;
      service := None;
      webDriver := None;
      effects := [];
    }

    /**
     * `getLatestDriverVersion`: one GET of the version URL. A malformed body is
     * only reported; it is still returned, with no error.
     */
    method GetLatestDriverVersion(env: Env) returns (ver: string, err: Option<Error>)
      modifies this`effects
      ensures effects == old(effects) + VersionStep(driverVersion, env).effects
      ensures err == ErrorOf(env.versionResponse)
      ensures ver == FetchedVersion(env)
    {
      var url := LatestRelease;
      if driverVersion != "" {
        url := url + "_" + driverVersion;
      }
      effects := effects + [HttpGet(url)];
      match env.versionResponse
      case Err(e) =>
        ver, err := "", Some(e);
      case Ok(body) =>
        ver, err := body, None;
        if !IsVersion(ver) {
          effects := effects + [WarnInvalidVersion(driverVersion)];
        }
    }

    /** `downloadDriver`: the download steps, returning at the first that fails. */
    method DownloadDriver(env: Env) returns (err: Option<Error>)
      modifies this`effects
      ensures effects == RunFrom(old(effects), DownloadSteps(driver, driverVersion, env))
      ensures err == FirstFailure(DownloadSteps(driver, driverVersion, env))
    {
      ghost var steps := DownloadSteps(driver, driverVersion, env);
      assert steps[0..] == steps;
      Advance(effects, steps, 0);
      var latest: string;
      latest, err := GetLatestDriverVersion(env);
      if err.Some? {
        return;
      }

      Advance(effects, steps, 1);
      assert effects + [] == effects;
      var platform: string;
      if env.goos == "linux" {
        platform := "linux64";
      } else if env.goos == "darwin" {
        platform := "mac64";
        if env.goarch != "amd64" {
          platform := "mac_arm64";
        }
      } else {
        err := Some(Error("unsupported platform"));
        return;
      }
      assert platform == HostPlatform(env);

      Advance(effects, steps, 2);
      var url := DownloadUrl(latest, platform);
      assert latest == FetchedVersion(env);
      assert ArchiveStep(env).effects == [HttpGet(url)];
      effects := effects + [HttpGet(url)];
      if env.archiveResponse.Some? {
        err := env.archiveResponse;
        return;
      }

      assert steps[3..] == SaveSteps(driver, env);
      err := SaveArchive(env);
    }

    /** The tail of `downloadDriver`: create the directory, create the file, copy the body into it. */
    method SaveArchive(env: Env) returns (err: Option<Error>)
      modifies this`effects
      ensures effects == RunFrom(old(effects), SaveSteps(driver, env))
      ensures err == FirstFailure(SaveSteps(driver, env))
    {
      ghost var steps := SaveSteps(driver, env);
      assert steps[0..] == steps;
      Advance(effects, steps, 0);
      effects := effects + [MakeDirs(Dir(driver))];
      if env.mkdir.Some? {
        err := env.mkdir;
        return;
      }

      Advance(effects, steps, 1);
      effects := effects + [CreateFile(driver)];
      if env.create.Some? {
        err := env.create;
        return;
      }

      Advance(effects, steps, 2);
      effects := effects + [WriteBody(driver)];
      err := env.copy;
      assert steps[3..] == [];
    }

    /** `setupDriver`: download only when `os.Stat` says the driver does not exist. */
    method SetupDriver(env: Env) returns (err: Option<Error>)
      modifies this`effects
      ensures effects == old(effects) + SetupEffects(driver, driverVersion, env)
      ensures err == SetupFailure(driver, driverVersion, env)
    {
      match env.stat
      case Exists =>
        err := None;
      case StatFailed(e) =>
        err := Some(e);
      case NotExist =>
        err := DownloadDriver(env);
        RunFromAppends(old(effects), DownloadSteps(driver, driverVersion, env));
    }

    /**
     * `Prologue`: set the HTTP client, set the driver up, start the service,
     * open the session; any failure panics (returned here as the panic value).
     * The service handle is stored before the session is opened, the session
     * handle only once it is open.
     */
    method Prologue(env: Env) returns (panic: Option<Error>)
      requires Valid()
      modifies this`client, this`service, this`webDriver, this`effects
      ensures Valid() && client
      ensures effects == old(effects) + Performed(PrologueSteps(driver, port, driverVersion, env))
      ensures panic == FirstFailure(PrologueSteps(driver, port, driverVersion, env))
      ensures service == if SetupFailure(driver, driverVersion, env).None? && env.serviceStart.None?
                         then Some(Service(driver, port)) else old(service)
      ensures webDriver == if panic.None? then Some(Session(SessionUrl(port))) else old(webDriver)
    {
      ghost var steps := PrologueSteps(driver, port, driverVersion, env);
      ghost var start := effects;
      assert steps[0..] == steps;
      RunFromAppends(start, steps);
      Advance(start, steps, 0);
      client := true;

      panic := SetupDriver(env);
      if panic.Some? {
        return;
      }

      Advance(effects, steps, 1);
      effects := effects + [StartService(driver, port)];
      if env.serviceStart.Some? {
        panic := env.serviceStart;
        return;
      }
      service := Some(Service(driver, port));

      Advance(effects, steps, 2);
      var url := "http://localhost:" + IntToString(port) + "/wd/hub";
      effects := effects + [OpenSession(url)];
      if env.sessionOpen.Some? {
        panic := env.sessionOpen;
        return;
      }
      webDriver := Some(Session(url));
      assert steps[3..] == [];
    }

    /** `Epilogue`: clear the client, quit a live session, then stop a live service; both end nil. */
    method Epilogue()
      modifies this`client, this`service, this`webDriver, this`effects
      ensures Valid() && !client && service == None && webDriver == None
      ensures effects == old(effects) + Teardown(old(webDriver), old(service))
    {
      client := false;
      if webDriver.Some? {
        effects := effects + [QuitSession];
        webDriver := None;
      }
      if service.Some? {
        effects := effects + [StopService];
        service := None;
      }
    }
  }

  /** Tearing down twice (a deferred teardown after an explicit one) adds nothing the second time. */
  method EpilogueTwice(s: Selenium)
    modifies s
    ensures s.service == None && s.webDriver == None
    ensures s.effects == old(s.effects) + Teardown(old(s.webDriver), old(s.service))
  {
    s.Epilogue();
    ghost var once := s.effects;
    s.Epilogue();
    assert s.effects == once;
  }
}
