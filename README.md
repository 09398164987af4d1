# clotho — a Dafny model of the collector's core

Clotho is a command-line OSINT collector written in Go. This project models
five parts of it in Dafny and proves properties of those models:

- **The ChromeDriver manager** (`internal/utils/selenium.go`). It chooses the
  version URL and checks the version's shape. It picks the platform archive,
  downloads and saves the driver only when it is missing, starts the
  ChromeDriver service, opens a WebDriver session, and tears both down in
  order.
- **The LinkedIn profile extractor** (`internal/linkedin/command.go`). It
  turns a profile page into a table of four-column rows: three scalar rows,
  then one row per experience card and one per position of an experience
  group.
- **The older map-based LinkedIn extractor** (`internal/linkedin/cli.go`).
  Each experience item writes `company → job title` into a dictionary seeded
  with the name, title and location.
- **The demo sub-command** (`internal/demo/command.go`). It either makes one
  HTTP GET and prints the body, or runs an interactive browser loop that
  navigates, reads a line, and adopts the line as the next link when it is
  a web URL.
- **The runner** (`clotho.go`). It maps the `--quiet` flag and the `-v`
  count to a zerolog level. It runs a sub-command's prologue, execution and
  deferred epilogue, prints the result, and chooses the exit code.

The network, the filesystem, the browser, standard input and the Go runtime
are oracles, passed in as values:

- `Selenium.Env` answers for the network, the filesystem and the driver
  process.
- `Dom.Element`/`Dom.Page` answer for the browser.
- `Demo.Input`/`Demo.Fetch` answer for standard input and the HTTP request.
- `Clotho.SubCommand` says what a sub-command's calls do.

The objects the source updates in place are Dafny classes: `Selenium`,
`Demo` and `Clotho`. Each class has the source's fields, plus a trace field
(`effects` or `events`) that records every outside call in order. So "no
archive is requested" or "the session is quit before the service is
stopped" are proved statements about that trace.

`downloadDriver` is a sequence of fallible steps that returns at the first
error. The module `Selenium` models it with a generic step runner
(`Performed`, `FirstFailure`, `RunFrom`). The methods are proved to produce
exactly the runner's trace and error.

`getLatestDriverVersion` only logs a warning on a malformed body and
returns it with a nil error (selenium.go:116-123), so the download goes
ahead with that body in the archive URL;
`Selenium.MalformedVersionStillDownloads` states this.

Files:

| file | module | contents |
|---|---|---|
| base.dfy | Base | `Error`, `Option`, `Result`, sequence associativity |
| strings.dfy | Strings | prefix and substring tests, `Join`/`Split`, `TrimSpace`, decimal formatting of integers |
| driver_urls.dfy | DriverUrls | the pure decisions of the driver manager: URLs, version shape, platform, `path.Dir` |
| selenium.dfy | Selenium | the step runner and the `Selenium` class |
| dom.dfy | Dom | the browser's elements as oracles: `FindElements`, `FindElement` |
| linkedin_command.dfy | LinkedInCommand | the row-based extractor |
| linkedin_cli.dfy | LinkedInCli | the map-based extractor |
| demo.dfy | Demo | the demo sub-command and the `Demo` class |
| clotho.dfy | Clotho | the logger level, the sub-command lifecycle and the `Clotho` class |

## Model

| member | source | states |
|---|---|---|
| DriverUrls.VersionUrl | internal/utils/selenium.go:99-103 | the version URL is exactly `LATEST_RELEASE` when no version is pinned; otherwise it is that URL, then `_`, then the pin |
| DriverUrls.VersionUrlInjective | internal/utils/selenium.go:99-103 | different pinned versions ask different URLs |
| DriverUrls.IsVersion | internal/utils/selenium.go:118 | the version check of the regular expression; a string that passes is non-empty and ends in a digit |
| DriverUrls.VersionShape | internal/utils/selenium.go:116-118 | a string is a version exactly when it is four non-empty digit runs joined by dots, as the regular expression `^\d+\.\d+\.\d+\.\d+$` demands |
| DriverUrls.TrailingNewlineIsNotVersion | internal/utils/selenium.go:114-118 | a body ending in a newline is never a well-formed version, because the regular expression is anchored at the end of the text |
| DriverUrls.Platform | internal/utils/selenium.go:138-150 | Linux and macOS are the only supported systems; any other system fails with "unsupported platform"; `linux64` is chosen exactly on Linux, `mac64` exactly on macOS with amd64, and `mac_arm64` exactly on macOS with any other architecture |
| DriverUrls.PlatformTokens | internal/utils/selenium.go:138-150 | only `linux64`, `mac64` and `mac_arm64` are ever chosen, and the architecture changes nothing off macOS |
| DriverUrls.DownloadUrl | internal/utils/selenium.go:152 | the archive URL lives under the storage base and the fetched version |
| DriverUrls.DownloadUrlInjective | internal/utils/selenium.go:152 | distinct versions or platforms download from distinct URLs |
| DriverUrls.SessionUrl | internal/utils/selenium.go:54 | the WebDriver endpoint is on localhost |
| DriverUrls.SessionUrlInjective | internal/utils/selenium.go:54 | distinct ports give distinct endpoints, so the port can be read back from the URL |
| DriverUrls.Dir | internal/utils/selenium.go:164 | the directory of the driver path is never empty; it is `.` for a bare file name and a prefix of the path otherwise |
| Selenium.StopsAtFirstFailure | internal/utils/selenium.go:127-185 | a step sequence whose first failure is step k performs exactly the effects of steps 0..k and returns that step's error |
| Selenium.RunsToCompletion | internal/utils/selenium.go:127-185 | a step sequence without a failure performs every step and returns no error |
| Selenium.RunFromAppends | internal/utils/selenium.go:127-185 | running steps after earlier calls only appends the performed effects to the trace |
| Selenium.Performed | internal/utils/selenium.go:127-185 | the effects of running steps in order up to and including the first failing one; always a prefix of the effects of all steps |
| Selenium.FirstFailure | internal/utils/selenium.go:127-185 | the error of running steps in order; there is one exactly when some step fails |
| Selenium.RunFrom | internal/utils/selenium.go:127-185 | the trace after running the steps one by one after earlier calls; the earlier calls are kept as its prefix |
| Selenium.VersionStep | internal/utils/selenium.go:99-121 | the version fetch: first a GET of the version URL, then a warning exactly when the body is malformed; it fails exactly when the GET fails |
| Selenium.ArchiveStep | internal/utils/selenium.go:152-160 | a single GET of an archive URL under the fetched version, failing with the GET's error |
| Selenium.DownloadSteps | internal/utils/selenium.go:127-185 | six steps: the version fetch first, then the platform choice with no outside call, the archive GET, and the three saving steps |
| Selenium.SaveSteps | internal/utils/selenium.go:164-182 | three steps: creating the driver's directory first, then the file, then the copy, which fails with the copy's error |
| Selenium.SetupEffects | internal/utils/selenium.go:79-88 | no outside call unless the driver is missing; when it is, the download begins with the version GET |
| Selenium.SetupFailure | internal/utils/selenium.go:79-88 | no error for an existing driver, the stat error when stat fails otherwise, and the version GET's error when a missing driver's version cannot be fetched |
| Selenium.PrologueSteps | internal/utils/selenium.go:35-61 | three steps: the driver setup with its error, the service start, and the session open on the service's port |
| Selenium.Teardown | internal/utils/selenium.go:64-76 | the session is quit exactly when there is one and the service stopped exactly when there is one; at most two calls |
| Selenium.Selenium.GetLatestDriverVersion | internal/utils/selenium.go:91-124 | one GET of the version URL; the error is exactly the GET's error; the body is returned even when malformed, with a warning in the trace and no error |
| Selenium.Selenium.DownloadDriver | internal/utils/selenium.go:127-185 | the new trace and the error are those of running version fetch, platform choice, archive GET, directory creation, file creation and body copy, returning at the first error |
| Selenium.Selenium.SaveArchive | internal/utils/selenium.go:164-184 | the directory, file and copy steps, returning at the first error |
| Selenium.Selenium.SetupDriver | internal/utils/selenium.go:79-88 | the driver is downloaded only when `os.Stat` reports it does not exist; any other stat error is returned without a download |
| Selenium.NoDownloadUnlessMissing | internal/utils/selenium.go:79-88 | a driver that exists, or that cannot be stat'ed, causes no outside call; the first case returns no error, the second returns the stat error |
| Selenium.VersionFailureStopsDownload | internal/utils/selenium.go:107-111 | a failed version GET ends the download after that single GET and returns the GET's error |
| Selenium.UnsupportedPlatformStopsDownload | internal/utils/selenium.go:146-149 | on an unsupported system only the version is fetched: no archive GET and no write, and "unsupported platform" is returned |
| Selenium.MalformedVersionStillDownloads | internal/utils/selenium.go:116-185 | a malformed version body gives only a warning; the archive of that very body is fetched and written, and the download succeeds |
| Selenium.Selenium.Prologue | internal/utils/selenium.go:35-61 | sets the client, sets the driver up, starts the service, then opens the session on the service's port; the first failure panics; the service handle is stored before the session is opened, and the session handle only once it is open; a session never exists without a service |
| Selenium.Selenium.Epilogue | internal/utils/selenium.go:64-76 | clears the client, quits a live session, then stops a live service; both handles end nil |
| Selenium.TeardownOrder | internal/utils/selenium.go:67-75 | with a live session and service, the session is quit before the service is stopped |
| Selenium.EpilogueTwice | internal/utils/selenium.go:64-76 | a second teardown adds no outside call |
| LinkedInCommand.FieldData | internal/linkedin/command.go:100-114 | the text of the first element matching the selector; `""` when none matches or its text cannot be read (internal/linkedin/cli.go:60-74 is the same function, and `LinkedInCli` uses this one) |
| LinkedInCommand.TextLookup | internal/linkedin/command.go:116-137 | a failed lookup has an empty value; no selectors gives `""` and no error |
| LinkedInCommand.FirstSuccessWins | internal/linkedin/command.go:119-134 | the first selector whose element and `innerText` both read decides the value, with no error |
| LinkedInCommand.AllFailReportsLast | internal/linkedin/command.go:119-136 | when every selector fails, the value is `""` and the error is the last selector's |
| LinkedInCommand.LaterSelectorsIgnored | internal/linkedin/command.go:132-133 | once a selector has worked, appending more selectors changes nothing |
| LinkedInCommand.GetText | internal/linkedin/command.go:116-137 | the loop with `continue` and `break` returns exactly the fallback chain's result |
| LinkedInCommand.TimeRanges | internal/linkedin/command.go:62-67 | one date text per time element, in order; `""` for one whose text cannot be read |
| LinkedInCommand.Classify | internal/linkedin/command.go:58-73 | an item is a card exactly when its class contains `profile-section-card`, and a group exactly when it does not but contains `experience-group` |
| LinkedInCommand.ScalarRows | internal/linkedin/command.go:35-39 | three rows, `name`, `title`, `location`, each with its field text and two empty columns |
| LinkedInCommand.CardRow | internal/linkedin/command.go:58-70 | an empty label, the company from the link or else the heading, the title, and the `innerText` of every time element joined by `" - "` (empty without time elements) |
| LinkedInCommand.PositionRow | internal/linkedin/command.go:78-88 | one position's row: an empty label, the group's company, the position's own title, and its dates joined by `" - "` |
| LinkedInCommand.GroupRows | internal/linkedin/command.go:73-91 | one row per position found in the whole page, each under the group's company; row k holds position k's title and its dates joined by `" - "` |
| LinkedInCommand.ItemRows | internal/linkedin/command.go:51-94 | an item whose class cannot be read, or names neither marker, adds nothing; a card adds its row; a group adds its position rows |
| LinkedInCommand.ExperienceRows | internal/linkedin/command.go:50-95 | the rows of the items in document order; none for no items, and exactly one item's rows for a single item |
| LinkedInCommand.ProfileRows | internal/linkedin/command.go:34-98 | the table starts with the three scalar rows, and is just those when the experience list never becomes visible |
| LinkedInCommand.AppendItem | internal/linkedin/command.go:51-95 | one iteration of the item loop appends exactly the item's rows |
| LinkedInCommand.ExtractUserProfile | internal/linkedin/command.go:34-98 | the built table is the scalar rows followed by the rows of each experience item in document order |
| LinkedInCommand.ExperienceRowsAppend | internal/linkedin/command.go:50-95 | the rows of two runs of items are those of the first run followed by those of the second |
| LinkedInCommand.ExperienceRowsGrow | internal/linkedin/command.go:50-95 | rows are only ever appended: the rows of the first k items are a prefix of all the rows |
| LinkedInCommand.SkippedItemAddsNothing | internal/linkedin/command.go:52-56 | an item with an unreadable or unknown class leaves the table as if the item were absent |
| LinkedInCommand.ExperienceRowsShape | internal/linkedin/command.go:69-88 | every experience row has four columns and an empty label |
| LinkedInCommand.RowsHaveFourColumns | internal/linkedin/command.go:34-98 | every row of the table has four columns |
| LinkedInCommand.GroupPositionsArePageWide | internal/linkedin/command.go:76-77 | positions are looked up in the whole page, so two groups with the same company text yield the same rows |
| LinkedInCommand.CardThenGroup | internal/linkedin/command.go:58-92 | a card then a group, on a page with two positions, gives the card row and then two rows under the group's company, holding the titles of the first and the second position |
| LinkedInCli.Seed | internal/linkedin/cli.go:32-36 | the dictionary starts with exactly the keys `name`, `title` and `location`, holding their field texts |
| LinkedInCli.Written | internal/linkedin/cli.go:41-55 | the dictionary after the items wrote `company → job` in order; every earlier key stays, and the last item's company maps to its job |
| LinkedInCli.ProfileMap | internal/linkedin/cli.go:31-58 | the dictionary the extractor returns; it always has the keys `name`, `title` and `location` |
| LinkedInCli.ExtractUserProfile | internal/linkedin/cli.go:31-58 | the dictionary is the seed after each item, in order, wrote its company as key and its job title as value |
| LinkedInCli.WrittenKeys | internal/linkedin/cli.go:41-55 | the keys are the seed's keys plus the companies of the items, and nothing else |
| LinkedInCli.LastWriteWins | internal/linkedin/cli.go:54 | a company's value is the job title of the last item that names it |
| LinkedInCli.UnnamedKeyKept | internal/linkedin/cli.go:41-55 | a key that no item names keeps its earlier value |
| LinkedInCli.ProfileKeys | internal/linkedin/cli.go:31-58 | the profile's keys are `name`, `title`, `location` and the items' companies |
| LinkedInCli.ScalarKept | internal/linkedin/cli.go:32-55 | a scalar entry survives unless an item's company equals its key |
| LinkedInCli.NoItemsJustSeed | internal/linkedin/cli.go:39-41 | without experience items the profile is the three scalar entries |
| Demo.ReadError | internal/demo/command.go:87-93 | the session ends without an error exactly at end of input; any other read error is wrapped as "failed to read the command: …" |
| Demo.HttpError | internal/demo/command.go:53-65 | the error of the GET or of reading the body, and none when the body is read |
| Demo.LinkAfter | internal/demo/command.go:70-86 | the link after some lines: the initial link or a line that starts with `http://` or `https://` |
| Demo.Transcript | internal/demo/command.go:71-86 | the calls for the lines read: one navigation per line, plus at most one message per line |
| Demo.ChromeSession | internal/demo/command.go:69-95 | the whole browser session, which ends with a navigation to the final link before the read that ends the input |
| Demo.TranscriptSnoc | internal/demo/command.go:71-86 | one more line adds one navigation to the current link, plus an "invalid link" message exactly when the trimmed line is not a web link |
| Demo.TranscriptNavigations | internal/demo/command.go:71-86 | before reading line k the loop navigates to the link set by the first k lines |
| Demo.SessionNavigations | internal/demo/command.go:69-95 | a session over n lines navigates n+1 times; the k-th navigation goes to the link after k lines, so the last goes to the final link |
| Demo.NoAcceptedLineKeepsLink | internal/demo/command.go:81-86 | when no line is a web link, the link never changes |
| Demo.LastAcceptedLineWins | internal/demo/command.go:79-83 | the link is the last accepted trimmed line |
| Demo.LinkStaysWeb | internal/demo/command.go:79-86 | a session that starts on a web link only ever adopts web links, so every link it navigates to starts with `http://` or `https://` |
| Demo.Demo.Prologue | internal/demo/command.go:27-34 | opens only the client the action uses; any other action opens nothing |
| Demo.Demo.Epilogue | internal/demo/command.go:36-43 | closes only the client the action uses |
| Demo.Demo.Execute | internal/demo/command.go:46-103 | `http` makes one GET and prints the body only when it was read; `chrome` runs the browser session; any other action returns "unknown action: …" and makes no call |
| Demo.Demo.Browse | internal/demo/command.go:68-95 | the browser loop's trace is the session over all complete lines, and its error is determined by how input ends |
| Clotho.LevelFor | clotho.go:98-111 | verbosity -1 disables logging, and only -1 does; every value outside -1..3 means trace |
| Clotho.LevelRoundTrip | clotho.go:98-111 | every level is reached by some verbosity |
| Clotho.VerbosityRoundTrip | clotho.go:98-111 | verbosities -1 to 4 select six distinct levels |
| Clotho.MoreVerboseWritesMore | clotho.go:98-111 | from -1 upwards, a higher verbosity never hides a message that a lower one writes |
| Clotho.QuietWritesNothing | clotho.go:56-57 | with `--quiet` no message is written |
| Clotho.ExitCode | clotho.go:69-81 | the exit code is 1 exactly on an execution error and 0 exactly on success |
| Clotho.RunEvents | clotho.go:64-82 | the calls of `run`: the prologue first; only it when it panics, and the epilogue last otherwise |
| Clotho.RunOutcome | clotho.go:64-82 | `run` panics exactly when the prologue panics, and otherwise exits with the execution's exit code |
| Clotho.EpilogueOnceAndLast | clotho.go:65-68 | once the prologue returns, the epilogue runs exactly once and last, after exactly one execution |
| Clotho.PrintedIffSuccess | clotho.go:69-79 | the result is printed exactly when the exit code is 0 |
| Clotho.PanicSkipsTheRest | clotho.go:65-66 | a panicking prologue skips the execution and the epilogue |
| Clotho.Clotho.AfterApply | clotho.go:55-61 | `--quiet` sets the verbosity to -1; no error |
| Clotho.Clotho.SetupLogger | clotho.go:94-112 | the global level is the one the verbosity selects |
| Clotho.Clotho.RunCommand | clotho.go:64-82 | the calls are prologue, execute, print on success and the deferred epilogue; the outcome is the exit code or the prologue's panic |
| Clotho.Clotho.Run | clotho.go:32-52 | flags are applied, then the logger is set up; without a sub-command the exit code is 1 and nothing runs |

## Left out

- Logging: zerolog messages are not modelled. The exceptions are the invalid-version warning and the demo's "invalid link" message, which appear in the traces. The global level is modelled as `Clotho.Level`.
- Command-line parsing by kong is not modelled: flags, the `xor` group of `--quiet` and `-v`, and parse errors that exit early. The parsed values are the constructor arguments. `AfterApply` is called directly.
- JSON marshalling of the result is not modelled. A sub-command's successful result is the printed payload string.
- The HTTP client (internal/utils/client.go) and the chromedp wrapper (internal/utils/chrome.go) are not part of this model. They appear only as states: `client: bool` and `Demo.ChromeState`.
- The GitHub sub-command (internal/github) is not part of this model. `Clotho.Run` takes it as a `SubCommand` value. cmd/clotho/main.go only calls `Run` and exits with its code.
- The LinkedIn sub-command's `Execute`, which navigates to the profile URL before extracting, is not part of this model. Only the extraction is modelled.
- The WebDriver calls are oracles. `Dom.Element` lists per selector what `FindElements` would return. The wait for the experience list is the boolean `Dom.Page.experienceVisible`, so time is not modelled.
- Dom.FindElements: a lookup error is merged with an empty result. Both extractors ignore that error and iterate over nothing.
- The Selenium client returns `""` with its error when an attribute or text read fails (`Dom.OrEmpty`). Values read on such a failure are taken to be `""`.
- LinkedInCli.ExtractUserProfile requires every experience item to have both a company and a title element. In the source, a missing one leaves a nil element whose `Text()` call panics, and that panic is not modelled.
- DriverUrls.Dir: `path.Dir` is modelled without `path.Clean`'s removal of `.` and `..` segments and duplicate slashes inside the path. It keeps the last-slash split and trailing-slash trimming.
- DriverUrls.SessionUrl formats the port as an unbounded integer. Go's `int` width and overflow are not modelled.
- Selenium.Selenium.GetLatestDriverVersion: the response status code and a failed read of the response body are not modelled. The source ignores both and takes whatever body was read.
- Selenium: the downloaded archive is written to the driver path as it is; the source does not unzip it, and neither does the model. File modes, closing the response body and the file, and partial writes are not modelled.
- Selenium.Selenium.Prologue: a Go panic is modelled as a returned panic value. Unwinding through the caller's deferred calls is not modelled.
- Clotho.Clotho.Run: panics of the sub-command's `Execute` or `Epilogue` are not modelled. A prologue panic escapes as `Panicked`. Go's exit code for an uncaught panic is not modelled.
- Demo.Demo.Execute: the returned data is always nil in the source, so only the error is modelled.
- Demo.Demo.Browse: the `>>> ` prompt is not modelled. A partial last line read together with end of input or an error is discarded, as the source does. `Input.lines` holds the complete lines only.
- Demo.Demo.Prologue, Demo.Demo.Epilogue and Demo.Demo.Execute: the calls made on a nil HTTP client or an unallocated browser context, which panic in the source, are excluded by their preconditions.
