# yt-dlp extraction service: decision core in Dafny

The service is an Express application (`server.js`) that accepts a video URL on
`POST /extract`, runs the `yt-dlp` command-line downloader through a shell,
stores the result in a downloads directory, and answers with a public link to
the file. A periodic job deletes files older than a day.

This project models the service's decision core and proves properties of it:

- **Platforms** (`platforms.dfy`): `getPlatform` as an ordered, case-sensitive
  first-match substring test over `tiktok.com`, `youtube.com`/`youtu.be` and
  `instagram.com`. It also holds the `getTimeoutForPlatform` table and the
  `YTDLP_TIMEOUT` override, which bypasses the table as a raw string.
- **Commands** (`commands.dfy`): the artifact name `video_<ms>.mp4`, its path
  under `/var/data/downloads`, and the public link
  `<protocol>://<host>/downloads/<name>`. It also builds the `yt-dlp` command
  string. `BuildCommand` grows it by `+=` across the per-platform switch,
  like the source, and is proved equal to a specification (`CommandLine`) of
  prefix, per-platform flags and quoted URL.
- **Responses** (`responses.dfy`): the response bodies and
  `handleExtractionError`. The ordered error table is searched with `find`,
  and the first key contained in the message wins.
- **Extraction** (`extraction.dfy`): `execAsync` chooses stderr over the error
  message. `extractVideoUrl` builds, runs, checks the artifact and describes
  it. The `/extract` route validates the URL, arms the timer and races the
  extraction.
- **Cleanup** (`cleanup.dfy`): `cleanupOldFiles` is a method of a
  `DownloadStore` class whose `files` map (name to modification time in ms)
  it updates in place. It loops over the listing, with a loop invariant.
- **Strings** and **Wrappers**: the JavaScript string behaviour the core relies
  on: `includes`, the decimal printing of an integer in a template literal,
  `charAt(0).toUpperCase() + slice(1)`, and `v || fallback` on an optional
  string. Also `Option` and `Result`.

Inputs stand in for everything the core cannot see. Those are the outcome of
the shell process (as a function of the command string), the downloads
directory once the process has exited (path to size), the clock (`now`), the
URL parser behind `isValidUrl`, which promise of the race settles first, the
environment variables (as optional strings), and the set of directory entries
whose `statSync`/`unlinkSync` throws during cleanup.

The service's written design and its code differ in some places. The model
follows the code in each case:

- The design asks that a successful result be checked for a non-zero file
  size. The code only checks that the file exists (`fs.existsSync`), so the
  model reports any size, including 0.
- The design asks for an argument list that no shell re-parses. The code
  builds one shell string by concatenation, and the model states exactly that
  string.
- The design's reclaim operation returns a count of removed files.
  `cleanupOldFiles` returns nothing, so the model returns nothing.
- The design asks for artifact names that are unique even within one
  millisecond. The code uses the bare millisecond timestamp.
  `Commands.FilenameInjective` shows that names collide exactly when the
  timestamps are equal.
- The design has the loser of the race cancelled. The code leaves the
  extraction running after the timer fires. `Extraction.Extract` still
  performs the extraction, whose outcome is then ignored. Nor does the code
  clear the timer when the extraction settles first: the timer still fires
  later, and its rejection is ignored because the race has already settled.
- The design asks that a failure body carry the process message truncated to
  a bounded length. The code echoes the full `error.message` in the `error`
  field, and so does the model (`Responses.HandleExtractionError`).
- The design treats only a missed deadline as a timeout, and searches a
  process failure only for `No downloadable` and `Unsupported URL`. The code
  searches every failure message for all four keys of its table. A process
  failure whose message contains `timeout` is answered 504, and one whose
  message contains `file not found` is answered 500 "Video downloaded but file
  could not be accessed" even though the process itself failed. The model
  follows the code (`Responses.ClassificationOrder`).

## Model

| member | source | states |
|---|---|---|
| Strings.Includes | server.js:98-100 | no contract; computes `s.includes(sub)` as a left-to-right scan; `Strings.IncludesIffOccurs` states its behaviour |
| Strings.IncludesIffOccurs | server.js:98-100 | the left-to-right scan used for `includes` finds a substring exactly when it occurs at some index |
| Strings.IncludesInConcat | server.js:98-100 | text added on either side of a string never hides a substring it contains |
| Strings.MissingCharExcludes | server.js:188-189 | a message lacking one character of a key does not include that key |
| Strings.Decimal | server.js:116 | the numeral a template literal prints for a non-negative integer is never empty; `Strings.DecimalRoundTrip` states that it is canonical and reads back as the number |
| Strings.DecimalRoundTrip | server.js:116 | the template literal's decimal numeral of a timestamp is canonical (no leading zero) and reads back as the timestamp |
| Strings.CanonicalRoundTrip | server.js:116 | every canonical numeral is the printing of the number it denotes |
| Strings.Capitalize | server.js:168 | no contract; computes `charAt(0).toUpperCase() + slice(1)` for ASCII text; `Strings.CapitalizeChangesOnlyFirst` states its behaviour |
| Strings.OrElse | server.js:124-129 | no contract; computes JavaScript's `or` of an optional string and a fallback, where absent and empty both fall back; `Commands.CookiesExactlyForYouTube` and `Commands.UserAgentPerPlatform` state its use |
| Strings.CapitalizeChangesOnlyFirst | server.js:168 | `charAt(0).toUpperCase() + slice(1)` keeps the length and every character after the first, and turns a lower-case first letter into its upper-case letter |
| Platforms.GetPlatform | server.js:97-102 | no contract; computes the tag by the ordered substring tests; `Platforms.FirstMatchOrder` states its behaviour |
| Platforms.FirstMatchOrder | server.js:97-102 | `tiktok.com` anywhere gives tiktok; youtube exactly when `tiktok.com` is absent and `youtube.com` or `youtu.be` is present; instagram and unknown likewise down the order |
| Platforms.TagIsKnown | server.js:97-102 | the tag is always one of tiktok, youtube, instagram, unknown |
| Platforms.TikTokMarkerAnywhere | server.js:98 | a URL with `tiktok.com` anywhere is tiktok whatever else it contains |
| Platforms.ExtendingUrlNeverLowersPrecedence | server.js:97-102 | adding text to a URL can only move it to an earlier tag in the test order |
| Platforms.TimeoutForPlatform | server.js:104-112 | the timeout is always positive |
| Platforms.TimeoutTable | server.js:104-112 | 30000 ms for tiktok, 45000 for youtube, 35000 for instagram, 20000 for every other tag |
| Platforms.EffectiveTimeout | server.js:82 | no contract; computes `YTDLP_TIMEOUT` when set and non-empty, and the table's timeout otherwise; `Platforms.OverrideReplacesTable` states its behaviour |
| Platforms.OverrideReplacesTable | server.js:82 | a non-empty `YTDLP_TIMEOUT` is used as the raw string, unparsed; otherwise the table's positive value is used |
| Commands.Filename | server.js:116 | no contract; computes `video_${timestamp}.mp4`; `Commands.FilenameRoundTrip` and `Commands.ParsedNameIsGenerated` state its behaviour |
| Commands.OutputPath | server.js:117 | no contract; computes `path.join(downloadsDir, filename)` for a name without separators; `Commands.FilenameHasNoSeparator` states why one `/` is enough |
| Commands.HostText | server.js:150 | no contract; computes the text of `req.get('host')` in a template literal, `undefined` when absent; `Commands.FileUrlNamesArtifact` states its use |
| Commands.FileUrl | server.js:150 | no contract; computes the public link; `Commands.FileUrlNamesArtifact` states its behaviour |
| Commands.FilenameRoundTrip | server.js:115-116 | the artifact name `video_<decimal>.mp4` gives back its timestamp |
| Commands.ParsedNameIsGenerated | server.js:116 | every name of the form `video_<canonical numeral>.mp4` is the name of some timestamp |
| Commands.FilenameInjective | server.js:115-116 | two requests share an artifact name exactly when they arrive in the same millisecond |
| Commands.FilenameHasNoSeparator | server.js:116-117 | the artifact name contains no `/`, so the output path is the downloads directory plus one segment |
| Commands.FileUrlNamesArtifact | server.js:150 | the link starts with `<protocol>://` and ends with `/downloads/` and a name that parses back to the request's timestamp |
| Commands.PlatformFlags | server.js:122-139 | no contract; computes the flags each case of the `switch (platform)` appends, in order; `Commands.NoCheckCertificateExactly`, `Commands.RefererExactlyForTikTok`, `Commands.CookiesExactlyForYouTube`, `Commands.GeoBypassAndMetadataExactlyForYouTube` and `Commands.UserAgentPerPlatform` state its behaviour |
| Commands.CommandLine | server.js:119-141 | no contract; computes the whole command string; `Commands.CommandFraming` states its behaviour and `Commands.BuildCommand` is proved equal to it |
| Commands.BuildCommand | server.js:119-141 | the string grown by `+=` is the fixed prefix, then each flag of the platform's switch case after a space, then the quoted URL |
| Commands.CommandFraming | server.js:119-141 | every command starts with the fixed format-selector prefix and output path, and the string ends with ` "<url>"` |
| Commands.NoCheckCertificateExactly | server.js:122-139 | `--no-check-certificate` is passed exactly for youtube and for tags outside the switch, never for tiktok or instagram |
| Commands.RefererExactlyForTikTok | server.js:122-139 | a Referer header is sent exactly for tiktok, and it is `https://www.tiktok.com/` |
| Commands.CookiesExactlyForYouTube | server.js:122-139 | `--cookies` is passed exactly for youtube, with `COOKIES_PATH` or `./cookies.txt` |
| Commands.GeoBypassAndMetadataExactlyForYouTube | server.js:130-131 | `--geo-bypass` and `--embed-metadata` are each passed exactly when the tag is youtube |
| Commands.UserAgentPerPlatform | server.js:122-139 | the whole flag list of each tag, in order: tiktok the User-Agent `TIKTOK_USER_AGENT` or the desktop agent and the TikTok Referer; youtube the desktop agent, `--cookies` with `COOKIES_PATH` or `./cookies.txt`, `--geo-bypass`, `--embed-metadata`, `--no-check-certificate`; instagram only the mobile agent; other tags only `--no-check-certificate` |
| Responses.ErrorMap | server.js:165-186 | no contract; computes `Object.entries(errorMap)` in insertion order; `Responses.ErrorKeys` and `Responses.ClassificationOrder` state its behaviour |
| Responses.FindFirst | server.js:188-190 | the index found is that of a key the message includes, and no earlier key is included; with no index, no key is included |
| Responses.HandleExtractionError | server.js:162-198 | the answer always has `success:false`, echoes the raw message and the platform, and has status 504, 404, 400 or 500 |
| Responses.ErrorKeys | server.js:165-186 | the table's keys in insertion order are timeout, No downloadable, Unsupported URL, file not found, default |
| Responses.ClassificationOrder | server.js:162-198 | status 504/404/400 exactly when `timeout`/`No downloadable`/`Unsupported URL` is the first key present, 500 otherwise; each status comes with its table message, and 500 says the file could not be accessed exactly when `file not found` is present |
| Responses.DefaultKeyIsHarmless | server.js:182-190 | a message matched only by the `default` key gets the same answer as one matching nothing: 500 "Video extraction failed" |
| Responses.TimeoutMessageNamesPlatform | server.js:168 | the 504 message starts with Tiktok, Youtube, Instagram or Unknown |
| Responses.ProcessingTimeoutIs504 | server.js:85 | the race timer's message "Processing timeout exceeded" is answered 504 with the capitalised platform and " processing timeout. Please try again." |
| Responses.FileNotFoundRow | server.js:178-181 | a message whose first key is `file not found` is answered 500 "Video downloaded but file could not be accessed" |
| Responses.MissingFileIs500 | server.js:147 | "Downloaded file not found" is answered 500 "Video downloaded but file could not be accessed" |
| Extraction.ExecAsync | server.js:206-219 | the process succeeds exactly when there is no error, resolving with stdout; a failure carries stderr when it is non-empty and the error's message otherwise |
| Extraction.ExtractionResult | server.js:144-159 | no contract; computes what `extractVideoUrl` settles with; `Extraction.ExtractionOutcomes` and `Extraction.SuccessDescribesArtifact` state its behaviour |
| Extraction.ExtractVideoUrl | server.js:114-160 | the method runs the command that `CommandLine` specifies for `video_<now>.mp4` and settles as the specification of extraction says |
| Extraction.ExtractionOutcomes | server.js:144-148 | extraction succeeds exactly when the process exits cleanly and the artifact exists; otherwise it fails with stderr, with the error's message, or with "Downloaded file not found" |
| Extraction.SuccessDescribesArtifact | server.js:150-159 | a success has `success:true`, echoes the platform, names the artifact of this request's timestamp, links to it under the request's protocol and reports its size |
| Extraction.Extract | server.js:67-92 | a missing, empty or unparseable URL is answered 400 "Valid URL is required" and no timer starts; otherwise the timer gets `YTDLP_TIMEOUT` or the table's value, a timer that fires first gives 504, and a settled extraction gives 200 with its body or the classified failure |
| Extraction.AnswerShapes | server.js:84-90 | once the race has started, a settled extraction is a successful body or a failure with a table status that echoes one of the four tags |
| Cleanup.Retained | server.js:264-275 | no contract; computes the directory after one walk; `Cleanup.ExactlyExpiredRemoved`, `Cleanup.FailureIsolation` and `Cleanup.SecondWalk` state its behaviour |
| Cleanup.DownloadStore.constructor | server.js:264 | the store starts with the given listing |
| Cleanup.DownloadStore.CleanupOldFiles | server.js:260-276 | after the walk the directory is the old one minus every entry strictly older than a day whose stat and unlink did not throw; kept entries keep their times |
| Cleanup.ExactlyExpiredRemoved | server.js:268-269 | without failures an entry is kept exactly when its age is at most 24 h, with its time unchanged |
| Cleanup.BoundaryIsStrict | server.js:262-268 | an entry exactly one day old survives and one a millisecond older is removed |
| Cleanup.DayOldScenario | server.js:260-276 | a file modified 25 hours ago is removed and one modified an hour ago is kept |
| Cleanup.FailureIsolation | server.js:266-274 | an entry that throws stays, and every other entry meets the same fate as in a walk without failures |
| Cleanup.SecondWalk | server.js:260-276 | an expired entry survives two walks at the same time only if it threw in both; after a walk without failures a second one removes nothing |
| Cleanup.LaterWalkRemovesMore | server.js:261-268 | a walk at a later time removes at least what a walk at an earlier time would |

## Left out

- Express setup, CORS, body parsing, request logging, static serving of `/downloads` and the catch-all error handler: HTTP framework plumbing.
- The `/health` endpoint: runtime metrics and an optional foreign module.
- `child_process.exec` and the filesystem calls: the process outcome, the directory after the run and the throwing entries are inputs.
- How a shell re-parses the command string (quoting, injection): the model states the string that is built, not how a shell reads it.
- `Promise.race`, `setTimeout` and `setInterval`: which promise settles first is an input. How a raw `YTDLP_TIMEOUT` string is turned into a delay is not modelled. The six-hourly schedule of the cleanup is not modelled either.
- `isValidUrl`: it delegates to the WHATWG URL parser, which is an input predicate here.
- Extraction.Extract: a `req.body.url` that is a non-string truthy value (a number, an object) is not modelled; the body's URL is a string or absent.
- Extraction.ExtractVideoUrl: a `statSync` that throws after `existsSync` succeeded is not modelled. The artifact's size is read from the same directory snapshot.
- Platforms.TimeoutForPlatform: lookups of keys inherited from `Object.prototype` (such as `constructor`) are not modelled. The service only ever passes one of the four tags.
- Strings.Capitalize: `toUpperCase` is modelled for ASCII letters only. Every tag the service produces is ASCII.
- Strings.Decimal: `Date.now()` is a non-negative integer below 2^53, so the numeral never switches to exponent notation. The model prints every natural number in plain digits.
- Cleanup.DownloadStore.CleanupOldFiles: `mtimeMs` is a floating-point value; the model uses integer milliseconds. A `readdirSync` that throws (which aborts the whole walk) is not modelled. An entry whose stat succeeds but whose unlink throws is treated like one whose stat throws: it stays.
- Signal and uncaught-exception handlers, server timeouts and console logging: process lifecycle and output only.
