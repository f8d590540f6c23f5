/**
  `execAsync`, `extractVideoUrl` and the `/extract` route that races the
  extraction against a timer. The shell, the clock, the downloads directory
  after yt-dlp has run, the URL parser and the outcome of the race are inputs.
 */
module Extraction {
  import opened Wrappers
  import opened Strings
  import opened Platforms
  import opened Commands
  import opened Responses

  /** What `exec` hands its callback: the error (by its message) if the process failed, and both streams. */
  datatype ExecOutcome = ExecOutcome(error: Option<string>, stdout: string, stderr: string)

  /** The environment variables the core reads. */
  datatype Env = Env(ytdlpTimeout: Option<string>, tiktokUserAgent: Option<string>, cookiesPath: Option<string>)

  /** `req.protocol` and `req.get('host')` (absent when the request has no Host header). */
  datatype RequestInfo = RequestInfo(protocol: string, host: Option<string>)

  /** `execAsync`: resolves with stdout, or rejects with stderr when there is some and the error's message otherwise. */
  function ExecAsync(o: ExecOutcome): (r: Result<string, string>)
    ensures r.Success? <==> o.error.None?
    ensures r.Success? ==> r.value == o.stdout
    ensures r.Failure? ==> r.error == OrElse(Some(o.stderr), o.error.value)
  {
    match o.error
    case None => Success(o.stdout)
    case Some(message) => if o.stderr != "" then Failure(o.stderr) else Failure(message)
  }

  /** The command `extractVideoUrl` runs for a request arriving at time `now`. */
  function CommandFor(url: string, platform: string, env: Env, now: nat): (cmd: string)
  {
    CommandLine(OutputPath(Filename(now)), platform, env.tiktokUserAgent, env.cookiesPath, url)
  }

  /**
    What `extractVideoUrl` settles with, given the process outcome for each
    command and the directory (path to size) once the process has exited.
   */
  function ExtractionResult(url: string, platform: string, req: RequestInfo, env: Env, now: nat,
                            run: string -> ExecOutcome, disk: map<string, nat>): (r: Result<Body, string>)
  {
    var name := Filename(now);
    var path := OutputPath(name);
    match ExecAsync(run(CommandFor(url, platform, env, now)))
    case Failure(message) => Failure(message)
    case Success(_) =>
      if path !in disk then Failure(MissingFileMessage)
      else Success(Downloaded(true, FileUrl(req.protocol, req.host, name), platform, name, disk[path]))
  }

  /** `extractVideoUrl`: builds the command, runs it, checks the artifact and describes it. */
  method ExtractVideoUrl(url: string, platform: string, req: RequestInfo, env: Env, now: nat,
                         run: string -> ExecOutcome, disk: map<string, nat>)
    returns (r: Result<Body, string>)
    ensures r == ExtractionResult(url, platform, req, env, now, run, disk)
  {
    var filename := Filename(now);
    var outputPath := OutputPath(filename);
    var cmd := BuildCommand(outputPath, platform, env.tiktokUserAgent, env.cookiesPath, url);
    var exec := ExecAsync(run(cmd));
    if exec.Failure? {
      return Failure(exec.error);
    }
    if outputPath !in disk {
      return Failure(MissingFileMessage);
    }
    var fileUrl := FileUrl(req.protocol, req.host, filename);
    r := Success(Downloaded(true, fileUrl, platform, filename, disk[outputPath]));
  }

  /** Success exactly when the process exits cleanly and the artifact exists; each failure says which step failed. */
  lemma ExtractionOutcomes(url: string, platform: string, req: RequestInfo, env: Env, now: nat,
                           run: string -> ExecOutcome, disk: map<string, nat>)
    ensures var r := ExtractionResult(url, platform, req, env, now, run, disk);
            var o := run(CommandFor(url, platform, env, now));
            && (r.Success? <==> o.error.None? && OutputPath(Filename(now)) in disk)
            && (o.error.Some? && o.stderr != "" ==> r == Failure(o.stderr))
            && (o.error.Some? && o.stderr == "" ==> r == Failure(o.error.value))
            && (o.error.None? && OutputPath(Filename(now)) !in disk ==> r == Failure(MissingFileMessage))
  {
  }

  /** A successful body names the artifact written for this request, links to it and reports its size. */
  lemma SuccessDescribesArtifact(url: string, platform: string, req: RequestInfo, env: Env, now: nat,
                                 run: string -> ExecOutcome, disk: map<string, nat>)
    requires ExtractionResult(url, platform, req, env, now, run, disk).Success?
    ensures var b := ExtractionResult(url, platform, req, env, now, run, disk).value;
            && b.Downloaded? && b.success && b.platform == platform
            && ParseFilename(b.filename) == Some(now)
            && OutputPath(b.filename) in disk && b.size == disk[OutputPath(b.filename)]
            && req.protocol + "://" <= b.url
            && b.url[|b.url| - |b.filename|..] == b.filename
  {
    var b := ExtractionResult(url, platform, req, env, now, run, disk).value;
    FilenameRoundTrip(now);
    FileUrlNamesArtifact(req.protocol, req.host, now);
  }

  const InvalidUrlMessage := "Valid URL is required"

  /**
    The `/extract` route. `body` is `req.body.url` when it is a string,
    `isValidUrl` stands for the URL parser, and `timerFiredFirst` says which
    promise of the race settled first. Besides the response it returns the
    deadline given to the timer, or `None` when no timer was started.
   */
  method Extract(body: Option<string>, isValidUrl: string -> bool, req: RequestInfo, env: Env, now: nat,
                 run: string -> ExecOutcome, disk: map<string, nat>, timerFiredFirst: bool)
    returns (resp: Response, timer: Option<Deadline>)
    ensures body.None? || body.value == "" || !isValidUrl(body.value)
        ==> resp == Response(400, Rejected(false, InvalidUrlMessage)) && timer.None?
    ensures body.Some? && body.value != "" && isValidUrl(body.value)
        ==> var platform := GetPlatform(body.value).Name();
            && timer == Some(EffectiveTimeout(env.ytdlpTimeout, platform))
            && (timerFiredFirst
                ==> resp == Response(504, Failed(false, Capitalize(platform) + " processing timeout. Please try again.",
                                                 ProcessingTimeoutMessage, platform)))
            && (!timerFiredFirst
                ==> resp == match ExtractionResult(body.value, platform, req, env, now, run, disk)
                           case Success(b) => Response(200, b)
                           case Failure(message) => HandleExtractionError(message, platform))
  {
    if body.None? || body.value == "" || !isValidUrl(body.value) {
      return Response(400, Rejected(false, InvalidUrlMessage)), None;
    }
    var url := body.value;
    var platform := GetPlatform(url).Name();
    timer := Some(EffectiveTimeout(env.ytdlpTimeout, platform));
    var result := ExtractVideoUrl(url, platform, req, env, now, run, disk);
    if timerFiredFirst {
      ProcessingTimeoutIs504(platform);
      resp := HandleExtractionError(ProcessingTimeoutMessage, platform);
    } else if result.Success? {
      resp := Response(200, result.value);
    } else {
      resp := HandleExtractionError(result.error, platform);
    }
  }

  /**
    Once the race has started, a settled extraction is answered with a
    successful body, or with one of the table's statuses and a failure body
    that echoes one of the four platform tags.
   */
  lemma AnswerShapes(body: Option<string>, isValidUrl: string -> bool, req: RequestInfo, env: Env, now: nat,
                     run: string -> ExecOutcome, disk: map<string, nat>)
    requires body.Some? && body.value != "" && isValidUrl(body.value)
    ensures var platform := GetPlatform(body.value).Name();
            var r := ExtractionResult(body.value, platform, req, env, now, run, disk);
            && (r.Success? ==> r.value.Downloaded? && r.value.success)
            && (r.Failure? ==> var e := HandleExtractionError(r.error, platform);
                               e.status in {504, 404, 400, 500} && !e.body.success && e.body.platform == platform
                               && e.body.platform in {"tiktok", "youtube", "instagram", "unknown"})
  {
    TagIsKnown(body.value);
  }
}
