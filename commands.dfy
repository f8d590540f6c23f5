/**
  What `extractVideoUrl` builds before it runs anything: the artifact's file
  name and path, the `yt-dlp` command line (grown by `+=` as the source does),
  and the public link to the artifact.
 */
module Commands {
  import opened Wrappers
  import opened Strings

  /** The artifact directory, served under `/downloads`. */
  const DownloadsDir := "/var/data/downloads"

  // ---------------------------------------------------------------------------
  // Artifact names, paths and links
  // ---------------------------------------------------------------------------

  /** `video_${timestamp}.mp4`, with `timestamp` the milliseconds of `Date.now()`. */
  function Filename(timestamp: nat): (name: string)
  {
    "video_" + Decimal(timestamp) + ".mp4"
  }

  /** Recognises the names `Filename` produces and recovers their timestamp. */
  function ParseFilename(name: string): (t: Option<nat>)
  {
    if |name| >= 10 && name[..6] == "video_" && name[|name| - 4..] == ".mp4"
       && Canonical(name[6..|name| - 4])
    then Some(ParseDecimal(name[6..|name| - 4]))
    else None
  }

  /** The timestamp can be read back from the file name. */
  lemma FilenameRoundTrip(timestamp: nat)
    ensures ParseFilename(Filename(timestamp)) == Some(timestamp)
  {
    var digits := Decimal(timestamp);
    var name := Filename(timestamp);
    DecimalRoundTrip(timestamp);
    assert name[..6] == "video_";
    assert name[|name| - 4..] == ".mp4";
    assert name[6..|name| - 4] == digits;
  }

  /** Every name the parser accepts is one that `Filename` produces. */
  lemma ParsedNameIsGenerated(name: string)
    requires ParseFilename(name).Some?
    ensures Filename(ParseFilename(name).value) == name
  {
    var digits := name[6..|name| - 4];
    CanonicalRoundTrip(digits);
    assert name == name[..6] + digits + name[|name| - 4..];
  }

  /** Two requests get the same artifact name only in the same millisecond. */
  lemma FilenameInjective(t1: nat, t2: nat)
    ensures Filename(t1) == Filename(t2) ==> t1 == t2
  {
    FilenameRoundTrip(t1);
    FilenameRoundTrip(t2);
  }

  /** Artifact names hold no path separator, so `path.join` only inserts one `/`. */
  lemma FilenameHasNoSeparator(timestamp: nat)
    ensures '/' !in Filename(timestamp)
  {
    DecimalRoundTrip(timestamp);
  }

  /** `path.join(downloadsDir, filename)` for a plain file name. */
  function OutputPath(filename: string): (path: string)
  {
    DownloadsDir + "/" + filename
  }

  /** `${req.get('host')}`: a missing header prints as `undefined`. */
  function HostText(host: Option<string>): (text: string)
  {
    match host
    case Some(h) => h
    case None => "undefined"
  }

  /** `${req.protocol}://${req.get('host')}/downloads/${filename}`. */
  function FileUrl(protocol: string, host: Option<string>, filename: string): (url: string)
  {
    protocol + "://" + HostText(host) + "/downloads/" + filename
  }

  /** The public link starts with the request's scheme and ends with the artifact's name under `/downloads/`. */
  lemma FileUrlNamesArtifact(protocol: string, host: Option<string>, timestamp: nat)
    ensures protocol + "://" <= FileUrl(protocol, host, Filename(timestamp))
    ensures var url := FileUrl(protocol, host, Filename(timestamp));
            var name := Filename(timestamp);
            |url| >= |name| + 11
            && url[|url| - |name| - 11..|url| - |name|] == "/downloads/"
            && ParseFilename(url[|url| - |name|..]) == Some(timestamp)
  {
    var url := FileUrl(protocol, host, Filename(timestamp));
    var name := Filename(timestamp);
    var head := protocol + "://" + HostText(host);
    assert url == head + "/downloads/" + name;
    assert url[|url| - |name|..] == name;
    assert url[|url| - |name| - 11..|url| - |name|] == "/downloads/";
    FilenameRoundTrip(timestamp);
  }

  // ---------------------------------------------------------------------------
  // The yt-dlp command line
  // ---------------------------------------------------------------------------

  const FormatSelector := "bestvideo[ext=mp4]+bestaudio[ext=m4a]/best[ext=mp4]/best"
  const DesktopUserAgent :=
    "Mozilla/5.0 (Windows NT 10.0; Win64; x64) AppleWebKit/537.36 (KHTML, like Gecko) Chrome/91.0.4472.124 Safari/537.36"
  const MobileUserAgent :=
    "Mozilla/5.0 (iPhone; CPU iPhone OS 14_0 like Mac OS X) AppleWebKit/605.1.15 (KHTML, like Gecko) Version/14.0 Mobile/15E148 Safari/604.1"
  const DefaultCookiesPath := "./cookies.txt"
  const TikTokReferer := "https://www.tiktok.com/"

  /** The fixed head of every command: format fallback chain, mp4 merge and the output path. */
  function CommandPrefix(outputPath: string): (head: string)
  {
    "yt-dlp -f \"" + FormatSelector + "\" --merge-output-format mp4 -o \"" + outputPath + "\""
  }

  /** One option the `switch (platform)` appends, before it is spelled out in the command string. */
  datatype Flag =
    | AddHeader(field: string, value: string)
    | Cookies(path: string)
    | GeoBypass
    | EmbedMetadata
    | NoCheckCertificate

  /** The text `cmd += ` adds for a flag, without its leading space. */
  function Render(flag: Flag): (text: string)
  {
    match flag
    case AddHeader(field, value) => "--add-header \"" + field + ": " + value + "\""
    case Cookies(path) => "--cookies " + path
    case GeoBypass => "--geo-bypass"
    case EmbedMetadata => "--embed-metadata"
    case NoCheckCertificate => "--no-check-certificate"
  }

  /**
    The flags the `switch (platform)` appends, in order. `tiktokUserAgent`
    and `cookiesPath` are `TIKTOK_USER_AGENT` and `COOKIES_PATH`.
   */
  function PlatformFlags(platform: string, tiktokUserAgent: Option<string>, cookiesPath: Option<string>)
    : (flags: seq<Flag>)
  {
    if platform == "tiktok" then TikTokFlags(tiktokUserAgent)
    else if platform == "youtube" then YouTubeFlags(cookiesPath)
    else if platform == "instagram" then InstagramFlags()
    else OtherFlags()
  }

  function TikTokFlags(tiktokUserAgent: Option<string>): (flags: seq<Flag>)
  {
    [AddHeader("User-Agent", OrElse(tiktokUserAgent, DesktopUserAgent)), AddHeader("Referer", TikTokReferer)]
  }

  function YouTubeFlags(cookiesPath: Option<string>): (flags: seq<Flag>)
  {
    [AddHeader("User-Agent", DesktopUserAgent), Cookies(OrElse(cookiesPath, DefaultCookiesPath)),
     GeoBypass, EmbedMetadata, NoCheckCertificate]
  }

  function InstagramFlags(): (flags: seq<Flag>)
  {
    [AddHeader("User-Agent", MobileUserAgent)]
  }

  function OtherFlags(): (flags: seq<Flag>)
  {
    [NoCheckCertificate]
  }

  /** Each flag spelled out after a space. */
  function Appended(flags: seq<Flag>): (text: string)
  {
    if flags == [] then "" else " " + Render(flags[0]) + Appended(flags[1..])
  }

  /** The URL as the last, double-quoted argument. */
  function UrlArgument(url: string): (text: string)
  {
    " \"" + url + "\""
  }

  /** The whole command string `extractVideoUrl` hands to `exec`. */
  function CommandLine(outputPath: string, platform: string, tiktokUserAgent: Option<string>,
                       cookiesPath: Option<string>, url: string): (cmd: string)
  {
    CommandPrefix(outputPath) + Appended(PlatformFlags(platform, tiktokUserAgent, cookiesPath))
    + UrlArgument(url)
  }

  /**
    The `let cmd = ...; cmd += ...` sequence of `extractVideoUrl`: the prefix,
    one `+=` per flag of the `switch (platform)` case, then the quoted URL.
   */
  method BuildCommand(outputPath: string, platform: string, tiktokUserAgent: Option<string>,
                      cookiesPath: Option<string>, url: string)
    returns (cmd: string)
    ensures cmd == CommandLine(outputPath, platform, tiktokUserAgent, cookiesPath, url)
  {
    cmd := CommandPrefix(outputPath);
    ghost var head := cmd;
    if platform == "tiktok" {
      cmd := cmd + " " + Render(AddHeader("User-Agent", OrElse(tiktokUserAgent, DesktopUserAgent)));
      cmd := cmd + " " + Render(AddHeader("Referer", TikTokReferer));
      AppendedTwo(head, AddHeader("User-Agent", OrElse(tiktokUserAgent, DesktopUserAgent)),
                  AddHeader("Referer", TikTokReferer));
    } else if platform == "youtube" {
      cmd := cmd + " " + Render(AddHeader("User-Agent", DesktopUserAgent));
      cmd := cmd + " " + Render(Cookies(OrElse(cookiesPath, DefaultCookiesPath)));
      cmd := cmd + " " + Render(GeoBypass);
      cmd := cmd + " " + Render(EmbedMetadata);
      cmd := cmd + " " + Render(NoCheckCertificate);
      AppendedFive(head, AddHeader("User-Agent", DesktopUserAgent), Cookies(OrElse(cookiesPath, DefaultCookiesPath)),
                   GeoBypass, EmbedMetadata, NoCheckCertificate);
    } else if platform == "instagram" {
      cmd := cmd + " " + Render(AddHeader("User-Agent", MobileUserAgent));
      AppendedOne(head, AddHeader("User-Agent", MobileUserAgent));
    } else {
      cmd := cmd + " " + Render(NoCheckCertificate);
      AppendedOne(head, NoCheckCertificate);
    }
    cmd := cmd + UrlArgument(url);
  }

  /** One more `+=` extends the spelled-out flags by one. */
  lemma AppendedSnoc(head: string, flags: seq<Flag>, flag: Flag)
    ensures head + Appended(flags) + " " + Render(flag) == head + Appended(flags + [flag])
  {
    AppendedSplits(flags + [flag]);
    assert (flags + [flag])[..|flags|] == flags;
  }

  lemma AppendedOne(head: string, a: Flag)
    ensures head + " " + Render(a) == head + Appended([a])
  {
    AppendedSnoc(head, [], a);
    assert [] + [a] == [a];
  }

  lemma AppendedTwo(head: string, a: Flag, b: Flag)
    ensures head + " " + Render(a) + " " + Render(b) == head + Appended([a, b])
  {
    AppendedOne(head, a);
    AppendedSnoc(head, [a], b);
    assert [a] + [b] == [a, b];
  }

  lemma AppendedFive(head: string, a: Flag, b: Flag, c: Flag, d: Flag, e: Flag)
    ensures head + " " + Render(a) + " " + Render(b) + " " + Render(c) + " " + Render(d) + " " + Render(e)
         == head + Appended([a, b, c, d, e])
  {
    AppendedTwo(head, a, b);
    AppendedSnoc(head, [a, b], c);
    assert [a, b] + [c] == [a, b, c];
    AppendedSnoc(head, [a, b, c], d);
    assert [a, b, c] + [d] == [a, b, c, d];
    AppendedSnoc(head, [a, b, c, d], e);
    assert [a, b, c, d] + [e] == [a, b, c, d, e];
  }

  /** `Appended` unrolled from the end: the last flag comes last. */
  lemma {:induction false} AppendedSplits(flags: seq<Flag>)
    ensures |flags| > 0 ==> Appended(flags) == Appended(flags[..|flags| - 1]) + " " + Render(flags[|flags| - 1])
    decreases |flags|
  {
    if |flags| > 1 {
      var tail := flags[1..];
      AppendedSplits(tail);
      assert tail[..|tail| - 1] == flags[..|flags| - 1][1..];
      assert flags[1..][|tail| - 1] == flags[|flags| - 1];
    } else if |flags| == 1 {
      assert flags[..0] == [];
    }
  }

  /** The command always starts with the fixed prefix and always ends with the quoted URL. */
  lemma CommandFraming(outputPath: string, platform: string, tiktokUserAgent: Option<string>,
                       cookiesPath: Option<string>, url: string)
    ensures var cmd := CommandLine(outputPath, platform, tiktokUserAgent, cookiesPath, url);
            && CommandPrefix(outputPath) <= cmd
            && |cmd| >= |url| + 3
            && cmd[|cmd| - |url| - 3..] == UrlArgument(url)
            && cmd[|cmd| - |url| - 1..|cmd| - 1] == url
  {
    FramedByUrl(CommandPrefix(outputPath), Appended(PlatformFlags(platform, tiktokUserAgent, cookiesPath)), url);
  }

  /** Whatever comes between, `head` stays a prefix and the quoted URL stays the suffix. */
  lemma FramedByUrl(head: string, middle: string, url: string)
    ensures var cmd := head + middle + UrlArgument(url);
            && head <= cmd
            && |cmd| >= |url| + 3
            && cmd[|cmd| - |url| - 3..] == UrlArgument(url)
            && cmd[|cmd| - |url| - 1..|cmd| - 1] == url
  {
    var cmd := head + middle + UrlArgument(url);
    assert cmd == head + (middle + UrlArgument(url));
    assert cmd[..|head|] == head;
    assert cmd[|cmd| - |url| - 3..] == UrlArgument(url);
  }

  /** `--no-check-certificate` is passed for YouTube and for every tag outside the `switch`, never for TikTok or Instagram. */
  lemma NoCheckCertificateExactly(platform: string, tiktokUserAgent: Option<string>, cookiesPath: Option<string>)
    ensures NoCheckCertificate in PlatformFlags(platform, tiktokUserAgent, cookiesPath)
        <==> platform == "youtube" || platform !in {"tiktok", "youtube", "instagram"}
  {
  }

  /** The TikTok referer header is sent for TikTok and only for TikTok. */
  lemma RefererExactlyForTikTok(platform: string, tiktokUserAgent: Option<string>, cookiesPath: Option<string>)
    ensures (exists flag :: flag in PlatformFlags(platform, tiktokUserAgent, cookiesPath)
                            && flag.AddHeader? && flag.field == "Referer")
        <==> platform == "tiktok"
    ensures platform == "tiktok"
        ==> AddHeader("Referer", TikTokReferer) in PlatformFlags(platform, tiktokUserAgent, cookiesPath)
  {
    var flags := PlatformFlags(platform, tiktokUserAgent, cookiesPath);
    if platform == "tiktok" {
      assert flags[1] == AddHeader("Referer", TikTokReferer);
    }
  }

  /** A cookie file is passed for YouTube only; its path is `COOKIES_PATH` or `./cookies.txt`. */
  lemma CookiesExactlyForYouTube(platform: string, tiktokUserAgent: Option<string>, cookiesPath: Option<string>)
    ensures (exists flag :: flag in PlatformFlags(platform, tiktokUserAgent, cookiesPath) && flag.Cookies?)
        <==> platform == "youtube"
    ensures forall flag :: (flag in PlatformFlags(platform, tiktokUserAgent, cookiesPath) && flag.Cookies?
                            ==> flag.path == OrElse(cookiesPath, DefaultCookiesPath))
  {
    var flags := PlatformFlags(platform, tiktokUserAgent, cookiesPath);
    if platform == "youtube" {
      assert flags[1].Cookies?;
    }
  }

  /** `--geo-bypass` and `--embed-metadata` are passed for YouTube and for no other tag. */
  lemma GeoBypassAndMetadataExactlyForYouTube(platform: string, tiktokUserAgent: Option<string>,
                                              cookiesPath: Option<string>)
    ensures GeoBypass in PlatformFlags(platform, tiktokUserAgent, cookiesPath) <==> platform == "youtube"
    ensures EmbedMetadata in PlatformFlags(platform, tiktokUserAgent, cookiesPath) <==> platform == "youtube"
  {
  }

  /** The whole flag list of each tag: TikTok's configurable agent and referer, YouTube's five flags, Instagram's mobile agent, and `--no-check-certificate` alone otherwise. */
  lemma UserAgentPerPlatform(platform: string, tiktokUserAgent: Option<string>, cookiesPath: Option<string>)
    ensures var flags := PlatformFlags(platform, tiktokUserAgent, cookiesPath);
            && (platform == "tiktok"
                ==> flags == [AddHeader("User-Agent", OrElse(tiktokUserAgent, DesktopUserAgent)),
                              AddHeader("Referer", TikTokReferer)])
            && (platform == "youtube"
                ==> flags == [AddHeader("User-Agent", DesktopUserAgent), Cookies(OrElse(cookiesPath, DefaultCookiesPath)),
                              GeoBypass, EmbedMetadata, NoCheckCertificate])
            && (platform == "instagram" ==> flags == [AddHeader("User-Agent", MobileUserAgent)])
            && (platform !in {"tiktok", "youtube", "instagram"} ==> flags == [NoCheckCertificate])
  {
  }
}
