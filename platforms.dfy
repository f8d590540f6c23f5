/**
  Which site a URL belongs to (`getPlatform`) and how long the service waits
  for the downloader on that site (`getTimeoutForPlatform`, with the
  `YTDLP_TIMEOUT` override applied by the `/extract` handler).
 */
module Platforms {
  import opened Wrappers
  import opened Strings

  datatype Platform = TikTok | YouTube | Instagram | Unknown {

    /** The tag the service passes around and reports to clients. */
    function Name(): (tag: string)
    {
      match this
      case TikTok => "tiktok"
      case YouTube => "youtube"
      case Instagram => "instagram"
      case Unknown => "unknown"
    }

    /** Position of the platform in the classifier's test order. */
    function Precedence(): (rank: nat)
    {
      match this
      case TikTok => 0
      case YouTube => 1
      case Instagram => 2
      case Unknown => 3
    }
  }

  const TikTokMarker := "tiktok.com"
  const YouTubeMarker := "youtube.com"
  const YouTubeShortMarker := "youtu.be"
  const InstagramMarker := "instagram.com"

  /** `getPlatform`: case-sensitive substring tests, first match wins. */
  function GetPlatform(url: string): (p: Platform)
  {
    if Includes(url, TikTokMarker) then TikTok
    else if Includes(url, YouTubeMarker) || Includes(url, YouTubeShortMarker) then YouTube
    else if Includes(url, InstagramMarker) then Instagram
    else Unknown
  }

  /** Each tag is chosen exactly when its marker is present and no earlier marker is. */
  lemma FirstMatchOrder(url: string)
    ensures Includes(url, TikTokMarker) ==> GetPlatform(url) == TikTok
    ensures GetPlatform(url) == YouTube
        <==> !Includes(url, TikTokMarker)
             && (Includes(url, YouTubeMarker) || Includes(url, YouTubeShortMarker))
    ensures GetPlatform(url) == Instagram
        <==> !Includes(url, TikTokMarker)
             && !Includes(url, YouTubeMarker) && !Includes(url, YouTubeShortMarker)
             && Includes(url, InstagramMarker)
    ensures GetPlatform(url) == Unknown
        <==> !Includes(url, TikTokMarker)
             && !Includes(url, YouTubeMarker) && !Includes(url, YouTubeShortMarker)
             && !Includes(url, InstagramMarker)
  {
  }

  /** The tag is always one of the four the rest of the service knows. */
  lemma TagIsKnown(url: string)
    ensures GetPlatform(url).Name() in {"tiktok", "youtube", "instagram", "unknown"}
  {
  }

  /** A URL with `tiktok.com` anywhere in it is TikTok, whatever else it mentions. */
  lemma TikTokMarkerAnywhere(before: string, after: string)
    ensures GetPlatform(before + TikTokMarker + after) == TikTok
  {
    IncludesInConcat(before, TikTokMarker, TikTokMarker);
    IncludesInConcat(before + TikTokMarker, after, TikTokMarker);
  }

  /** Adding text to either end of a URL can only move it to an earlier tag in the test order. */
  lemma ExtendingUrlNeverLowersPrecedence(a: string, b: string)
    ensures GetPlatform(a + b).Precedence() <= GetPlatform(a).Precedence()
    ensures GetPlatform(a + b).Precedence() <= GetPlatform(b).Precedence()
  {
    IncludesInConcat(a, b, TikTokMarker);
    IncludesInConcat(a, b, YouTubeMarker);
    IncludesInConcat(a, b, YouTubeShortMarker);
    IncludesInConcat(a, b, InstagramMarker);
  }

  // ---------------------------------------------------------------------------
  // Timeouts
  // ---------------------------------------------------------------------------

  /** The `timeouts` object literal of `getTimeoutForPlatform`, in milliseconds. */
  const Timeouts: map<string, nat> :=
    map["tiktok" := 30000, "youtube" := 45000, "instagram" := 35000, "default" := 20000]

  /** `timeouts[platform] || timeouts.default`: every entry is non-zero, so a hit is returned as is. */
  function TimeoutForPlatform(platform: string): (ms: nat)
    ensures ms > 0
  {
    if platform in Timeouts && Timeouts[platform] != 0 then Timeouts[platform] else Timeouts["default"]
  }

  /** The timeout for each tag the classifier can produce; 20 s for every tag without an entry. */
  lemma TimeoutTable(platform: string)
    ensures platform == "tiktok" ==> TimeoutForPlatform(platform) == 30000
    ensures platform == "youtube" ==> TimeoutForPlatform(platform) == 45000
    ensures platform == "instagram" ==> TimeoutForPlatform(platform) == 35000
    ensures platform !in {"tiktok", "youtube", "instagram"} ==> TimeoutForPlatform(platform) == 20000
  {
  }

  /** The deadline handed to the timer: the raw `YTDLP_TIMEOUT` text, or milliseconds from the table. */
  datatype Deadline = Configured(raw: string) | Millis(ms: nat)

  /** `process.env.YTDLP_TIMEOUT || getTimeoutForPlatform(platform)`. */
  function EffectiveTimeout(ytdlpTimeout: Option<string>, platform: string): (d: Deadline)
  {
    if ytdlpTimeout.Some? && ytdlpTimeout.value != "" then Configured(ytdlpTimeout.value)
    else Millis(TimeoutForPlatform(platform))
  }

  /** A non-empty override replaces the whole table, unparsed; otherwise the table decides. */
  lemma OverrideReplacesTable(ytdlpTimeout: Option<string>, platform: string)
    ensures EffectiveTimeout(ytdlpTimeout, platform).Configured?
        <==> ytdlpTimeout.Some? && ytdlpTimeout.value != ""
    ensures EffectiveTimeout(ytdlpTimeout, platform).Configured?
        ==> EffectiveTimeout(ytdlpTimeout, platform).raw == ytdlpTimeout.value
    ensures EffectiveTimeout(ytdlpTimeout, platform).Millis?
        ==> EffectiveTimeout(ytdlpTimeout, platform).ms == TimeoutForPlatform(platform) > 0
  {
  }
}
