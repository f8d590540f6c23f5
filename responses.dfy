/**
  The JSON bodies the `/extract` route answers with, and `handleExtractionError`:
  an ordered table of message substrings, the first one the error message
  contains picking the HTTP status and the user-facing message.
 */
module Responses {
  import opened Wrappers
  import opened Strings
  import opened Platforms

  /** The JSON objects `/extract` sends. */
  datatype Body =
    | Downloaded(success: bool, url: string, platform: string, filename: string, size: nat)
    | Failed(success: bool, message: string, error: string, platform: string)
    | Rejected(success: bool, message: string)

  datatype Response = Response(status: nat, body: Body)

  /** One value of `errorMap`. */
  datatype ErrorEntry = ErrorEntry(status: nat, message: string)

  const DefaultEntry := ErrorEntry(500, "Video extraction failed")

  /** The rejection of the `/extract` handler's timer. */
  const ProcessingTimeoutMessage := "Processing timeout exceeded"

  /** The rejection of `extractVideoUrl` when yt-dlp exits cleanly but the file is missing. */
  const MissingFileMessage := "Downloaded file not found"

  /** `Object.entries(errorMap)`: the keys in insertion order, `default` last and included. */
  function ErrorMap(platform: string): (table: seq<(string, ErrorEntry)>)
  {
    [("timeout", ErrorEntry(504, Capitalize(platform) + " processing timeout. Please try again.")),
     ("No downloadable", ErrorEntry(404, "No video found at this URL")),
     ("Unsupported URL", ErrorEntry(400, "Unsupported video platform")),
     ("file not found", ErrorEntry(500, "Video downloaded but file could not be accessed")),
     ("default", DefaultEntry)]
  }

  /** The first components of the table's entries, in order. */
  function Keys(table: seq<(string, ErrorEntry)>): (keys: seq<string>)
  {
    seq(|table|, i requires 0 <= i < |table| => table[i].0)
  }

  /** `.find(([key]) => message.includes(key))`, as the index of the entry found. */
  function FindFirst(keys: seq<string>, message: string): (r: Option<nat>)
    ensures r.Some? ==> r.value < |keys| && Includes(message, keys[r.value])
    ensures r.Some? ==> forall j :: 0 <= j < r.value ==> !Includes(message, keys[j])
    ensures r.None? ==> forall j :: 0 <= j < |keys| ==> !Includes(message, keys[j])
  {
    if keys == [] then None
    else if Includes(message, keys[0]) then Some(0)
    else match FindFirst(keys[1..], message)
      case Some(j) => Some(j + 1)
      case None => None
  }

  /** `handleExtractionError(error, res, platform)` with `message` standing for `error.message`. */
  function HandleExtractionError(message: string, platform: string): (resp: Response)
    ensures resp.body.Failed? && !resp.body.success
    ensures resp.body.error == message && resp.body.platform == platform
    ensures resp.status in {504, 404, 400, 500}
  {
    var table := ErrorMap(platform);
    var entry := match FindFirst(Keys(table), message)
      case Some(i) => table[i].1
      case None => DefaultEntry;
    Response(entry.status, Failed(false, entry.message, message, platform))
  }

  lemma ErrorKeys(platform: string)
    ensures Keys(ErrorMap(platform)) == ["timeout", "No downloadable", "Unsupported URL", "file not found", "default"]
  {
  }

  /**
    The first of `timeout`, `No downloadable`, `Unsupported URL`, `file not found`
    that the message contains decides the answer; with none of them it is
    500 "Video extraction failed".
   */
  lemma ClassificationOrder(message: string, platform: string)
    ensures var resp := HandleExtractionError(message, platform);
            && (resp.status == 504 <==> Includes(message, "timeout"))
            && (resp.status == 404
                <==> !Includes(message, "timeout") && Includes(message, "No downloadable"))
            && (resp.status == 400
                <==> !Includes(message, "timeout") && !Includes(message, "No downloadable")
                     && Includes(message, "Unsupported URL"))
            && (resp.status == 500
                <==> !Includes(message, "timeout") && !Includes(message, "No downloadable")
                     && !Includes(message, "Unsupported URL"))
    ensures var resp := HandleExtractionError(message, platform);
            && (resp.status == 504
                ==> resp.body.message == Capitalize(platform) + " processing timeout. Please try again.")
            && (resp.status == 404 ==> resp.body.message == "No video found at this URL")
            && (resp.status == 400 ==> resp.body.message == "Unsupported video platform")
            && (resp.status == 500 && Includes(message, "file not found")
                ==> resp.body.message == "Video downloaded but file could not be accessed")
            && (resp.status == 500 && !Includes(message, "file not found")
                ==> resp.body.message == "Video extraction failed")
  {
    ErrorKeys(platform);
    var keys := Keys(ErrorMap(platform));
    var found := FindFirst(keys, message);
    assert keys[0] == "timeout" && keys[1] == "No downloadable";
    assert keys[2] == "Unsupported URL" && keys[3] == "file not found";
    if Includes(message, "timeout") {
      assert found == Some(0);
    } else if Includes(message, "No downloadable") {
      assert found == Some(1);
    } else if Includes(message, "Unsupported URL") {
      assert found == Some(2);
    } else if Includes(message, "file not found") {
      assert found == Some(3);
    } else {
      assert found == Some(4) || found == None;
    }
  }

  /** A message matched only by the `default` key is answered exactly like one that matches nothing. */
  lemma DefaultKeyIsHarmless(message: string, platform: string)
    requires !Includes(message, "timeout") && !Includes(message, "No downloadable")
    requires !Includes(message, "Unsupported URL") && !Includes(message, "file not found")
    ensures HandleExtractionError(message, platform)
         == Response(500, Failed(false, "Video extraction failed", message, platform))
  {
    ErrorKeys(platform);
    var keys := Keys(ErrorMap(platform));
    assert FindFirst(keys, message) == Some(4) || FindFirst(keys, message).None?;
  }

  /** The race timer's message contains `timeout`, so it is answered 504. */
  lemma ProcessingTimeoutIs504(platform: string)
    ensures HandleExtractionError(ProcessingTimeoutMessage, platform)
         == Response(504, Failed(false, Capitalize(platform) + " processing timeout. Please try again.",
                                 ProcessingTimeoutMessage, platform))
  {
    OccursImpliesIncludes(ProcessingTimeoutMessage, "timeout", 11);
    ClassificationOrder(ProcessingTimeoutMessage, platform);
  }

  /** A message whose only key is `file not found` gets the inaccessible-file answer. */
  lemma FileNotFoundRow(message: string, platform: string)
    requires !Includes(message, "timeout") && !Includes(message, "No downloadable")
    requires !Includes(message, "Unsupported URL") && Includes(message, "file not found")
    ensures HandleExtractionError(message, platform)
         == Response(500, Failed(false, "Video downloaded but file could not be accessed", message, platform))
  {
    ClassificationOrder(message, platform);
  }

  // One fact per lemma: together in one proof the literal strings exhaust the solver.

  lemma MissingFileLacksTimeout()
    ensures !Includes(MissingFileMessage, "timeout")
  {
    MissingCharExcludes(MissingFileMessage, "timeout", 'm');
  }

  lemma MissingFileLacksNoDownloadable()
    ensures !Includes(MissingFileMessage, "No downloadable")
  {
    MissingCharExcludes(MissingFileMessage, "No downloadable", 'N');
  }

  lemma MissingFileLacksUnsupportedUrl()
    ensures !Includes(MissingFileMessage, "Unsupported URL")
  {
    MissingCharExcludes(MissingFileMessage, "Unsupported URL", 'U');
  }

  lemma MissingFileSaysFileNotFound()
    ensures Includes(MissingFileMessage, "file not found")
  {
    OccursImpliesIncludes(MissingFileMessage, "file not found", 11);
  }

  /** A missing artifact matches only `file not found`. */
  lemma MissingFileIs500(platform: string)
    ensures HandleExtractionError(MissingFileMessage, platform)
         == Response(500, Failed(false, "Video downloaded but file could not be accessed",
                                 MissingFileMessage, platform))
  {
    MissingFileLacksTimeout();
    MissingFileLacksNoDownloadable();
    MissingFileLacksUnsupportedUrl();
    MissingFileSaysFileNotFound();
    FileNotFoundRow(MissingFileMessage, platform);
  }

  /** The 504 message names the platform with a capital first letter. */
  lemma TimeoutMessageNamesPlatform(p: Platform)
    ensures Capitalize(p.Name()) == match p
      case TikTok => "Tiktok"
      case YouTube => "Youtube"
      case Instagram => "Instagram"
      case Unknown => "Unknown"
  {
  }
}
