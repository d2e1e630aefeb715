/** `download_audio` of app.py: try pytube for YouTube URLs, fall back to
    yt-dlp, then look for the file it produced. pytube and yt-dlp are not
    modelled; each is replaced by the outcome it reports and the files it
    leaves in the temporary directory. */
module Acquisition {
  import opened Pairs
  import opened Text
  import opened Workspace

  /** What the pytube attempt does (app.py:19-24). */
  datatype PytubeAttempt =
    | YouTubeRaised(message: string)                         // `YouTube(...)` or the stream query raised
    | NoAudioStream                                          // the audio-only query found no stream
    | StreamRaised(message: string, leftPartial: bool)  // `stream.download` raised, leaving a partial `audio.mp3` or not
    | StreamSaved(created: bool)                        // `stream.download` returned, having created `audio.mp3` or not

  /** What the yt-dlp attempt does (app.py:42-46): any exception, including a
      re-raised `DownloadError`, carries its message. */
  datatype YtdlpAttempt =
    | YtdlpRaised(message: string, partial: seq<FileName>)
    | YtdlpFinished(written: seq<FileName>)

  const DownloadErrorPrefix := "Download error: "
  /** The message of the exception raised when no output file is found (app.py:53). */
  const NoOutputMessage := "Failed to download audio"
  /** The file name pytube is told to write (app.py:23-24). */
  const PytubeFileName: FileName := "audio.mp3"
  /** The prefix of yt-dlp's output name: `outtmpl` is `audio`, and the file gets an
      extension (`.mp3` from the FFmpegExtractAudio post-processor, app.py:32-35). */
  const AudioPrefix := "audio."

  /** The URL test that decides whether pytube is tried (app.py:17). */
  predicate TriesPytube(url: string) {
    Contains(url, "youtube.com") || Contains(url, "youtu.be")
  }

  /** The files pytube leaves: at most the one it is told to write, `audio.mp3`. */
  function PytubeFiles(p: PytubeAttempt): seq<FileName> {
    match p
    case YouTubeRaised(_) => []
    case NoAudioStream => []
    case StreamRaised(_, leftPartial) => if leftPartial then [PytubeFileName] else []
    case StreamSaved(created) => if created then [PytubeFileName] else []
  }

  function YtdlpFiles(y: YtdlpAttempt): seq<FileName> {
    match y
    case YtdlpRaised(_, partial) => partial
    case YtdlpFinished(written) => written
  }

  /** `names[k]` is the first entry of the listing that starts with `audio.`. */
  predicate IsFirstAudio(names: seq<FileName>, k: int) {
    0 <= k < |names| && StartsWith(names[k], AudioPrefix) &&
    forall j :: 0 <= j < k ==> !StartsWith(names[j], AudioPrefix)
  }

  /** The entry the search loop of app.py:49-51 returns, if any. */
  function FirstAudio(names: seq<FileName>): (r: Option<FileName>)
    ensures r.Some? <==> exists k :: IsFirstAudio(names, k)
    ensures r.Some? ==> exists k :: IsFirstAudio(names, k) && names[k] == r.value
    decreases |names|
  {
    if names == [] then None
    else if StartsWith(names[0], AudioPrefix) then
      assert IsFirstAudio(names, 0);
      Some(names[0])
    else
      var r := FirstAudio(names[1..]);
      assert forall k :: IsFirstAudio(names[1..], k) <==> IsFirstAudio(names, k + 1) by {
        forall k ensures IsFirstAudio(names[1..], k) <==> IsFirstAudio(names, k + 1) {
          if 0 <= k < |names[1..]| {
            assert forall j :: 0 <= j < k ==> names[1..][j] == names[j + 1];
          }
        }
      }
      assert !IsFirstAudio(names, 0);
      assert forall k :: IsFirstAudio(names, k) ==> IsFirstAudio(names[1..], k - 1);
      r
  }

  /** The search loop of app.py:49-51 over a directory listing. */
  method SearchListing(listing: seq<FileName>) returns (found: Option<FileName>)
    ensures found == FirstAudio(listing)
  {
    var i := 0;
    while i < |listing|
      invariant 0 <= i <= |listing|
      invariant FirstAudio(listing[i..]) == FirstAudio(listing)
    {
      if StartsWith(listing[i], AudioPrefix) {
        return Some(listing[i]);
      }
      assert listing[i..][1..] == listing[i + 1..];
      i := i + 1;
    }
    return None;
  }

  /** The listing after pytube's attempt, if it was made. */
  function ListingAfterPytube(url: string, names: seq<FileName>, p: PytubeAttempt): seq<FileName> {
    if TriesPytube(url) then WithFiles(names, PytubeFiles(p)) else names
  }

  /** pytube was tried and its download returned. */
  predicate PytubeSucceeds(url: string, p: PytubeAttempt) {
    TriesPytube(url) && p.StreamSaved?
  }

  /** The listing of the temporary directory when `download_audio` returns. */
  function ListingAfterDownload(url: string, names: seq<FileName>, p: PytubeAttempt, y: YtdlpAttempt): seq<FileName> {
    var afterPytube := ListingAfterPytube(url, names, p);
    if PytubeSucceeds(url, p) then afterPytube else WithFiles(afterPytube, YtdlpFiles(y))
  }

  /** The tuple `download_audio(url, dir)` returns when `dir` holds `names`. */
  function DownloadOutcome(url: string, dir: string, names: seq<FileName>, p: PytubeAttempt, y: YtdlpAttempt): (r: Reply)
    ensures OneOf(r)
    ensures r.error.Some? ==> StartsWith(r.error.value, DownloadErrorPrefix)
  {
    if PytubeSucceeds(url, p) then Reply(Some(Join(dir, PytubeFileName)), None)
    else match y
      case YtdlpRaised(message, _) => Reply(None, Some(DownloadErrorPrefix + message))
      case YtdlpFinished(_) =>
        match FirstAudio(ListingAfterDownload(url, names, p, y))
        case Some(name) => Reply(Some(Join(dir, name)), None)
        case None => Reply(None, Some(DownloadErrorPrefix + NoOutputMessage))
  }

  /** `download_audio(url, dir.path)`: runs the two attempts against the directory. */
  method DownloadAudio(url: string, dir: TempDir, p: PytubeAttempt, y: YtdlpAttempt) returns (r: Reply)
    requires dir.Valid() && dir.present
    modifies dir
    ensures dir.Valid() && dir.present
    ensures dir.names == ListingAfterDownload(url, old(dir.names), p, y)
    ensures r == DownloadOutcome(url, dir.path, old(dir.names), p, y)
  {
    if TriesPytube(url) {
      dir.Store(PytubeFiles(p));
      if p.StreamSaved? {
        return Reply(Some(Join(dir.path, PytubeFileName)), None);
      }
    }
    dir.Store(YtdlpFiles(y));
    if y.YtdlpRaised? {
      return Reply(None, Some(DownloadErrorPrefix + y.message));
    }
    var found := SearchListing(dir.Listing());
    if found.Some? {
      r := Reply(Some(Join(dir.path, found.value)), None);
    } else {
      r := Reply(None, Some(DownloadErrorPrefix + NoOutputMessage));
    }
  }

  /** pytube is tried exactly when `youtube.com` or `youtu.be` occurs somewhere in the URL. */
  lemma TriesPytubeIff(url: string)
    ensures TriesPytube(url) <==>
      (exists i :: OccursAt(url, "youtube.com", i)) || (exists i :: OccursAt(url, "youtu.be", i))
  {
    ContainsIffOccurs(url, "youtube.com");
    ContainsIffOccurs(url, "youtu.be");
  }

  /** For any other URL the pytube outcome is irrelevant: only yt-dlp runs. */
  lemma OtherUrlsSkipPytube(url: string, dir: string, names: seq<FileName>, p1: PytubeAttempt, p2: PytubeAttempt, y: YtdlpAttempt)
    requires !TriesPytube(url)
    ensures DownloadOutcome(url, dir, names, p1, y) == DownloadOutcome(url, dir, names, p2, y)
    ensures ListingAfterDownload(url, names, p1, y) == ListingAfterDownload(url, names, p2, y)
  {
  }

  /** A pytube download that returns yields `temp_dir/audio.mp3` and yt-dlp is never run. */
  lemma PytubeSuccessSkipsYtdlp(url: string, dir: string, names: seq<FileName>, p: PytubeAttempt, y1: YtdlpAttempt, y2: YtdlpAttempt)
    requires PytubeSucceeds(url, p)
    ensures DownloadOutcome(url, dir, names, p, y1) == Reply(Some(Join(dir, PytubeFileName)), None)
    ensures DownloadOutcome(url, dir, names, p, y1) == DownloadOutcome(url, dir, names, p, y2)
    ensures ListingAfterDownload(url, names, p, y1) == WithFiles(names, PytubeFiles(p))
    ensures ListingAfterDownload(url, names, p, y1) == ListingAfterDownload(url, names, p, y2)
  {
  }

  /** A failed pytube attempt is swallowed: the outcome is the one yt-dlp alone
      would give on the directory pytube left behind, and an error message
      never comes from pytube. */
  lemma PytubeFailureFallsThrough(url: string, dir: string, names: seq<FileName>, p: PytubeAttempt, y: YtdlpAttempt)
    requires !PytubeSucceeds(url, p)
    ensures var afterPytube := ListingAfterPytube(url, names, p);
      DownloadOutcome(url, dir, names, p, y) == DownloadOutcome("", dir, afterPytube, p, y) &&
      ListingAfterDownload(url, names, p, y) == ListingAfterDownload("", afterPytube, p, y)
    ensures var r := DownloadOutcome(url, dir, names, p, y);
      r.error.Some? ==>
        r.error.value == DownloadErrorPrefix + (if y.YtdlpRaised? then y.message else NoOutputMessage)
  {
  }

  /** After yt-dlp finishes, the result is the first listed `audio.*` file under
      the temporary directory, and an error exactly when there is none. */
  lemma YtdlpResultIsFirstAudio(url: string, dir: string, names: seq<FileName>, p: PytubeAttempt, y: YtdlpAttempt)
    requires !PytubeSucceeds(url, p) && y.YtdlpFinished?
    ensures var listing := ListingAfterDownload(url, names, p, y);
      var r := DownloadOutcome(url, dir, names, p, y);
      (r.value.Some? <==> exists k :: IsFirstAudio(listing, k)) &&
      (forall k :: IsFirstAudio(listing, k) ==> r.value == Some(Join(dir, listing[k]))) &&
      (r.value.None? ==> r.error == Some(DownloadErrorPrefix + NoOutputMessage))
  {
  }

  /** A path `download_audio` returns names a file inside the temporary directory. */
  lemma DownloadedPathUnderDir(url: string, dir: string, names: seq<FileName>, p: PytubeAttempt, y: YtdlpAttempt)
    ensures var r := DownloadOutcome(url, dir, names, p, y);
      r.value.Some? ==>
        (exists n: FileName :: r.value.value == Join(dir, n)) &&
        StartsWith(r.value.value, dir) && |r.value.value| > |dir|
  {
  }

  /** The listing after a failed pytube download left `audio.mp3` and yt-dlp wrote `audio.m4a`. */
  lemma ListingWithLeftoverPytubeFile(url: string, message: string, ytdlpFile: FileName)
    requires TriesPytube(url) && ytdlpFile != PytubeFileName
    ensures ListingAfterDownload(url, [], StreamRaised(message, true), YtdlpFinished([ytdlpFile]))
      == [PytubeFileName, ytdlpFile]
  {
    var partial := PytubeFileName;
    var pytube := StreamRaised(message, true);
    assert PytubeFiles(pytube) == [partial];
    assert [partial][1..] == [] && [ytdlpFile][1..] == [];
    assert WithFiles([], [partial]) == [partial] by {
      assert Add([], partial) == [partial];
    }
    assert ListingAfterPytube(url, [], pytube) == [partial];
    assert WithFiles([partial], [ytdlpFile]) == [partial, ytdlpFile] by {
      assert ytdlpFile !in [partial];
      assert Add([partial], ytdlpFile) == [partial, ytdlpFile];
    }
  }

  /** A partial `audio.mp3` left by a failed pytube download is not removed before
      yt-dlp runs; when yt-dlp's output has another `audio.*` name listed after it,
      the listing search returns the partial file instead of yt-dlp's output. */
  lemma LeftoverPytubeFileCanBeReturned(url: string, dir: string, message: string)
    requires TriesPytube(url)
    ensures DownloadOutcome(url, dir, [], StreamRaised(message, true), YtdlpFinished(["audio.m4a"]))
      == Reply(Some(Join(dir, PytubeFileName)), None)
  {
    var ytdlpFile: FileName := "audio.m4a";
    assert ytdlpFile[7] != PytubeFileName[7];
    ListingWithLeftoverPytubeFile(url, message, ytdlpFile);
    assert StartsWith(PytubeFileName, AudioPrefix);
  }
}
