/** `process_video` of app.py: create a temporary directory, download, check
    the file, transcribe, and in every case empty and remove the directory. */
module Job {
  import opened Pairs
  import opened Text
  import opened Workspace
  import opened Acquisition
  import opened Transcription

  /** The `(transcription, error)` tuple `process_video` returns. */
  datatype JobReply = JobReply(text: string, error: Option<string>)

  /** The error returned when the downloaded path does not exist (app.py:77). */
  const MissingFileMessage := "Failed to download audio file"

  /** The three kinds of error message a job can end with. */
  predicate IsJobError(e: string) {
    StartsWith(e, DownloadErrorPrefix) || e == MissingFileMessage || StartsWith(e, TranscriptionErrorPrefix)
  }

  /** The missing-file message is told apart from the two stages' messages. */
  lemma MissingFileMessageIsDistinct(e: string)
    requires StartsWith(e, DownloadErrorPrefix) || StartsWith(e, TranscriptionErrorPrefix)
    ensures e != MissingFileMessage
  {
    assert e[0] != MissingFileMessage[0];
  }

  /** The tuple `process_video(url, modelSize)` returns when `tempfile.mkdtemp`
      gives `dir`: each stage's error ends the job with an empty transcription. */
  function ProcessVideoOutcome(url: string, modelSize: string, dir: string,
                               p: PytubeAttempt, y: YtdlpAttempt, transcribe: Transcriber): (r: JobReply)
    ensures r.error.Some? ==> r.text == "" && IsJobError(r.error.value)
  {
    var download := DownloadOutcome(url, dir, [], p, y);
    if Truthy(download.error) then JobReply("", download.error)
    else if !Truthy(download.value) || !PathIn(dir, ListingAfterDownload(url, [], p, y), download.value.value) then
      JobReply("", Some(MissingFileMessage))
    else
      var transcription := TranscribeAudio(download.value.value, modelSize, transcribe);
      if Truthy(transcription.error) then JobReply("", transcription.error)
      else JobReply(transcription.value.value, None)
  }

  /** The `finally` block of app.py:87-92: remove each listed file, then the directory. */
  method CleanUp(dir: TempDir)
    requires dir.Valid()
    modifies dir
    ensures dir.Valid() && !dir.present && dir.names == []
  {
    if dir.present {
      var listing := dir.Listing();
      var i := 0;
      while i < |listing|
        invariant 0 <= i <= |listing|
        invariant dir.Valid() && dir.present
        invariant dir.names == listing[i..]
      {
        WithoutFirst(listing[i..]);
        assert listing[i..][1..] == listing[i + 1..];
        dir.Remove(listing[i]);
        i := i + 1;
      }
      dir.RemoveDir();
    }
  }

  /** `process_video(url, modelSize)` with `tempfile.mkdtemp` returning `tmpPath`.
      The directory it created is returned so that its final state can be stated. */
  method ProcessVideo(url: string, modelSize: string, tmpPath: string,
                      p: PytubeAttempt, y: YtdlpAttempt, transcribe: Transcriber)
    returns (text: string, error: Option<string>, dir: TempDir)
    ensures fresh(dir) && dir.path == tmpPath
    ensures dir.Valid() && !dir.present && dir.names == []
    ensures JobReply(text, error) == ProcessVideoOutcome(url, modelSize, tmpPath, p, y, transcribe)
  {
    dir := new TempDir(tmpPath);
    var download := DownloadAudio(url, dir, p, y);
    if Truthy(download.error) {
      text, error := "", download.error;
    } else if !Truthy(download.value) || !dir.Exists(download.value.value) {
      text, error := "", Some(MissingFileMessage);
    } else {
      var transcription := TranscribeAudio(download.value.value, modelSize, transcribe);
      if Truthy(transcription.error) {
        text, error := "", transcription.error;
      } else {
        text, error := transcription.value.value, None;
      }
    }
    CleanUp(dir);
  }

  /** A download error ends the job with that error; the transcriber is never consulted. */
  lemma DownloadErrorShortCircuits(url: string, modelSize: string, dir: string, p: PytubeAttempt,
                                   y: YtdlpAttempt, t1: Transcriber, t2: Transcriber)
    requires DownloadOutcome(url, dir, [], p, y).error.Some?
    ensures ProcessVideoOutcome(url, modelSize, dir, p, y, t1) == JobReply("", DownloadOutcome(url, dir, [], p, y).error)
    ensures ProcessVideoOutcome(url, modelSize, dir, p, y, t1) == ProcessVideoOutcome(url, modelSize, dir, p, y, t2)
  {
  }

  /** If pytube's download returns without having created `audio.mp3`, the
      existence check fails and transcription is not attempted. */
  lemma MissingPytubeFileShortCircuits(url: string, modelSize: string, dir: string, p: PytubeAttempt,
                                       y: YtdlpAttempt, transcribe: Transcriber)
    requires PytubeSucceeds(url, p)
    ensures ProcessVideoOutcome(url, modelSize, dir, p, y, transcribe).error == Some(MissingFileMessage)
      <==> !p.created
  {
    var path := Join(dir, PytubeFileName);
    PathInIffListed(dir, ListingAfterDownload(url, [], p, y), PytubeFileName);
    var transcription := TranscribeAudio(path, modelSize, transcribe);
    if transcription.error.Some? {
      MissingFileMessageIsDistinct(transcription.error.value);
    }
  }

  /** On the yt-dlp path the downloaded file always exists: the missing-file
      error can only follow a pytube download. */
  lemma YtdlpOutputNeverMissing(url: string, modelSize: string, dir: string, p: PytubeAttempt,
                                y: YtdlpAttempt, transcribe: Transcriber)
    requires !PytubeSucceeds(url, p)
    ensures ProcessVideoOutcome(url, modelSize, dir, p, y, transcribe).error != Some(MissingFileMessage)
  {
    var listing := ListingAfterDownload(url, [], p, y);
    var download := DownloadOutcome(url, dir, [], p, y);
    if download.error.Some? {
      MissingFileMessageIsDistinct(download.error.value);
    } else {
      var found := FirstAudio(listing);
      assert found.Some?;
      assert PathIn(dir, listing, Join(dir, found.value));
      var transcription := TranscribeAudio(download.value.value, modelSize, transcribe);
      if transcription.error.Some? {
        MissingFileMessageIsDistinct(transcription.error.value);
      }
    }
  }

  /** A job succeeds exactly when the download returns an existing file and the
      transcriber returns text for that file; the job's text is then that text. */
  lemma SucceedsIffBothStages(url: string, modelSize: string, dir: string, p: PytubeAttempt,
                              y: YtdlpAttempt, transcribe: Transcriber)
    ensures var download := DownloadOutcome(url, dir, [], p, y);
      var r := ProcessVideoOutcome(url, modelSize, dir, p, y, transcribe);
      (r.error.None? <==>
        download.value.Some? &&
        PathIn(dir, ListingAfterDownload(url, [], p, y), download.value.value) &&
        transcribe(download.value.value, modelSize).Transcribed?) &&
      (r.error.None? ==> r.text == transcribe(download.value.value, modelSize).text)
  {
  }

  /** The YouTube example link of app.py:109, written as scheme and host prefix,
      host and path. */
  const YouTubeExample := "https://www." + "youtube.com" + "/watch?v=dQw4w9WgXcQ"

  /** The example link is one pytube is tried on. */
  lemma YouTubeExampleTriesPytube()
    ensures TriesPytube(YouTubeExample)
  {
    var prefix, host := "https://www.", "youtube.com";
    assert YouTubeExample[|prefix|..|prefix| + |host|] == host;
    assert OccursAt(YouTubeExample, host, |prefix|);
    ContainsIffOccurs(YouTubeExample, host);
  }

  /** For the example link, pytube's download raises, yt-dlp leaves `audio.webm`
      and `audio.mp3`: the job transcribes the first listed `audio.*` file and
      returns its text. */
  lemma YouTubeFallbackScenario(dir: string, modelSize: string)
    ensures var p := StreamRaised("HTTP Error 403: Forbidden", false);
      var y := YtdlpFinished(["audio.webm", "audio.mp3"]);
      var transcribe: Transcriber := (path, size) =>
        if path == Join(dir, "audio.webm") then Transcribed("Never gonna give you up") else TranscriberRaised("no such file");
      ProcessVideoOutcome(YouTubeExample, modelSize, dir, p, y, transcribe) == JobReply("Never gonna give you up", None)
  {
    YouTubeExampleTriesPytube();
    var p := StreamRaised("HTTP Error 403: Forbidden", false);
    var y := YtdlpFinished(["audio.webm", "audio.mp3"]);
    var listing := ListingAfterDownload(YouTubeExample, [], p, y);
    assert listing == ["audio.webm", "audio.mp3"];
    assert StartsWith(listing[0], AudioPrefix);
    assert PathIn(dir, listing, Join(dir, "audio.webm"));
  }
}
