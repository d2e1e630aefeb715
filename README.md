# Video transcription job: a Dafny model

This project models the job in `app.py` that turns a video URL into a transcript:

- `download_audio` tries pytube first when the URL looks like a YouTube link. It falls back to yt-dlp and then looks in the temporary directory for the first file whose name starts with `audio.`. Every failure comes back as the pair `(None, "Download error: ...")`.
- `transcribe_audio` wraps the whisper call. It returns `(text, None)` or `(None, "Transcription failed: ...")`.
- `process_video` creates a temporary directory, runs the two stages and returns early on the first error. Its `finally` block deletes every file in the directory and then the directory itself.

pytube, yt-dlp and whisper are not modelled. Each is replaced by the outcome it reports and the files it leaves behind:

- `Acquisition.PytubeAttempt` for pytube.
- `Acquisition.YtdlpAttempt` for yt-dlp.
- `Transcription.Transcriber` for whisper: a function from the audio path and the model size to a text or an exception message.

The path that `tempfile.mkdtemp` returns is a parameter. The temporary directory is a class, `Workspace.TempDir`. It records whether the directory exists and the names of its files in listing order.

Modules:

| file | module | models |
|---|---|---|
| pairs.dfy | `Pairs` | `Optional` values, the `(result, error)` tuples, Python truthiness of `Optional[str]` |
| text.dfy | `Text` | `in` on strings, `str.startswith`, POSIX `os.path.join` |
| workspace.dfy | `Workspace` | the temporary directory: `mkdtemp`, files written, `os.listdir`, `os.path.exists`, `os.remove`, `os.rmdir` |
| acquisition.dfy | `Acquisition` | `download_audio` |
| transcription.dfy | `Transcription` | `transcribe_audio` |
| job.dfy | `Job` | `process_video` and its cleanup |

Each stateful operation is a method over a `TempDir`: `DownloadAudio`, `CleanUp` and `ProcessVideo`.

- `DownloadAudio` and `ProcessVideo` are proved against pure functions of the oracle outcomes (`DownloadOutcome`, `ListingAfterDownload`, `ProcessVideoOutcome`). The lemmas state the properties of those functions.
- `CleanUp` states the final directory state directly: the directory is gone and holds no files.

Facts about `app.py` that the model keeps:

- `app.py` has no typed error taxonomy. Errors are plain strings.
- `app.py` has no model cache. `whisper.load_model` is called on every transcription.
- No kind of URL or failure stops the fallback. Every pytube failure falls through to yt-dlp.
- A partial `audio.mp3` from a failed pytube download is not removed before yt-dlp runs. If yt-dlp's output has another `audio.*` name, the listing search can return the partial file. `app.py` does so whenever `os.listdir` lists `audio.mp3` first. The model lists files in creation order, so in the model it always does. `Acquisition.LeftoverPytubeFileCanBeReturned` shows this. With the mp3 post-processor of app.py:32-35, yt-dlp normally overwrites `audio.mp3` instead.
- `app.py` does nothing to keep reported progress from going backwards.

## Model

| member | source | states |
|---|---|---|
| `Text.ContainsIffOccurs` | app.py:17 | Python's `sub in s` holds exactly when `sub` occurs at some position of `s` |
| `Text.JoinPlacesNameUnderDir` | app.py:23 | `os.path.join(temp_dir, name)` starts with `temp_dir`, is longer than it and ends with `name` |
| `Text.JoinInjective` | app.py:51 | distinct file names in one directory join to distinct paths |
| `Workspace.Add` | app.py:24 | creating a file lists it; an existing entry keeps its place; names stay distinct |
| `Workspace.WithFiles` | app.py:44 | after a downloader writes files, the listing holds exactly the old entries and the new files, old entries first, without repeats |
| `Workspace.Without` | app.py:91 | after `os.remove` the listing holds exactly the other entries, still without repeats |
| `Workspace.WithoutAbsent` | app.py:91 | removing a name that is not listed leaves the listing unchanged |
| `Workspace.WithoutFirst` | app.py:90-91 | removing the first listed file leaves the rest of the listing |
| `Workspace.PathInIffListed` | app.py:76 | `os.path.exists` of a path in the temp directory holds exactly when the file is listed |
| `Workspace.TempDir.constructor` | app.py:69 | `tempfile.mkdtemp` gives an existing, empty directory |
| `Workspace.TempDir.Listing` | app.py:49 | `os.listdir` lists no name twice |
| `Workspace.TempDir.Store` | app.py:24 | a downloader's files are added to the directory, which still exists |
| `Workspace.TempDir.Remove` | app.py:91 | `os.remove` of a listed file unlists it and changes nothing else |
| `Workspace.TempDir.RemoveDir` | app.py:92 | `os.rmdir` of the emptied directory removes it |
| `Acquisition.TriesPytubeIff` | app.py:17 | pytube is tried exactly when `youtube.com` or `youtu.be` occurs in the URL |
| `Acquisition.OtherUrlsSkipPytube` | app.py:17-29 | for any other URL the pytube outcome does not affect the result or the directory |
| `Acquisition.PytubeSuccessSkipsYtdlp` | app.py:18-25 | a pytube download that returns gives `(temp_dir/audio.mp3, None)`; the yt-dlp outcome does not affect the result or the directory |
| `Acquisition.PytubeFailureFallsThrough` | app.py:21-27 | any pytube failure, "No audio stream found" included, is swallowed; the result is what yt-dlp alone gives on the directory pytube left, and an error message never comes from pytube |
| `Acquisition.FirstAudio` | app.py:49-51 | the search returns an entry exactly when some entry starts with `audio.`, and then it returns the first such entry |
| `Acquisition.SearchListing` | app.py:49-51 | the listing loop returns the first entry starting with `audio.`, or none |
| `Acquisition.DownloadOutcome` | app.py:13-55 | `download_audio` never raises: exactly one component of its pair is present, and an error starts with `Download error: ` |
| `Acquisition.YtdlpResultIsFirstAudio` | app.py:42-53 | after yt-dlp finishes, the result is `temp_dir/` + the first listed `audio.*` entry; with no such entry it is `Download error: Failed to download audio` |
| `Acquisition.DownloadedPathUnderDir` | app.py:23-51 | any path `download_audio` returns is `os.path.join(temp_dir, n)` for a plain file name `n`, so it lies inside the temporary directory |
| `Acquisition.DownloadAudio` | app.py:13-55 | the method returns `DownloadOutcome` and leaves the directory as `ListingAfterDownload` says, without removing it |
| `Acquisition.ListingWithLeftoverPytubeFile` | app.py:23-44 | after a failed pytube download leaves `audio.mp3` and yt-dlp writes another file, the listing holds both, pytube's file first |
| `Acquisition.LeftoverPytubeFileCanBeReturned` | app.py:23-51 | a partial `audio.mp3` left by a failed pytube download is returned ahead of a yt-dlp output named `audio.m4a` |
| `Transcription.TranscribeAudio` | app.py:57-66 | `transcribe_audio` never raises: the transcriber's text becomes `(text, None)`; an exception becomes `(None, "Transcription failed: " + message)` |
| `Job.MissingFileMessageIsDistinct` | app.py:74-82 | the missing-file message differs from every download or transcription error |
| `Job.ProcessVideoOutcome` | app.py:68-86 | every error result has an empty transcription and is a download error, the missing-file message or a transcription error |
| `Job.DownloadErrorShortCircuits` | app.py:72-74 | a download error is returned as `("", error)` and the transcriber is never consulted |
| `Job.MissingPytubeFileShortCircuits` | app.py:76-77 | after a pytube download returns, the job ends with `Failed to download audio file` exactly when pytube did not create `audio.mp3` |
| `Job.YtdlpOutputNeverMissing` | app.py:49-77 | on the yt-dlp path the existence check never fails |
| `Job.SucceedsIffBothStages` | app.py:72-84 | a job succeeds exactly when the download gives an existing file and the transcriber returns text for that file; the job returns that text |
| `Job.CleanUp` | app.py:87-92 | the `finally` block removes every listed file and then the directory |
| `Job.ProcessVideo` | app.py:68-92 | `process_video` returns `ProcessVideoOutcome`, and on every path its temporary directory is gone and has no files |
| `Job.YouTubeExampleTriesPytube` | app.py:109 | the example YouTube link is one that pytube is tried on |
| `Job.YouTubeFallbackScenario` | app.py:17-84 | for the example link, a pytube failure followed by yt-dlp output ends with the transcript of the first `audio.*` file |

Helper definitions without a contract of their own are covered by the rows of the members that use them:

- `Workspace.TempDir.Exists` models `os.path.exists` at app.py:76 and is used by `Job.ProcessVideo`.
- `Pairs.Truthy` models the tests at app.py:73, 76 and 81 and is used by `Job.ProcessVideoOutcome`.
- `Acquisition.TriesPytube` models the URL test at app.py:17 and is characterised by `Acquisition.TriesPytubeIff`.

## Left out

- The Gradio interface, the example-link markdown and `app.launch()` (app.py:94-120) are presentation only. The prose around the code is not code.
- Progress reporting (app.py:15, 19, 39, 59, 61) is a UI callback with float fractions. It is not modelled. An exception raised inside a progress callback is part of an oracle's failure outcome.
- pytube stream selection, the yt-dlp options and FFmpeg post-processing, and whisper inference are foreign calls. They are replaced by the outcomes `PytubeAttempt`, `YtdlpAttempt` and `Transcriber`. pytube can leave only `audio.mp3`, the name app.py:24 gives it. yt-dlp may leave any plain file names: the model does not tie them to the `outtmpl` and post-processor settings.
- The `print` at app.py:27 and `traceback.print_exc` at app.py:65 are logging only.
- The outer `except Exception` of `process_video` (app.py:85-86) is not modelled. Both stages already turn every `Exception` into an error pair, so nothing in the model reaches that branch. `BaseException`s such as `KeyboardInterrupt` are not modelled. The `finally` cleanup still runs on every path the model has.
- The temporary directory is flat, as the cleanup at app.py:90-91 assumes. `tempfile.mkdtemp` is given its path, and its uniqueness is not modelled. `os.path.exists` is modelled only for paths inside that directory. `os.remove` and `os.rmdir` do not fail.
- `Workspace.TempDir.Listing`: `os.listdir` order is arbitrary. The model lists files in the order they were created, so "first entry" means first in that order.
- The downloaders only create files. A downloader that deletes files, such as yt-dlp removing its intermediate file after conversion, is modelled by listing only the files that remain.
