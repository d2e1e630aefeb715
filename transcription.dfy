/** `transcribe_audio` of app.py: load a whisper model, transcribe the file and
    turn any exception into an error message. whisper is not modelled; the
    transcriber is a function from the audio path and model size to what the
    two calls report. */
module Transcription {
  import opened Pairs
  import opened Text

  /** What `whisper.load_model(size).transcribe(path)["text"]` does (app.py:60-63). */
  datatype TranscriberResult = Transcribed(text: string) | TranscriberRaised(message: string)

  /** The transcriber, as a function of the audio path and the model size. */
  type Transcriber = (string, string) -> TranscriberResult

  const TranscriptionErrorPrefix := "Transcription failed: "

  /** The tuple `transcribe_audio(audioPath, modelSize)` returns: the text of a
      transcription, or an error message carrying the exception's text. */
  function TranscribeAudio(audioPath: string, modelSize: string, transcribe: Transcriber): (r: Reply)
    ensures OneOf(r)
    ensures r.error.Some? ==> StartsWith(r.error.value, TranscriptionErrorPrefix)
    ensures transcribe(audioPath, modelSize).Transcribed? <==> r.value.Some?
    ensures r.value.Some? ==> r.value.value == transcribe(audioPath, modelSize).text
    ensures r.error.Some? ==>
      r.error.value[|TranscriptionErrorPrefix|..] == transcribe(audioPath, modelSize).message
  {
    match transcribe(audioPath, modelSize)
    case Transcribed(text) => Reply(Some(text), None)
    case TranscriberRaised(message) => Reply(None, Some(TranscriptionErrorPrefix + message))
  }
}
