/** The solo-transcription action's preparation of the Whisper request:
    the stored audio is looked up, its MIME type defaulted, and a file name
    chosen whose extension Whisper recognises. */
module WhisperTranscription {
  import opened Wrappers
  import opened JsStrings

  /** A stored blob; `mimeType` is its `type`, "" when unknown. */
  datatype Blob = Blob(mimeType: string)

  /** The file handed to Whisper: its name and MIME type. */
  datatype AudioUpload = AudioUpload(fileName: string, mimeType: string)

  const NotFound := "Audio file not found"
  const DefaultMimeType := "audio/mpeg"
  const FallbackExtension := "m4a"
  const FileNamePrefix := "recording."

  /** `extensionMap`. */
  const ExtensionMap: map<string, string> := map[
    "audio/m4a" := "m4a",
    "audio/x-m4a" := "m4a",
    "audio/mp4" := "m4a",
    "audio/mpeg" := "mp3",
    "audio/mp3" := "mp3",
    "audio/wav" := "wav",
    "audio/wave" := "wav",
    "audio/webm" := "webm",
    "audio/ogg" := "ogg",
    "audio/aac" := "aac"
  ]

  /** The extensions the action can produce. */
  const Extensions: set<string> := {"m4a", "mp3", "wav", "webm", "ogg", "aac"}

  /** `audioBlob.type || "audio/mpeg"`: the blob's type, unless it is
      empty. */
  function MimeTypeOf(blob: Blob): (m: string)
    ensures m != ""
    ensures blob.mimeType != "" ==> m == blob.mimeType
    ensures blob.mimeType == "" ==> m == DefaultMimeType
  {
    if blob.mimeType != "" then blob.mimeType else DefaultMimeType
  }

  /** `extensionMap[mimeType] || "m4a"`: the table's extension for a listed
      type, m4a for any other; always one of Extensions. */
  function ExtensionOf(mimeType: string): (ext: string)
    ensures ext in Extensions
    ensures mimeType in ExtensionMap ==> ext == ExtensionMap[mimeType]
    ensures mimeType !in ExtensionMap ==> ext == FallbackExtension
  {
    if mimeType in ExtensionMap && ExtensionMap[mimeType] != "" then ExtensionMap[mimeType]
    else FallbackExtension
  }

  /** `recording.${extension}`. */
  function FileName(ext: string): (name: string)
    ensures StartsWith(name, FileNamePrefix) && name[|FileNamePrefix|..] == ext
  {
    FileNamePrefix + ext
  }

  /** What `transcribeSoloAudio` sends to Whisper for the stored object
      `blob` (`None` when storage has nothing under the id): "Audio file not
      found" for a missing object, otherwise a file named `recording.` plus
      the extension of its (defaulted) MIME type, sent with that type. */
  function PrepareUpload(blob: Option<Blob>): (r: Result<AudioUpload, string>)
    ensures blob.None? <==> r == Err(NotFound)
    ensures r.Ok? ==>
      && r.value.mimeType == MimeTypeOf(blob.value)
      && StartsWith(r.value.fileName, FileNamePrefix)
      && r.value.fileName[|FileNamePrefix|..] == ExtensionOf(r.value.mimeType)
  {
    match blob
    case None => Err(NotFound)
    case Some(b) =>
      var mimeType := MimeTypeOf(b);
      Ok(AudioUpload(FileName(ExtensionOf(mimeType)), mimeType))
  }

  /** `transcribeSoloAudio`: the text Whisper returns (`whisperText`) for a
      stored object, or the error for a missing one. */
  function TranscribeSoloAudio(blob: Option<Blob>, whisperText: string): (r: Result<string, string>)
    ensures blob.None? ==> r == Err(NotFound)
    ensures blob.Some? ==> r == Ok(whisperText)
  {
    match PrepareUpload(blob)
    case Err(e) => Err(e)
    case Ok(_) => Ok(whisperText)
  }

  /** The file name always carries an extension Whisper accepts; a blob
      without a type is sent as `recording.mp3`, and a type outside the
      table as `recording.m4a`. */
  lemma FileNames(b: Blob)
    ensures PrepareUpload(Some(b)).value.fileName in
      {"recording.m4a", "recording.mp3", "recording.wav", "recording.webm", "recording.ogg", "recording.aac"}
    ensures b.mimeType == "" ==> PrepareUpload(Some(b)) == Ok(AudioUpload("recording.mp3", DefaultMimeType))
    ensures b.mimeType != "" && b.mimeType !in ExtensionMap ==>
      PrepareUpload(Some(b)) == Ok(AudioUpload("recording.m4a", b.mimeType))
  {
    var ext := ExtensionOf(MimeTypeOf(b));
    assert FileName(ext) == FileNamePrefix + ext;
    if ext == "m4a" {
      assert FileName(ext) == "recording.m4a";
    } else if ext == "mp3" {
      assert FileName(ext) == "recording.mp3";
    } else if ext == "wav" {
      assert FileName(ext) == "recording.wav";
    } else if ext == "webm" {
      assert FileName(ext) == "recording.webm";
    } else if ext == "ogg" {
      assert FileName(ext) == "recording.ogg";
    } else {
      assert FileName(ext) == "recording.aac";
    }
  }
}
