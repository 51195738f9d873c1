/** The mobile app's "import audio" screen: it receives files shared from
    another app, keeps the first audio file, lets the user pick a friend or
    a solo conversation, then uploads the file and asks the backend to
    import it, showing a stage and a progress percentage. */
module ImportAudio {
  import opened Wrappers
  import opened JsStrings
  import Users

  /** A shared file as the share intent describes it. */
  datatype SharedFile = SharedFile(path: string, fileName: Option<string>, mimeType: Option<string>)

  datatype Stage = SelectingFriend | Uploading | Transcribing | Analyzing | Complete | Error

  /** The (stage, progress) pair the screen shows. */
  datatype Snapshot = Snapshot(stage: Stage, progress: nat)

  const AudioExtensions: seq<string> := ["mp3", "wav", "m4a", "aac", "ogg", "flac"]

  // ---------------------------------------------------------------------
  // Picking the audio file
  // ---------------------------------------------------------------------

  /** `/\.(mp3|wav|m4a|aac|ogg|flac)$/i`: the name ends with a dot and one
      of the extensions, in any letter case. Lower-casing the ASCII letters
      is exact here: without the `u` flag no other character folds onto an
      ASCII letter. */
  predicate HasAudioExtension(name: string)
  {
    exists ext :: ext in AudioExtensions && EndsWith(ToLower(name), "." + ext)
  }

  /** The filter of `extractAudioFile`: an `audio/` MIME type or an audio
      file name. */
  predicate IsAudioFile(f: SharedFile)
  {
    (f.mimeType.Some? && StartsWith(f.mimeType.value, "audio/"))
    || (f.fileName.Some? && HasAudioExtension(f.fileName.value))
  }

  /** `files.filter(IsAudioFile)`: exactly the audio files, in order. */
  function AudioFiles(files: seq<SharedFile>): (r: seq<SharedFile>)
    ensures |r| <= |files|
    ensures forall f :: f in r ==> f in files && IsAudioFile(f)
    ensures forall f :: f in files && IsAudioFile(f) ==> f in r
  {
    if |files| == 0 then []
    else
      var rest := AudioFiles(files[1..]);
      assert forall f :: f in files ==> f == files[0] || f in files[1..];
      (if IsAudioFile(files[0]) then [files[0]] else []) + rest
  }

  /** The file taken, `audioFiles[0]`, is the first shared file that passes
      the filter. */
  lemma {:induction false} FirstAudioFile(files: seq<SharedFile>) returns (k: nat)
    requires |AudioFiles(files)| > 0
    ensures k < |files| && files[k] == AudioFiles(files)[0]
    ensures forall j :: 0 <= j < k ==> !IsAudioFile(files[j])
  {
    if IsAudioFile(files[0]) {
      k := 0;
    } else {
      var k' := FirstAudioFile(files[1..]);
      k := k' + 1;
    }
  }

  // ---------------------------------------------------------------------
  // The import
  // ---------------------------------------------------------------------

  /** The (stage, progress) pairs one import goes through: uploading at
      10%, uploaded at 25%, transcribing at 30%, complete at 100%. A failed
      upload stops at the error stage with 10%, a failed import (including
      the backend rejecting a solo import, which sends no friend) with 30%. */
  function ImportTrace(hasFriend: bool, uploadOk: bool, importOk: bool): seq<Snapshot>
  {
    var last := if hasFriend && importOk then Snapshot(Complete, 100) else Snapshot(Error, 30);
    if !uploadOk then [Snapshot(Uploading, 10), Snapshot(Error, 10)]
    else [Snapshot(Uploading, 10), Snapshot(Uploading, 25), Snapshot(Transcribing, 30), last]
  }

  /** Along one import, progress never goes down and stays within 0..100;
      the import ends complete (at 100%) exactly when the upload and the
      backend call both succeed with a friend selected, and in the error
      stage otherwise. */
  lemma ImportTraceProgress(hasFriend: bool, uploadOk: bool, importOk: bool)
    ensures var t := ImportTrace(hasFriend, uploadOk, importOk);
      && |t| >= 2
      && (forall i, j :: 0 <= i <= j < |t| ==> t[i].progress <= t[j].progress <= 100)
      && (t[|t| - 1].stage == Complete <==> hasFriend && uploadOk && importOk)
      && (t[|t| - 1].stage == Complete <==> t[|t| - 1].progress == 100)
      && (t[|t| - 1].stage != Complete ==> t[|t| - 1].stage == Error)
  {
  }

  /** The screen's state: the chosen friend or solo, the stage and
      progress, the audio file, whether the screen has been left, the
      `friendId` argument of every `processImportedAudio` call and the
      sequence of (stage, progress) pairs shown. */
  class ImportScreen {
    var selectedFriend: Option<Users.UserId>
    var isSolo: bool
    var stage: Stage
    var progress: nat
    var audioFile: Option<SharedFile>
    var left: bool
    var requests: seq<Option<Users.UserId>>
    var history: seq<Snapshot>

    /** Never a friend and solo at once; progress is a percentage. */
    predicate Valid()
      reads this
    {
      !(selectedFriend.Some? && isSolo) && progress <= 100
    }

    constructor()
      ensures Valid()
      ensures selectedFriend.None? && !isSolo && stage == SelectingFriend && progress == 0
      ensures audioFile.None? && !left && requests == [] && history == []
    {
      selectedFriend := None;
      isSolo := false;
      stage := SelectingFriend;
      progress := 0;
      audioFile := None;
      left := false;
      requests := [];
      history := [];
    }

    /** `extractAudioFile`: take the first audio file, or leave the screen
        when none was shared (`files` absent counts as none). */
    method ExtractAudioFile(files: Option<seq<SharedFile>>)
      requires Valid()
      modifies this
      ensures Valid()
      ensures var audio := AudioFiles(if files.Some? then files.value else []);
        && (|audio| == 0 ==> left && audioFile == old(audioFile))
        && (|audio| > 0 ==> audioFile == Some(audio[0]) && left == old(left))
      ensures selectedFriend == old(selectedFriend) && isSolo == old(isSolo)
      ensures stage == old(stage) && progress == old(progress)
      ensures requests == old(requests) && history == old(history)
    {
      var audioFiles := AudioFiles(if files.Some? then files.value else []);
      if |audioFiles| == 0 {
        left := true;
        return;
      }
      audioFile := Some(audioFiles[0]);
    }

    /** Choosing a friend turns solo off. */
    method HandleFriendSelect(friendId: Users.UserId)
      requires Valid()
      modifies this
      ensures Valid()
      ensures selectedFriend == Some(friendId) && !isSolo
      ensures stage == old(stage) && progress == old(progress) && audioFile == old(audioFile)
      ensures left == old(left) && requests == old(requests) && history == old(history)
    {
      selectedFriend := Some(friendId);
      isSolo := false;
    }

    /** Choosing solo clears the friend. */
    method HandleSoloSelect()
      requires Valid()
      modifies this
      ensures Valid()
      ensures selectedFriend.None? && isSolo
      ensures stage == old(stage) && progress == old(progress) && audioFile == old(audioFile)
      ensures left == old(left) && requests == old(requests) && history == old(history)
    {
      selectedFriend := None;
      isSolo := true;
    }

    /** `handleStartImport`. Refused (nothing changes) unless a friend or
        solo is chosen and a file is loaded. Otherwise the screen goes
        through ImportTrace: `uploadOk` is whether reading and uploading
        the file succeeded, `importOk` whether `processImportedAudio`
        succeeds given a friend. The backend is called once the upload has
        succeeded, with the selected friend or, for solo, none. */
    method HandleStartImport(uploadOk: bool, importOk: bool) returns (started: bool)
      requires Valid()
      modifies this
      ensures Valid()
      ensures started <==> (old(selectedFriend).Some? || old(isSolo)) && old(audioFile).Some?
      ensures !started ==>
        stage == old(stage) && progress == old(progress) && requests == old(requests) && history == old(history)
      ensures started ==>
        var t := ImportTrace(old(selectedFriend).Some?, uploadOk, importOk);
        && history == old(history) + t
        && stage == t[|t| - 1].stage && progress == t[|t| - 1].progress
        && requests == old(requests) + (if uploadOk then [old(selectedFriend)] else [])
      ensures selectedFriend == old(selectedFriend) && isSolo == old(isSolo)
      ensures audioFile == old(audioFile) && left == old(left)
    {
      if (selectedFriend.None? && !isSolo) || audioFile.None? {
        return false;
      }
      started := true;
      var t := ImportTrace(selectedFriend.Some?, uploadOk, importOk);
      // Stage 1: upload
      stage, progress := Uploading, 10;
      history := history + [Snapshot(stage, progress)];
      if !uploadOk {
        stage := Error;
        history := history + [Snapshot(stage, progress)];
        assert t == [Snapshot(Uploading, 10), Snapshot(Error, 10)];
        assert history == old(history) + t;
        return;
      }
      progress := 25;
      history := history + [Snapshot(stage, progress)];
      // Stage 2: process on the backend
      stage, progress := Transcribing, 30;
      history := history + [Snapshot(stage, progress)];
      requests := requests + [selectedFriend];
      if selectedFriend.None? || !importOk {
        stage := Error;
        history := history + [Snapshot(stage, progress)];
        assert t == [Snapshot(Uploading, 10), Snapshot(Uploading, 25), Snapshot(Transcribing, 30), Snapshot(Error, 30)];
        assert history == old(history) + t;
        return;
      }
      // Stage 3: complete
      stage, progress := Complete, 100;
      history := history + [Snapshot(stage, progress)];
      assert t == [Snapshot(Uploading, 10), Snapshot(Uploading, 25), Snapshot(Transcribing, 30), Snapshot(Complete, 100)];
      assert history == old(history) + t;
    }

    /** "Try Again" after a failed import: back to choosing, progress 0,
        solo off; the friend and the file stay. */
    method TryAgain()
      requires Valid() && stage == Error
      modifies this
      ensures Valid()
      ensures stage == SelectingFriend && progress == 0 && !isSolo
      ensures selectedFriend == old(selectedFriend) && audioFile == old(audioFile)
      ensures left == old(left) && requests == old(requests)
      ensures history == old(history) + [Snapshot(SelectingFriend, 0)]
    {
      stage, progress := SelectingFriend, 0;
      isSolo := false;
      history := history + [Snapshot(stage, progress)];
    }
  }
}
