/** The batch loop of process_audio_files (mood_classifier.py:151-189) and
    the outcome of write_tags (mood_classifier.py:114-149). Feature
    extraction, tag saving and tag reading are external: what they report
    for a file is given as data, and only the decisions the script takes on
    those reports are modelled. */
module TaggingPipeline {
  import opened Wrappers
  import opened MoodCatalog
  import opened MoodClassifier

  /** The extensions write_tags has a branch for (lower case): the .mp3 and
      .flac branches of mood_classifier.py:124 and :134. Any other extension
      is refused. */
  const TaggableExtensions: seq<string> := [".mp3", ".flac"]
  /** Whether write_tags reads the tags back after saving them. */
  const VerifyWriting: bool := true

  /** Tempo and energy as returned by the analysis of one file. */
  datatype AudioFeatures = AudioFeatures(bpm: real, energy: real)

  /** What the external collaborators report for one file: its extension,
      the analysis result (None when analysis failed), whether saving the
      tags went through, and whether reading them back went through. */
  datatype FileReport = FileReport(
    ext: string,
    features: Option<AudioFeatures>,
    saved: bool,
    readBack: bool)

  /** Summary of a non-empty batch. */
  datatype BatchSummary = BatchSummary(successes: nat, total: nat)

  /** ASCII lower-casing of one character. */
  function LowerChar(ch: char): (r: char)
    ensures 'A' <= ch <= 'Z' ==> 'a' <= r <= 'z'
    ensures !('A' <= ch <= 'Z') ==> r == ch
  {
    if 'A' <= ch <= 'Z' then ch - 'A' + 'a' else ch
  }

  /** Lower-casing of an extension, character by character. */
  function Lower(s: string): (r: string)
    ensures |r| == |s|
    ensures forall i :: 0 <= i < |s| ==> r[i] == LowerChar(s[i])
    ensures forall i :: 0 <= i < |r| ==> !('A' <= r[i] <= 'Z')
  {
    seq(|s|, i requires 0 <= i < |s| => LowerChar(s[i]))
  }

  /** write_tags: true when the extension is .mp3 or .flac in any case, the
      tags were saved, and (with VerifyWriting) reading them back raised no
      error. Any other extension is refused before anything is written. */
  function WriteTags(ext: string, saved: bool, readBack: bool, verify: bool): (ok: bool)
    ensures Lower(ext) !in TaggableExtensions ==> !ok
    ensures !saved ==> !ok
    ensures verify && !readBack ==> !ok
    ensures Lower(ext) in TaggableExtensions && saved && (verify ==> readBack) ==> ok
  {
    if Lower(ext) in TaggableExtensions then
      if !saved then false
      else if verify then readBack
      else true
    else false
  }

  /** A file counts as a success: analysis produced both values and
      write_tags returned true. In terms of the collaborators' reports that
      is: analysed, taggable extension, saved and (with VerifyWriting) read
      back. */
  predicate Succeeds(f: FileReport)
    ensures Succeeds(f) <==>
      f.features.Some? && Lower(f.ext) in TaggableExtensions && f.saved && (VerifyWriting ==> f.readBack)
  {
    f.features.Some? && WriteTags(f.ext, f.saved, f.readBack, VerifyWriting)
  }

  /** The mood stored in a file's tags: the classification of its features,
      present only when analysis succeeded, the extension is supported and
      the save went through. */
  function StoredMood(f: FileReport): (m: Option<string>)
    ensures m.Some? <==> f.features.Some? && Lower(f.ext) in TaggableExtensions && f.saved
    ensures m.Some? ==> m.value == ClassifyMood(f.features.value.bpm, f.features.value.energy)
    ensures m.Some? ==> m.value in Names(MoodCategories) + [DefaultMood]
  {
    if f.features.Some? && Lower(f.ext) in TaggableExtensions && f.saved then
      Some(ClassifyMood(f.features.value.bpm, f.features.value.energy))
    else None
  }

  /** Every counted success has had its mood stored. */
  lemma SuccessHasStoredMood(f: FileReport)
    requires Succeeds(f)
    ensures StoredMood(f).Some?
  {
  }

  /** The number of successes among files, counted from the front. */
  function SuccessCount(files: seq<FileReport>): (n: nat)
    ensures n <= |files|
  {
    if files == [] then 0
    else SuccessCount(files[..|files| - 1]) + (if Succeeds(files[|files| - 1]) then 1 else 0)
  }

  /** One more file raises the count by one when it succeeds and leaves it
      unchanged when it fails. */
  lemma SuccessCountStep(files: seq<FileReport>, f: FileReport)
    ensures SuccessCount(files + [f]) == SuccessCount(files) + (if Succeeds(f) then 1 else 0)
  {
    assert (files + [f])[..|files|] == files;
  }

  /** The body of the per-file loop: analysis result checked, then
      write_tags, which classifies first and writes only for a supported
      extension. Returns the mood stored and whether the file succeeded. */
  method ProcessFile(f: FileReport) returns (mood: Option<string>, ok: bool)
    ensures mood == StoredMood(f)
    ensures ok == Succeeds(f)
    ensures ok ==> mood.Some?
  {
    mood, ok := None, false;
    if f.features.Some? {
      var moodLabel := ClassifyMood(f.features.value.bpm, f.features.value.energy);
      if Lower(f.ext) in TaggableExtensions && f.saved {
        mood := Some(moodLabel);
      }
      ok := WriteTags(f.ext, f.saved, f.readBack, VerifyWriting);
    }
  }

  /** The summary reads "all succeeded" exactly when every file succeeded,
      and "none succeeded" exactly when every file failed. */
  lemma {:induction false} SuccessCountExtremes(files: seq<FileReport>)
    ensures SuccessCount(files) == |files| <==> forall i :: 0 <= i < |files| ==> Succeeds(files[i])
    ensures SuccessCount(files) == 0 <==> forall i :: 0 <= i < |files| ==> !Succeeds(files[i])
    decreases |files|
  {
    if files != [] {
      var init := files[..|files| - 1];
      SuccessCountExtremes(init);
      assert forall i :: 0 <= i < |init| ==> init[i] == files[i];
    }
  }

  /** process_audio_files: None when there is no file (the script stops
      before processing), otherwise the count of successes out of the total.
      No single file's failure stops the batch; every file's stored mood is
      reported in order. */
  method ProcessAudioFiles(files: seq<FileReport>) returns (summary: Option<BatchSummary>, stored: seq<Option<string>>)
    ensures files == [] <==> summary.None?
    ensures summary.Some? ==> summary.value == BatchSummary(SuccessCount(files), |files|)
    ensures |stored| == |files|
    ensures forall i :: 0 <= i < |files| ==> stored[i] == StoredMood(files[i])
  {
    if files == [] {
      return None, [];
    }
    var successCount := 0;
    stored := [];
    var idx := 0;
    while idx < |files|
      invariant 0 <= idx <= |files|
      invariant successCount == SuccessCount(files[..idx])
      invariant |stored| == idx
      invariant forall i :: 0 <= i < idx ==> stored[i] == StoredMood(files[i])
    {
      var f := files[idx];
      var mood, ok := ProcessFile(f);
      if ok {
        successCount := successCount + 1;
      }
      stored := stored + [mood];
      SuccessCountStep(files[..idx], f);
      assert files[..idx + 1] == files[..idx] + [f];
      idx := idx + 1;
    }
    assert files[..idx] == files;
    summary := Some(BatchSummary(successCount, |files|));
  }
}
