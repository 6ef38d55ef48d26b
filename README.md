# SongEnergy mood decision engine, modelled in Dafny

SongEnergy tags music files with a mood label. It derives a tempo (bpm) and
an energy value from the audio, maps that pair to a mood, and writes the bpm
and the mood into the file's tags (ID3 for MP3, Vorbis comments for FLAC).
This project models the part of `mood_classifier.py` that makes decisions.

- **The mood catalog** (`MoodCatalog`, `mood_catalog.dfy`). It holds the twelve
  categories of `MOOD_CATEGORIES`, in source order. Each one has a name, a
  half-open bpm range, a half-open energy range and an optional fuzzy energy
  threshold (`Option<real>`). The catalog is written as the source's three
  commented groups, concatenated. `DEFAULT_MOOD` ("其它") is the fallback label.
- **The classifier** (`MoodClassifier`, `mood_classifier.dfy`). `ClassifyWith`
  takes any catalog and runs the six tiers of `classify_mood` in order:
  1. the energy override;
  2. the low-tempo override;
  3. the exact 2-D range match;
  4. the fuzzy centre-distance match, open only to entries with a threshold;
  5. the bpm-only match;
  6. the default.

  Each scanning tier is `FirstHit`, a first-match search that returns an index.
  List order is its only tie-break. `ClassifyMood` applies `ClassifyWith` to
  the fixed catalog. `ClassifyMoodScan` and `ScanTier` are the same algorithm
  written as the source's early-returning loops, and they are proved equal to
  the function.
- **Facts about the fixed catalog** (`MoodFacts`, `mood_facts.dfy`). These
  cover which labels can come out and exactly when the default is returned.
  They also show that the fuzzy tier only picks the first seven entries, and
  they check the worked examples.
- **The tagging batch** (`TaggingPipeline`, `tagging_pipeline.dfy`). It models
  `write_tags`' outcome from the extension and from what saving and reading
  back reported. It also models `process_audio_files`' per-file loop and its
  `success_count`. What the external analysis and tag libraries report for
  each file is given as data (`FileReport`).

Bpm and energy are Dafny `real`s. Range centres are exact means of the two
bounds.

Points where the code does less than its own wording suggests; the model
follows the code:
- `verify_tags` (mood_classifier.py:92-112) has the docstring "verify the
  tag-writing result" (line 93). It still returns true whenever reading the
  tags raises no error, and it does not check that the written fields are
  present. `FileReport.readBack` therefore means "reading back raised nothing".
- The batch keeps only `success_count` (mood_classifier.py:167-186). The
  number of failures is the total minus the successes.
- The comment at mood_classifier.py:37 calls the default label unreachable.
  With this catalog it is returned exactly when energy >= 0.05 and
  bpm >= 200 (`MoodFacts.DefaultExactlyFromTwoHundred`).

## Model

| member | source | states |
|---|---|---|
| `MoodCatalog.CatalogWellFormed` | mood_classifier.py:18-37 | The catalog has 12 entries. Every bpm and energy range is non-empty, every present threshold is positive and names are pairwise distinct. The override labels are the names of entries 11, 7 and 4. The default label is no catalog name. |
| `MoodCatalog.Range.Mid` | mood_classifier.py:61-62 | A range's centre is equally far from both bounds and lies inside a non-empty half-open range. |
| `MoodClassifier.Hits` | mood_classifier.py:54-69 | The three scan conditions. An exact or bpm-only hit has bpm inside the entry's half-open bpm range. A fuzzy hit needs a threshold, with bpm strictly within 15 of the bpm centre and energy strictly within the threshold of the energy centre. |
| `MoodClassifier.FirstHit` | mood_classifier.py:53-70 | One tier scan returns the index of an entry the tier accepts, and no earlier entry is accepted. It returns None exactly when the tier accepts no entry. |
| `MoodClassifier.FirstHitUnique` | mood_classifier.py:53-70 | A tier has at most one first accepted entry, so catalog order decides each scan unambiguously. |
| `MoodClassifier.FirstHitExists` | mood_classifier.py:53-70 | If any entry is accepted by a tier, the scan finds one at or before it. |
| `MoodClassifier.ClassifyWith` | mood_classifier.py:44-72 | Energy < 0.05 gives 压抑 for any bpm. Otherwise bpm < 20 gives 空灵 when energy < 0.2 and 忧郁 otherwise, with no scan. Otherwise the first exact match wins. Only if there is none, the first fuzzy match wins. Only if neither exists, the first bpm-only match wins. If no tier matches, the result is the default. |
| `MoodClassifier.ClassifyMood` | mood_classifier.py:44-72 | `classify_mood` over the fixed catalog always returns one of the twelve catalog names or 其它. |
| `MoodClassifier.ClassifyWithRange` | mood_classifier.py:47-72 | For any catalog the label is an override label, a catalog name or the default. |
| `MoodClassifier.EarlierEntryWinsOverlap` | mood_classifier.py:53-56 | When two entries of a well-formed catalog both contain (bpm, energy) and no override fires, the later entry's name is never the result. |
| `MoodClassifier.ScanTier` | mood_classifier.py:53-70 | The loop scan returns the first accepted index, or None when no entry is accepted. It equals `FirstHit`. |
| `MoodClassifier.ClassifyMoodScan` | mood_classifier.py:44-72 | The imperative classifier, with guard returns and three scans, returns the same label as `ClassifyWith` for every catalog and input. |
| `MoodFacts.FuzzyEligibleAreFirstSeven` | mood_classifier.py:20-35 | An entry carries a fuzzy threshold exactly when it is one of the first seven. |
| `MoodFacts.FuzzyTierExcludesOtherMoods` | mood_classifier.py:59-65 | The fuzzy tier only picks one of the first seven entries. It never yields 空灵, 躁动, 迷幻, 温柔 or 压抑. |
| `MoodFacts.CatalogTempoCeiling` | mood_classifier.py:20-35 | Every bpm range ends at or below 200. Every fuzzy-eligible bpm centre is at most 175. |
| `MoodFacts.NoHitFromTwoHundred` | mood_classifier.py:53-70 | From bpm 200 up, none of the three scans accepts any entry, whatever the energy. |
| `MoodFacts.DefaultFromTwoHundred` | mood_classifier.py:68-72 | With energy >= 0.05 and bpm >= 200, every tier misses and 其它 is returned. |
| `MoodFacts.CatalogDecidesBelowTwoHundred` | mood_classifier.py:35-70 | With energy >= 0.05 and 20 <= bpm < 200, the result is a catalog name, because the bpm range [0, 200) of 压抑 always gives a fallback hit. |
| `MoodFacts.DefaultExactlyFromTwoHundred` | mood_classifier.py:35-72 | 其它 is returned if and only if energy >= 0.05 and bpm >= 200. Below 200, the bpm range [0, 200) of 压抑 always gives a fallback hit. |
| `MoodFacts.WorkedExamples` | mood_classifier.py:44-72 | (170, 0.9) gives 亢奋 by exact match. (100, 0.9) falls through to 欢快 by bpm. (10, 0.1) gives 空灵, (10, 0.5) gives 忧郁 and (0, 0.0) gives 压抑. |
| `MoodFacts.NoExactOrFuzzyHitAt100` | mood_classifier.py:53-65 | At bpm 100 and energy 0.9, no entry matches exactly or fuzzily. |
| `TaggingPipeline.Lower` | mood_classifier.py:119-120 | Lower-casing keeps the length, maps each character and leaves no upper-case ASCII letter. |
| `TaggingPipeline.WriteTags` | mood_classifier.py:114-149 | `write_tags` is false for an extension other than .mp3 or .flac in any case, and false when saving failed. With verification on, it is false when reading back failed. Otherwise it is true. |
| `TaggingPipeline.StoredMood` | mood_classifier.py:122-139 | The genre tag written is always one of the twelve catalog names or 其它. It is written exactly when analysis succeeded, the extension is .mp3 or .flac and the save went through, and it is `classify_mood` of the analysed bpm and energy. |
| `TaggingPipeline.Succeeds` | mood_classifier.py:173-175 | A file succeeds exactly when analysis returned values, its extension is .mp3 or .flac in any case, the save went through and, with verification on, reading back raised nothing. |
| `TaggingPipeline.SuccessHasStoredMood` | mood_classifier.py:124-146 | A file counted as a success has had its mood stored. |
| `TaggingPipeline.SuccessCount` | mood_classifier.py:167-177 | The number of successful files never exceeds the number of files. |
| `TaggingPipeline.SuccessCountStep` | mood_classifier.py:171-183 | Processing one more file adds one to the count when analysis returned values and `write_tags` returned true. Otherwise the count is unchanged. |
| `TaggingPipeline.SuccessCountExtremes` | mood_classifier.py:167-186 | The count equals the total exactly when every file succeeded. It is zero exactly when every file failed. |
| `TaggingPipeline.ProcessFile` | mood_classifier.py:171-183 | One loop iteration stores the file's mood as `StoredMood` says. It reports success exactly when the file succeeds, and a success always comes with a stored mood. |
| `TaggingPipeline.ProcessAudioFiles` | mood_classifier.py:160-186 | With no files the batch stops without a summary. Otherwise it reports the success count out of the total. Every file is processed in order, whatever the earlier files did, and the stored mood of each file is as `StoredMood` says. |

## Left out

- Audio feature extraction through librosa is not modelled (mood_classifier.py:74-90). This includes the `np.around` rounding of tempo to one decimal and energy to three. A file's analysis result is an input (`FileReport.features`). The extra `classify_mood` call there only feeds a progress message.
- Reading and writing tags through mutagen is not modelled (mood_classifier.py:99-106, 124-139). Whether saving and reading back went through are inputs (`FileReport.saved`, `FileReport.readBack`). The bpm string written beside the mood is not modelled.
- Directory walking and extension filtering with `os.walk` and `os.path.splitext` are not modelled (mood_classifier.py:154-158). The batch receives the list of files already collected, each with its extension.
- The change to the `PATH` environment variable is not modelled (mood_classifier.py:41). It is process configuration.
- No progress or summary output is modelled. It is printing only.
- The outer `try`/`except` blocks are not modelled (mood_classifier.py:171-183, 188-189). Nothing in the modelled per-file work raises.
- Floating-point behaviour is not modelled. That covers rounding at range boundaries, float means such as (0.85 + 1.0) / 2, and NaN inputs. Bpm and energy are exact reals.
- TaggingPipeline.Lower: lower-cases ASCII letters only, whereas Python's `str.lower` also folds non-ASCII letters; extensions that differ only in non-ASCII case are not distinguished as the source would.
