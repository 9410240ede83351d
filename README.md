# Video batch tools and a transport-stream parser, modelled in Dafny

This project models the decision and parsing logic of a small collection of
video tools and proves properties of it. Each source file has its own module.

- **av1conv.py**, a batch AV1 converter. It covers:
  - its configuration (`Config` defaults, the `key=value` file loader,
    `_size_to_bytes`, `_parse_bool`, the command-line overrides);
  - media classification (HDR, Dolby Vision, content type, film grain);
  - audio and subtitle stream choice and the skip filter;
  - the FFmpeg argument list of `build_encode_plan`;
  - the keep-or-revert rule of `execute_plan`;
  - the per-file results of `process_batch` and the exit status of `main`.

  Modules: `Av1Config`, `Av1Args`, `Av1Media`, `Av1Plan`, `Av1Batch`.
- **TSParser.py**, an MPEG-2 transport-stream parser (ISO/IEC 13818-1). It covers:
  - big-endian reads from a byte buffer and the packet header;
  - the adaptation field and its PCR;
  - the PES header, PTS and H.264 access-unit type;
  - PAT, PMT and SIT sections with their descriptor loops;
  - the packet walk of `parseTSMain`, as a loop over the file offset.

  Modules: `TsBytes`, `TsPes`, `TsPsi`, `TsMain`. `SystemClock` and
  `PESPacketInfo` are classes whose methods update their fields.
- **findOptimumBitrate.py**, ffprobe output parsing and the bit-rate
  recommendation, on exact reals. Module: `Bitrate`.
- **gpt_video_compress.py**, a batch compressor. It covers:
  - its configuration and FFmpeg command;
  - the counters of `CompressionStats`, a class;
  - sorted, duplicate-free file discovery;
  - the outcome of `process_video`.

  Module: `GptCompress`.
- **2pass_compress.py** and **batch_compress_and_compare.py**, two scripts
  that encode, compare the probes of the input and the result, and then move
  the files. Modules: `TwoPass`, `Compare`. Both share:
  - `ProbeSummary`, the `extract_summary` reducer, whose one difference
    between the scripts is a parameter;
  - `Report`, the comparison table and its cell formats.

Shared helpers: `Common` holds strings and Python's `int()`/`float()`
text grammars, `Json` decoded JSON values with Python truthiness, and
`Paths` `pathlib` names, suffixes and path ordering.

Effects are modelled as values:
- **Observed values as inputs.** What a run observes is an input to the
  model: file sizes, probe records, FFmpeg exit codes, whether a file
  exists, the timestamp.
- **File actions.** What a run does to files is a list of actions:
  run FFmpeg, move, discard.
- **File system in av1conv.** It is a map from paths to sizes, held by a
  `Disk` object.

The design description of the system also names a concurrent job
scheduler, a progress monitor and an interrupt controller. The source
files contain none of them. The model follows the code, and its batches
are sequential folds.

## Model

| member | source | states |
|---|---|---|
| Common.ParseIntTextRoundTrip | av1conv.py:281 | `int(str(i)) == i` for every integer |
| Common.SplitOnceUnique | av1conv.py:267 | `split("=", 1)` splits at the first `=`: the part before it has none, and the rest is kept whole |
| Common.Repr | av1conv.py:910-913 | `repr()` of a text is the text between matching quotes, double ones exactly when it holds a single quote and no double quote |
| Common.ReprPlain | av1conv.py:910-913 | a text that needs no escape is written between its quotes unchanged |
| Common.ListText | av1conv.py:910-913 | `str()` of a list of texts is bracketed |
| Json.PyInt | batch_compress_and_compare.py:110 | `int()` of a decoded value: an integer is itself, a float is truncated towards zero, a bool is 0 or 1, a string is read as a decimal literal, and null, lists and mappings raise |
| Json.PyFloat | batch_compress_and_compare.py:109 | `float()` of a decoded value: a number is itself, a string is read as a float literal, and null, lists and mappings raise |
| Av1Config.DefaultsComplete | av1conv.py:107-157 | every `Config` attribute has a value: the default the dataclass declares |
| Av1Config.ContentTypeCrf | av1conv.py:166-172 | "animation", "film" and "tv" select their own CRF; every other label falls back to the general `crf` |
| Av1Config.ContentTypePreset | av1conv.py:174-180 | the same three labels select their own preset; every other label falls back to `preset` |
| Av1Config.SizeToBytes | av1conv.py:94-104 | accepted exactly when the stripped text is digits with at most one k/m/g/t suffix of either case; the value is the number times 1024 to the suffix's power; anything else is the "Invalid size value" error |
| Av1Config.Pow1024Grows | av1conv.py:94-104 | each larger size suffix multiplies by at least 1024 more than a smaller one |
| Av1Config.SizeToBytesRoundTrip | av1conv.py:94-104 | a number written in decimal with a valid suffix reads back as the number times the suffix's multiplier |
| Av1Config.PlainRoundTrip | av1conv.py:94-104 | digits without a suffix read back as their decimal value |
| Av1Config.SuffixedRoundTrip | av1conv.py:94-104 | digits with one suffix letter read back as their value times 1024 to that letter's power |
| Av1Config.DefaultSizeThreshold | av1conv.py:120 | the default threshold "1G" is 2^30 bytes |
| Av1Config.TupleItems | av1conv.py:284-286 | the items of a tuple value are stripped and none of them is empty |
| Av1Config.ApplyEntry | av1conv.py:267-290 | one line changes at most the attribute it names; an empty value makes that attribute `None` |
| Av1Config.ConfigObject.Apply | av1conv.py:267-290 | one pass of the loader's loop leaves the configuration as `ApplyEntry` of the classified line |
| Av1Config.LoadConfigFile | av1conv.py:250-290 | a missing file raises FileNotFoundError and changes nothing; otherwise the configuration becomes the lines applied in order |
| Av1Config.LoadLinesAppend | av1conv.py:260-290 | reading two files in turn is reading their lines joined |
| Av1Config.LoadLinesFixed | av1conv.py:260-290 | lines that each leave a configuration unchanged leave it unchanged together |
| Av1Config.EntryLineRoundTrip | av1conv.py:261-269 | a line `key=text` naming an attribute splits at the first `=` into that attribute and that text |
| Av1Config.ClassifyStrippedLine | av1conv.py:261 | white space around a line does not change how it is read |
| Av1Config.CommentLineBlank | av1conv.py:262-263 | a line starting with `#` is skipped whatever follows |
| Av1Config.RenderedValueUnchanged | av1conv.py:273-288 | storing the rendered text of an attribute's current value stores the same value |
| Av1Config.RenderedConverted | av1conv.py:276-288 | the type-directed conversion of a rendered value gives that value back |
| Av1Config.RenderedEntryUnchanged | av1conv.py:260-290 | a `key=value` line that writes an attribute's current value leaves the whole configuration unchanged |
| Av1Config.SampleCommentsKept | av1conv.py:183-192 | the comment lines of the sample file are skipped |
| Av1Config.SampleConfigKeepsDefaults | av1conv.py:183-239 | loading the generated sample file into a default configuration changes no attribute |
| Av1Config.ConfigObject.constructor | av1conv.py:107-157 | a new configuration holds every declared default |
| Av1Config.LoadLines | av1conv.py:260-290 | reading lines keeps a value for every attribute |
| Av1Config.RendersAllKept | av1conv.py:183-239 | entries that write the current values are read back without change |
| Av1Config.CommentKept | av1conv.py:262-263 | a comment line changes nothing |
| Av1Config.ParseBoolIgnoresCase | av1conv.py:246-247 | `_parse_bool` ignores case: a value and its lower-cased form give the same flag |
| Av1Media.Suffix | av1conv.py:724 | the suffix is empty or starts with a dot and ends the name |
| Av1Media.Stem | av1conv.py:756 | the stem followed by the suffix is the name |
| Av1Media.OrElse | av1conv.py:788-790 | `value or fallback`: the fallback replaces a missing and an empty value, and only those |
| Av1Media.IsHdr | av1conv.py:471-480 | HDR exactly when the lower-cased transfer is smpte2084, arib-std-b67 or iec61966-2-4, or some side-data entry names mastering-display or content-light metadata |
| Av1Media.LastProfile | av1conv.py:487-490 | the profile consulted is that of the last entry holding `dv_profile`, and none when no entry holds it |
| Av1Media.HasDolbyVision | av1conv.py:482-497 | Dolby Vision exactly when some side data is of Dolby Vision type, the last `dv_profile` is truthy, or the codec tag starts with "dv" |
| Av1Media.LaterProfileWins | av1conv.py:486-489 | for any earlier entries, a later entry holding `dv_profile` replaces the profile and one without it leaves the profile as it was |
| Av1Media.FalsyProfileHides | av1conv.py:483-496 | for any stream without Dolby Vision side data whose last profile entry is falsy, Dolby Vision is decided by the codec tag alone, whatever the earlier profiles were |
| Av1Media.DetectContentType | av1conv.py:576-600 | "tv" exactly when the television keywords match (name, then title); otherwise "animation" exactly when the animation keywords match or the video is 8-bit yuv420p; otherwise "film" |
| Av1Media.DetectedTypeHasSettings | av1conv.py:166-180 | every detected label has its own CRF and preset, so the general ones are never the fallback for it |
| Av1Media.GrainForRate | av1conv.py:616-624 | the strength is one of 0, 8, 12 and 20 |
| Av1Media.GrainForRateMonotone | av1conv.py:618-624 | a higher bit rate never gets less grain |
| Av1Media.EstimateGrainLevel | av1conv.py:603-624 | one of 0, 8, 12 and 20; 0 for HDR or a zero duration or size; otherwise the strength for size × 8 / duration |
| Av1Media.EstimateMonotoneInSize | av1conv.py:612-624 | of two SDR files of the same length, the larger gets at least as much grain |
| Av1Media.BestIndex | av1conv.py:651 | `max(..., key=score)`: no element scores higher than the chosen one, and every earlier element scores lower |
| Av1Media.WithLanguageMembers | av1conv.py:636 | the candidates are exactly the streams whose lower-cased language is the preferred one |
| Av1Media.AudioCandidates | av1conv.py:636-638 | some stream is a candidate whenever there is any audio stream |
| Av1Media.ChooseAudioStream | av1conv.py:632-653 | no audio streams is the "No audio streams found" error; otherwise a stream is chosen exactly when the preferred language is a string |
| Av1Media.ChosenAudioIsBest | av1conv.py:632-653 | the chosen stream is an audio stream, in the preferred language whenever one is; no candidate scores higher, and every earlier candidate scores lower |
| Av1Media.WantedSubtitlesMembers | av1conv.py:663-669 | the loop selects exactly the streams that pass the language test and, in forced-only mode, are flagged forced |
| Av1Media.WantedSubtitlesSnoc | av1conv.py:663-669 | one more stream adds itself to the selection exactly when it passes the test |
| Av1Media.FallbackFindsNothing | av1conv.py:671-672 | the language fallback never adds a stream: an empty selection outside forced-only mode means no stream has the preferred language |
| Av1Media.ChooseSubtitleStreams | av1conv.py:656-682 | the result is the specified choice; when it succeeds it holds exactly the subtitle streams that pass the test |
| Av1Media.Chars | av1conv.py:731 | iterating over a string yields its characters, one at a time |
| Av1Media.IgnoreKeywords | av1conv.py:731 | two tuples concatenate to their items |
| Av1Media.AnyKeywordIn | av1conv.py:730-733 | true exactly when some keyword, upper-cased, occurs in the upper-cased name |
| Av1Media.SkipRule | av1conv.py:721-734 | a regular video file that is not an earlier output is skipped exactly when it is below the threshold without `force` or carries an ignore keyword |
| Av1Media.AlwaysSkipped | av1conv.py:721-727 | a missing file, a foreign extension and a `.av1.mkv` output are skipped whatever the configuration |
| Av1Plan.IntLike | av1conv.py:753 | an `int` compares as itself; anything but `bool` and `int` cannot be compared with an `int` |
| Av1Plan.FilmGrain | av1conv.py:751-753 | without grain detection the configured strength; with it `max(configured, estimate)`, which is at least both and one of them, or a TypeError for a non-numeric setting |
| Av1Plan.PixelFormat | av1conv.py:782 | one of `yuv420p10le` and `yuv420p` |
| Av1Plan.AudioCodec | av1conv.py:850-860 | libopus when the build has it, else AAC, and none (the error) when it has neither |
| Av1Plan.LeadArgs | av1conv.py:761-763 | four words under `nice -n 10` in lazy mode, the program alone otherwise |
| Av1Plan.CoreArgs | av1conv.py:764-785 | twenty fixed-position words from `-hide_banner` to the thread count |
| Av1Plan.HdrMetadataArgsSnoc | av1conv.py:799-811 | the HDR metadata flags grow entry by entry |
| Av1Plan.GrainArgs | av1conv.py:823-824 | the grain flag is absent exactly for a falsy strength |
| Av1Plan.SvtArgs | av1conv.py:826-847 | ten SVT-AV1 flags, each with its value |
| Av1Plan.SubtitleStreamArgs | av1conv.py:866-870 | a subtitle stream adds its mapping and codec and, when forced, the forced flag |
| Av1Plan.SubtitleArgs | av1conv.py:865-870 | four to six words per chosen subtitle stream |
| Av1Plan.SubtitleArgsSnoc | av1conv.py:865-870 | the subtitle flags grow stream by stream, numbered by position |
| Av1Plan.SideDataSection | av1conv.py:799-811 | the loop over one side-data entry yields that entry's flags |
| Av1Plan.HdrSection | av1conv.py:787-811 | the HDR branch yields the colour tags with their defaults and then the metadata of every entry |
| Av1Plan.SdrSection | av1conv.py:812-818 | the SDR branch yields only the tags the source has |
| Av1Plan.ColourSection | av1conv.py:787-818 | the colour section is the specified colour tags |
| Av1Plan.SubtitleSection | av1conv.py:865-870 | the `enumerate` loop yields the specified subtitle flags |
| Av1Plan.BuildEncodePlan | av1conv.py:737-887 | the method's plan, or its error, is the specified plan |
| Av1Plan.PlanRefusals | av1conv.py:741-745 | a plan exists only for a non-AV1 source (unless forced) that is not Dolby Vision while those are skipped, and each refusal is its own error |
| Av1Plan.CommandEnds | av1conv.py:761-878 | the command starts with the program and the core arguments and ends with the temporary file |
| Av1Plan.CoreArgsSettings | av1conv.py:764-785 | the core arguments carry the input, the preset, the CRF and the pixel format at fixed places |
| Av1Plan.PlanShape | av1conv.py:737-887 | a plan is the command around the chosen streams, the temporary file in the temporary directory, the destination next to the source and the source's size |
| Av1Plan.CommandInput | av1conv.py:761-768 | after the optional `nice` the program comes, then the input after `-i` |
| Av1Plan.CommandSettings | av1conv.py:775-782 | preset, CRF and pixel format sit at fixed places after the program |
| Av1Plan.PlanCommandLayout | av1conv.py:755-887 | the plan's command has that layout and ends with the temporary file `<stem>.tmp.mkv`; the destination is `<stem>.av1.mkv` next to the source |
| Av1Plan.ResizeRule | av1conv.py:820-821 | the scale filter is added exactly for a source taller than a numeric target with resizing on; a non-numeric target is an error there and only there |
| Av1Plan.PixelFormatRule | av1conv.py:782 | 10-bit exactly for HDR or a depth above 8, a missing depth counting as 8 |
| Av1Plan.CrfPresetRule | av1conv.py:747-749 | without grain detection the general CRF and preset; with it those of the detected content type |
| Av1Plan.GrainFlagRule | av1conv.py:751-753 | the grain flag appears exactly for a nonzero strength, which without detection is the configured one |
| Av1Plan.PairsAppend | av1conv.py:812-818 | reading flag/value pairs distributes over concatenation |
| Av1Plan.SdrColourTags | av1conv.py:812-818 | an SDR source gets exactly the colour tags it carries, each with its value, and no others |
| Av1Plan.HdrColourTags | av1conv.py:787-798 | an HDR source always gets all three colour tags, the missing ones as bt2020, bt2020nc and smpte2084 |
| Av1Plan.OutputIsSkippedLater | av1conv.py:726 | the final `.av1.mkv` name is selected by the skip filter whatever the configuration |
| Av1Batch.OutputFilteredLater | av1conv.py:997-999 | without `force`, a later run passes over the final `.av1.mkv` file as filtered, leaving the disk unchanged |
| Av1Batch.WithoutDir | av1conv.py:912 | `rmtree` removes exactly the files of the directory and leaves the others as they were |
| Av1Batch.Disk.Unlink | av1conv.py:923 | `unlink` removes the one file and changes nothing else |
| Av1Batch.Disk.Move | av1conv.py:924 | `shutil.move` takes the file's bytes to the destination and removes the source name |
| Av1Batch.Disk.RemoveTree | av1conv.py:912 | `rmtree` leaves the files outside the directory |
| Av1Batch.Decide | av1conv.py:930-960 | the keep/revert rule yields a consistent result — a revert is always a skip that saves nothing — with the revert or the success message |
| Av1Batch.Place | av1conv.py:920-930 | after the move and the clean-up, any result is consistent and carries one of the two messages |
| Av1Batch.Execute | av1conv.py:905-960 | `execute_plan`: any result is consistent and carries one of the two messages; a non-zero exit status is the error "ffmpeg failed: " followed by the `CalledProcessError` text with the command list and the status |
| Av1Batch.KeepOrRevert | av1conv.py:930-960 | the method's result and disk are those of `Decide` |
| Av1Batch.PlaceOutput | av1conv.py:920-929 | the method's result and disk are those of `Place` |
| Av1Batch.ExecutePlan | av1conv.py:905-960 | the method's result and disk are those of `Execute` |
| Av1Batch.SuffixHasOneDot | av1conv.py:756 | a suffix holds no dot after its first character |
| Av1Batch.FinalIsNotSource | av1conv.py:756 | the final destination `<stem>.av1.mkv` is never the source |
| Av1Batch.PlanIsSeparate | av1conv.py:755-759 | a plan's temporary file is inside its fresh temporary directory and neither the source nor the destination is |
| Av1Batch.RevertRule | av1conv.py:934-951 | an encode no smaller than the source, without `allow_larger_files`, is deleted and reported as a reverted skip with no savings; the source is left exactly as it was |
| Av1Batch.KeepRule | av1conv.py:934-960 | otherwise the encode stays at the destination with its size, the savings are the size difference, and the source goes exactly when `remove_input_file` is set |
| Av1Batch.FailureTouchesNothing | av1conv.py:908-918 | a failed run or a missing output raises and changes no file outside the temporary directory |
| Av1Batch.ProcessOutcome | av1conv.py:996-1003 | `process_file`: any result it returns is consistent |
| Av1Batch.ProcessFile | av1conv.py:996-1003 | the method's result and disk are those of `ProcessOutcome` |
| Av1Batch.ForceNeverFilters | av1conv.py:997-999 | with `force` set, no file is reported as filtered by heuristics |
| Av1Batch.Batch | av1conv.py:1030-1033 | one result per path, every one consistent |
| Av1Batch.BatchSnoc | av1conv.py:1032-1033 | each file sees the disk the files before it left |
| Av1Batch.SummariseSnoc | av1conv.py:1010-1028 | the report grows by one worker's update per file |
| Av1Batch.SessionReport.Record | av1conv.py:1010-1028 | one worker's update: an exception is a failure and a skip; otherwise a skip or a processed file with its savings, and a revert counted as well |
| Av1Batch.BatchStep | av1conv.py:1032-1033 | one turn of the loop keeps the disk and the report at their specified values |
| Av1Batch.RecordStep | av1conv.py:1010-1028 | the worker's update keeps the report at its specified value |
| Av1Batch.ProcessBatch | av1conv.py:1006-1041 | the report and the disk after the loop are the specified batch's |
| Av1Batch.ErrorCountSnoc | av1conv.py:1014-1016 | each error adds one failure |
| Av1Batch.SavingsSumSnoc | av1conv.py:1024-1025 | each processed file adds its savings |
| Av1Batch.SummaryTotals | av1conv.py:1010-1028 | processed + skipped is the number of inputs, failures are the errors, the total savings are those of the processed files, and reverts never outnumber skips |
| Av1Batch.ExitStatus | av1conv.py:1121 | `main`'s status is 0 or 1 |
| Av1Batch.BatchReport | av1conv.py:1006-1041 | for a whole batch the counters add up, and `main` returns 1 exactly when some file raised |
| Av1Batch.ErrorCountPositive | av1conv.py:1121 | some result is an error exactly when the error count is positive |
| Av1Batch.SessionReport.constructor | av1conv.py:968-974 | a new report has all counters at zero and no failures |
| Av1Args.Given | av1conv.py:338-344 | the `setattr` loop applies exactly the namespace entries that are not `None` and name an attribute, with their values |
| Av1Args.Finish | av1conv.py:346-359 | the steps after the loop keep every attribute defined |
| Av1Args.ApplyArgs | av1conv.py:337-359 | `apply_args_to_config` on values keeps every attribute defined |
| Av1Args.ApplyArgsToConfig | av1conv.py:337-359 | the method leaves the configuration as `ApplyArgs` of the old one |
| Av1Args.FlagsAlwaysGiven | av1conv.py:305-331 | the `store_true`/`store_false` flags and `--ignore` always have a value in the namespace, so they are always set |
| Av1Args.ValuedOptionsGiven | av1conv.py:310-319 | an option with a value is set exactly when it was given |
| Av1Args.GivenWins | av1conv.py:338-344 | an attribute the namespace sets ends with that value, except `force` |
| Av1Args.ForceDecided | av1conv.py:358-359 | `force` ends as `--force` or `--force-reencode`, and re-encoding always implies `force` |
| Av1Args.ResizeDecided | av1conv.py:346-351 | `--resize-720p` wins over `--resize-1080p`; with neither, the resize settings stay as they were |
| Av1Args.NotGivenKept | av1conv.py:338-359 | an attribute the namespace does not set keeps its value, apart from the ones the later steps derive |
| Av1Args.FileFlagOverridden | av1conv.py:337-344 | as written, a flag left off the command line overwrites `verbose=true` from the configuration file |
| Av1Args.FileFlagsIgnored | av1conv.py:337-344 | as written, for any configuration, every flag and `--ignore` left off the command line ends at its `argparse` default |
| Av1Args.FlagEntryApplied | av1conv.py:273-279 | for any `bool` attribute, a non-empty value stores whether its lower-cased text is a true word |
| Av1Args.VerboseLineLoaded | av1conv.py:260-279 | reading `verbose=true` into the defaults switches `verbose` on |
| Av1Args.VerboseLineClassified | av1conv.py:261-269 | the line `verbose=true` is read as the `verbose` attribute with the text "true" |
| Av1Args.IntendedValue | av1conv.py:337-344 | the corrected rule counts an option only when it differs from its `argparse` default, and then with its value |
| Av1Args.GivenIntended | av1conv.py:337-344 | the corrected loop applies exactly the options counted as given |
| Av1Args.ApplyArgsIntended | av1conv.py:337-359 | the corrected `apply_args_to_config` keeps every attribute defined |
| Av1Args.IntendedKeepsFile | av1conv.py:337-359 | with no option given, the corrected version keeps every setting of the file; only `force_reencode` still implies `force` |
| Av1Args.IntendedGivenWins | av1conv.py:338-344 | an option the corrected version counts as given wins |
| Av1Args.IntendedFileFlagKept | av1conv.py:337-344 | the corrected version keeps `verbose=true` from the configuration file |
| Av1Args.IntendedFlagsKept | av1conv.py:337-344 | the corrected version keeps, for any configuration, the file's value of every flag and of `--ignore` left off the command line |
| Bitrate.SafeInt | findOptimumBitrate.py:118-130 | the placeholders "N/A", "" and `None` give none; anything else is what `int()` gives |
| Bitrate.SafeIntRoundTrip | findOptimumBitrate.py:118-130 | an integer, or its decimal text, reads back as itself |
| Bitrate.ParseFraction | findOptimumBitrate.py:95-115 | a falsy value gives none, a truthy non-text value raises AttributeError, and a rate comes only from text |
| Bitrate.DigitsFloat | findOptimumBitrate.py:95-115 | digits read through `float()` as their decimal value |
| Bitrate.ParseFractionSplit | findOptimumBitrate.py:95-115 | text with a slash is split at the first one; the quotient is taken unless a side is refused or the denominator is zero |
| Bitrate.ParseFractionRatio | findOptimumBitrate.py:95-115 | `"30000/1001"`-style text gives the quotient of the two numbers |
| Bitrate.ParseFractionZero | findOptimumBitrate.py:95-115 | a zero denominator gives no rate |
| Bitrate.ParseFractionPlain | findOptimumBitrate.py:95-115 | text without a slash is read by `float()` alone |
| Bitrate.StreamEntry | findOptimumBitrate.py:136-151 | a mapping that is not a usable video stream is passed over; a usable one gives its width, height, frame rate, bit rate and codec; only the frame-rate text can raise |
| Bitrate.FirstVideoFound | findOptimumBitrate.py:133-152 | the first usable video entry is the one returned, whatever follows it |
| Bitrate.FirstVideoNone | findOptimumBitrate.py:152 | with no usable video entry among mappings, there is no stream |
| Bitrate.FirstVideoSource | findOptimumBitrate.py:133-152 | a returned stream comes from a usable video entry before which every entry was a mapping that was passed over |
| Bitrate.ParseVideoStream | findOptimumBitrate.py:133-152 | the loop with its early return gives the first usable video stream |
| Bitrate.StreamsOf | findOptimumBitrate.py:172-175 | a value that is not iterable gives no stream; a list gives its first usable video stream |
| Bitrate.Duration | findOptimumBitrate.py:164-168 | a placeholder duration gives none; otherwise what `float()` gives |
| Bitrate.ParseFfprobeOutput | findOptimumBitrate.py:155-183 | the probe keeps the path and the stream; without a format mapping duration, size and bit rate are unset, and otherwise they are read from it |
| Bitrate.PlaceholderDuration | findOptimumBitrate.py:164 | a placeholder duration leaves the duration unset |
| Bitrate.AverageBitrate | findOptimumBitrate.py:85-92 | the format's bit rate when present; otherwise size × 8 / duration, known exactly when both are known and the duration is nonzero |
| Bitrate.BitrateFromBitsPerPixel | findOptimumBitrate.py:211-225 | positive inputs give the smallest whole rate at least pixels × frames × bits; otherwise the ValueError message of the first failing test: dimensions, then frame rate, then bits per pixel |
| Bitrate.BitsPerPixel | findOptimumBitrate.py:228-237 | positive inputs give the positive bits per pixel and frame; otherwise the ValueError message of the first failing test: dimensions, then frame rate, then bitrate |
| Bitrate.BitsPerPixelInverse | findOptimumBitrate.py:211-237 | the bits per pixel of a rate give back that rate, rounded up |
| Bitrate.Clamp | findOptimumBitrate.py:270-273 | the result is never above the maximum, at least the minimum unless that exceeds the maximum, and the candidate itself when it is in range |
| Bitrate.FrameRate | findOptimumBitrate.py:262 | a missing or zero frame rate falls back |
| Bitrate.RecommendBitrate | findOptimumBitrate.py:240-274 | without a stream the clamped truncated average, an error exactly when there is none; with one the clamped bits-per-pixel rate, an error exactly when that one is; every error is one of the four messages the source raises |
| Bitrate.RecommendBounds | findOptimumBitrate.py:270-274 | a recommendation is never above the maximum and is at least the minimum unless the minimum exceeds the maximum |
| Bitrate.RecommendCoversTarget | findOptimumBitrate.py:262-268 | with a stream and no bounds, the recommendation covers the target bits per pixel |
| Bitrate.RecommendFallbackFps | findOptimumBitrate.py:262 | a missing and a zero frame rate both give the fallback's result |
| Bitrate.RecommendIgnoresFormat | findOptimumBitrate.py:255-268 | with a stream, the format section plays no part |
| Bitrate.DefaultConfig | findOptimumBitrate.py:288-295 | the defaults are 0.085 bits per pixel, 30 frames per second, no bounds, and the `FFPROBE` variable or "ffprobe" |
| Bitrate.Analysis | findOptimumBitrate.py:341-352 | each result keeps its probe and carries either a recommendation or the error, never both; the error is `str()` of the ValueError, its message |
| Bitrate.AnalysePaths | findOptimumBitrate.py:328-353 | on success one analysis per path in order; otherwise the first probe failure, before which every probe succeeded |
| TsBytes.BigEndianBound | TSParser.py:53-72 | a big-endian field of `width` bytes is below 256 to the power `width` |
| TsBytes.ReadFile | TSParser.py:53-72 | a read of 1, 2 or 4 bytes succeeds exactly when that many bytes remain at the position; otherwise it is the error `struct.unpack` raises |
| TsBytes.ReadFileBound | TSParser.py:53-72 | a value read is below 256 to the power of its width |
| TsBytes.ReadFour | TSParser.py:58-62 | a four-byte read is the `>L` unsigned big-endian value of those bytes |
| TsBytes.ReadTwo | TSParser.py:63-67 | a two-byte read is the `>H` unsigned big-endian value of those bytes |
| TsBytes.ReadOne | TSParser.py:68-72 | a one-byte read is that byte |
| TsBytes.Bits | TSParser.py:80 | a shift-and-mask `(x >> s) & (2^w - 1)` is below `2^w`, and zero when `x` is below `2^s` |
| TsBytes.TopByte | TSParser.py:431 | `x >> 24` of a four-byte read is its first byte, the pointer field |
| TsBytes.StartCodeBytes | TSParser.py:113 | the test `(x & 0xFFFFFF00) == 0x100` on a four-byte read holds exactly when its first three bytes are 00 00 01 |
| TsBytes.LowBitsOfLastByte | TSParser.py:119 | `x & 0x1F` of a four-byte read is the NAL unit type of its last byte |
| TsBytes.LowByte | TSParser.py:187 | `x & 0xFF` of a four-byte read is its last byte |
| TsBytes.HeaderPusi | TSParser.py:374 | payload_unit_start_indicator is bit 6 of the header's second byte |
| TsBytes.HeaderPid | TSParser.py:376 | the PID is the five low bits of the second byte followed by the third byte, so below 0x2000 |
| TsBytes.HeaderControl | TSParser.py:382 | adaptation_field_control is bits 5-4 of the fourth byte |
| TsBytes.PacketHeaderFields | TSParser.py:367-382 | the sync byte, payload_unit_start_indicator, PID and adaptation_field_control are the header fields of section 2.4.3.2 of ISO/IEC 13818-1 |
| TsPes.SystemClock.constructor | TSParser.py:22-25 | a new clock holds a zero PCR |
| TsPes.SystemClock.SetPCR | TSParser.py:26-29 | the clock holds exactly the three fields given |
| TsPes.PcrFieldsSplit | TSParser.py:82-86 | the fields taken from the two reads are in range (1, 32 and 9 bits) and together are the 33-bit base and 9-bit extension the adaptation field carries |
| TsPes.PcrLoAsWrittenRepeatsHi | TSParser.py:85 | as written, `PCR_base_lo` for a base of 2^32 is 2^32 itself, so it repeats the bit `PCR_base_hi` holds, where the 32-bit field is 0 |
| TsPes.AdaptationRule | TSParser.py:74-88 | the length returned is the length byte plus one; flags are read only when that byte is positive; a PCR is read exactly when PCR_flag is set, and it is in range; reading past the end fails |
| TsPes.ParseAdaptationField | TSParser.py:74-88 | returns the length and flags of `AdaptationField`, sets the clock to the PCR when one is carried and otherwise leaves it unchanged |
| TsPes.PtsPartsRange | TSParser.py:90-100 | `PTS_hi` is one bit and `PTS_low` fits in 32 bits; together they are the 33-bit time stamp, without its marker bits |
| TsPes.GetPTSRange | TSParser.py:90-100 | the time stamp can be read exactly when five bytes remain, and then its parts are in range |
| TsPes.PtsMsb24Rule | TSParser.py:404 | `PTS_MSB24` is below 2^24 and is the 33-bit time stamp shifted right by nine bits |
| TsPes.PrefixSearchRule | TSParser.py:110-117 | a start code found is the first at offsets 0 to 100 with every earlier offset readable and without one; none found means all 101 offsets were read and none holds one |
| TsPes.PrefixSearchReads | TSParser.py:110-117 | the search cannot fail once the 101 offsets can be read |
| TsPes.AuTypeRule | TSParser.py:119-125 | after the first start code, NAL unit type 9 gives "IDR_picture" exactly when primary_pic_type is 0 and "non_IDR_picture" otherwise; any other unit type gives `None` |
| TsPes.AuTypeUnknown | TSParser.py:113-116 | with no start code at any of the 101 offsets the result is "Unknown AU type" |
| TsPes.ParseIndividualPESPayload | TSParser.py:102-125 | the loop's result is `AuType`: the first start code within 100 bytes classified as above |
| TsPes.PESPacketInfo.constructor | TSParser.py:34-38 | a new record has zero time stamp and stream id and an empty access-unit type |
| TsPes.PESPacketInfo.SetPTS | TSParser.py:39-41 | only the time stamp changes |
| TsPes.PESPacketInfo.SetStreamID | TSParser.py:44-45 | only the stream id changes |
| TsPes.PESPacketInfo.SetAUType | TSParser.py:46-47 | only the access-unit type changes |
| TsPes.PesHeaderRule | TSParser.py:127-166 | the stream id is recorded whenever the header can be read; the time stamp and access-unit type change only for a stream id outside the seven without an optional header whose PTS_DTS_flags are 2 or 3, and then they hold the time stamp at offset 9; field ranges are kept |
| TsPes.ParsePESHeader | TSParser.py:127-166 | updates the record as `PesHeader` says and reports whether a read fell short |
| TsPes.PesHeaderStamp | TSParser.py:127-166 | a header that sets a time stamp sets the one `HeaderStamp` reads, with its access-unit type; one that sets none leaves the time stamp and type the record held |
| TsPes.PesHeaderComplete | TSParser.py:127-166 | the header runs to its end exactly when none of its reads, chosen by the stream id and the PTS_DTS_flags, runs past the end of the file, whatever the record held |
| TsPsi.DescriptorsCover | TSParser.py:240-246 | the descriptors read cover the byte count (each two header bytes plus its length, the count still positive before the last) and the first starts with the tag and length at the loop's offset |
| TsPsi.ParseDescriptors | TSParser.py:240-246 | the descriptor loop returns the `Descriptors` of the bytes, or a short read |
| TsPsi.PatProgramsRule | TSParser.py:190-203 | the PAT entries are the consecutive four-byte groups from offset 8, as many as cover the remaining length, rounded up |
| TsPsi.PatSectionRule | TSParser.py:168-205 | a section is refused exactly when its table id is not 0x00; a parsed one has a 12-bit section_length and `(section_length - 9) / 4` entries rounded up |
| TsPsi.ParsePATSection | TSParser.py:168-205 | the PAT parser's loop computes `PatSectionAt` |
| TsPsi.PmtStreamAtRule | TSParser.py:253-267 | an elementary stream has a 13-bit PID, a 12-bit ES_info_length, and its descriptors cover that length |
| TsPsi.PmtStreamsCover | TSParser.py:249-270 | the elementary streams cover the remaining length, five bytes plus ES_info_length each |
| TsPsi.PmtStreamsDescriptors | TSParser.py:249-270 | each elementary stream's descriptors cover its ES_info_length |
| TsPsi.PmtBodyRule | TSParser.py:230-270 | after the fixed header, the PCR_PID is 13 bits, the program descriptors cover program_info_length and the streams cover the section up to the CRC |
| TsPsi.PmtSectionRule | TSParser.py:207-275 | a section is refused exactly when its table id is not 0x02; a parsed one has the 16-bit program number of bytes 3 and 4 and loops that cover their lengths |
| TsPsi.ProgramNumberBytes | TSParser.py:221-226 | `(first & 0xFF) << 8` plus the top byte of the second read is the big-endian number at bytes 3 and 4 |
| TsPsi.ParsePMTSection | TSParser.py:207-275 | the PMT parser computes `PmtSectionAt` |
| TsPsi.ParsePmtBody | TSParser.py:230-270 | the PMT body's loops compute `PmtBody` |
| TsPsi.ParsePmtStreams | TSParser.py:249-270 | the elementary stream loop computes `PmtStreams` |
| TsPsi.ParsePmtStream | TSParser.py:250-267 | one pass of that loop computes `PmtStreamAt` |
| TsPsi.SitServiceAtRule | TSParser.py:310-322 | a service's 12-bit service_loop_length is covered by its descriptors |
| TsPsi.SitServicesCover | TSParser.py:309-325 | the services cover the remaining length, four bytes plus service_loop_length each |
| TsPsi.SitServicesDescriptors | TSParser.py:309-325 | each service's descriptors cover its service_loop_length |
| TsPsi.SitBodyRule | TSParser.py:293-325 | the transmission descriptors cover transmission_info_loop_length and the services cover the section up to the CRC |
| TsPsi.SitSectionRule | TSParser.py:277-327 | a section is refused exactly when its table id is not 0x7F; a parsed one's loops cover their lengths |
| TsPsi.ParseSITSection | TSParser.py:277-327 | the SIT parser computes `SitSectionAt` |
| TsPsi.ParseSitBody | TSParser.py:293-325 | the SIT body's loops compute `SitBody` |
| TsPsi.ParseSitServices | TSParser.py:309-325 | the service loop computes `SitServices` |
| TsPsi.ParseSitService | TSParser.py:310-322 | one pass of that loop computes `SitServiceAt` |
| TsMain.Pids | TSParser.py:354 | the PID list of the sections recorded, one per section in order |
| TsMain.IsUnique | TSParser.py:466-469 | the `for i in PIDList` loop finds the PID new exactly when it is not in the list |
| TsMain.UniqueCheckRule | TSParser.py:465-476 | the unique-mode check parses a PID exactly when it has not been seen, adds it to `PIDList` then and only then, and keeps the list free of duplicates |
| TsMain.PatUniqueAsWrittenNeverParses | TSParser.py:443-454 | as written, the PAT branch never parses a PAT in unique mode: a new PID is added and the same packet read again, and the second time it is no longer new and is skipped |
| TsMain.InvMid | TSParser.py:396-502 | the walk's invariant holds in the middle of a packet |
| TsMain.AdvanceKeeps | TSParser.py:396-520 | moving to the next packet keeps the invariant and advances the offset by one packet and the count by one; the last packet number of the chosen PID becomes this packet only when the packet carries a payload, and is unchanged otherwise; the entry lists are unchanged |
| TsMain.SkipKeeps | TSParser.py:473-476 | skipping a duplicate packet keeps the invariant |
| TsMain.PesStart | TSParser.py:400-426 | a PES start of the chosen PID changes only the elementary-stream lists, and outside ES mode nothing; in ES mode the start is an IDR start exactly when the record's access-unit type after its header is an IDR picture, an entry count is appended exactly when the previous start was an IDR start, and an IDR start appends its packet number and the record's PTS_MSB24 while any other start leaves both lists; it halts the walk only when a read of the PES header runs past the end of the file |
| TsMain.RecordStart | TSParser.py:410-424 | the ES-mode bookkeeping of one PES start keeps every IDR entry tied to its PES header and appends one exactly for an IDR picture |
| TsMain.IdrStampEntry | TSParser.py:400-424 | a PES start whose header stamps an IDR picture, or stamps nothing while the record still holds the last entry's IDR stamp, is an IDR entry |
| TsMain.IdrBookSnoc | TSParser.py:420-424 | appending an IDR entry keeps every entry an IDR entry |
| TsMain.CarriedPesStart | TSParser.py:396-401 | a packet of the chosen PID with the unit start flag, a payload and the start code at its payload is a PES start, whose header is at the payload's offset |
| TsMain.VisitPes | TSParser.py:400-424 | a PES start in the middle of a packet continues in the middle state with the IDR link kept, or halts at a short read of its header |
| TsMain.ParseTable | TSParser.py:439-498 | parsing a section at a byte holding a table id gives a section of that kind, and fails exactly when that kind's parser reads past the end of the file |
| TsMain.SectionStart | TSParser.py:428-498 | a section start records only wanted sections, skips a packet only in unique mode for a PID already listed, and halts after the first section when only the first is wanted; it halts at a short read only when the section's parser reads past the end of the file |
| TsMain.RecordSection | TSParser.py:445-498 | a wanted section is parsed and recorded, with its PID added in unique mode; the book of sections is kept; a short read is one of the section's parser |
| TsMain.RecordKeepsBook | TSParser.py:445-498 | appending a wanted section, and its PID in unique mode, keeps every recorded section wanted, at most one in first-only mode, and `PIDList` in step with the sections |
| TsMain.VisitPayload | TSParser.py:396-502 | a packet with a payload either continues with the invariant, is skipped in unique mode, or halts after the first section or at a short read; it halts at a short read only when the payload's start code, the PES header of a start of the chosen PID, the table id or the section runs past the end of the file, and then in the state it was given |
| TsMain.VisitSection | TSParser.py:428-498 | a unit start without a start code continues, is skipped in unique mode, or halts after the first section, and halts at a short read only when the table id after the pointer field or the section runs past the end of the file |
| TsMain.VisitAdaptation | TSParser.py:382-394 | an adaptation field leaves everything but the PCR list unchanged, adds one PCR exactly when PCRs are searched for and the packet carries one, and returns the field's length |
| TsMain.Conclude | TSParser.py:453-520 | the end of a pass either moves to the next packet with the invariant kept or stops in one of the end states; a packet without a payload moves on with nothing but the offset and count changed; a short read stops in the state the payload reached, PCR reports included |
| TsMain.VisitPacket | TSParser.py:361-520 | one pass of the loop moves one packet on with the invariant kept, or ends the walk |
| TsMain.VisitSynced | TSParser.py:374-383 | a packet with the sync byte, whose flag, PID and control bits are read from its header, moves on with the invariant kept or ends the walk in an end state |
| TsMain.VisitFields | TSParser.py:383-520 | given those header fields, the adaptation field, the payload and the end of the packet keep the invariant or end the walk in an end state; a packet with control bits 0 or 2 changes only the PCR reports, the offset and the count; a short read keeps everything but the PCR reports, which hold the one the adaptation field logged before the failing read |
| TsMain.VisitAdapted | TSParser.py:376-520 | the same for a packet whose control bits announce an adaptation field |
| TsMain.VisitRest | TSParser.py:396-520 | from the state the adaptation field left, the payload and the end of the packet keep the invariant or end the walk; a short read stops in exactly that state |
| TsMain.PayloadOf | TSParser.py:396-502 | only control bits 1 and 3 read a payload; with any other the packet goes to its end in the state it was in; a short read is one of the payload's reads past the end of the file |
| TsMain.ParseTSMain | TSParser.py:329-529 | the walk ends at the first packet without the sync byte, past 1,450,000 packets, on a short read, or after the first section when only that is wanted; it ends on a short read only when a read of the packet it stopped at, by that packet's header fields, runs past the end of the file; every earlier packet had the sync byte, the entry lists line up, in unique mode each PID has exactly one section, and every entry of `TPIList` is the packet number of a PES start of the chosen PID whose header found an IDR picture and whose `PTSList` entry is that header's PTS_MSB24, or whose header found no time stamp and repeats the entry before |
| TsMain.Summary | TSParser.py:527-529 | one summary row per entry count, and none when the walk returned early or stopped on an exception |
| GptCompress.NormalisedExtensions | gpt_video_compress.py:70-73 | one extension per configured extension, in order, each lower-cased |
| Common.LowerIdempotent | gpt_video_compress.py:73 | lower-casing twice is lower-casing once |
| GptCompress.NormalisedIdempotent | gpt_video_compress.py:70-73 | normalising extensions already normalised changes nothing |
| GptCompress.VideoOptions | gpt_video_compress.py:75-95 | SVT-AV1 video with the configured threads, CRF, GOP, parameters and pixel format, and Opus audio at the configured bit rate; the option words `-threads`, `-crf`, `-g`, `-svtav1-params`, `-pix_fmt` and `-b:a` stand at their places before their values |
| GptCompress.MetadataOptions | gpt_video_compress.py:97-100 | the comment tag holds the configured comment |
| GptCompress.BuildFfmpegCommand | gpt_video_compress.py:132-150 | 26 words: the executable, the five fixed flags ending in `-i`, the input, the sixteen video options, the two metadata words and the output last |
| GptCompress.CommandPaths | gpt_video_compress.py:132-150 | the input follows `-i`, the output comes last and the video options run from position 7 |
| GptCompress.CommandInjective | gpt_video_compress.py:132-150 | equal commands mean the same input, output and executable, and the same SVT-AV1 parameters, metadata comment, audio bit rate, thread count, CRF, GOP and pixel format |
| GptCompress.CompressionStats.constructor | gpt_video_compress.py:103-111 | all counters start at zero |
| GptCompress.CompressionStats.RecordProcessed | gpt_video_compress.py:113-116 | one more processed video and both byte totals raised by its sizes; nothing else changes |
| GptCompress.CompressionStats.RecordSkipped | gpt_video_compress.py:118-119 | one more skip; nothing else changes |
| GptCompress.CompressionStats.RecordFailure | gpt_video_compress.py:121-122 | one more failure; nothing else changes |
| GptCompress.NonDirs | gpt_video_compress.py:172-175 | the resolved entries of a listing that are not directories, exactly |
| GptCompress.Offer | gpt_video_compress.py:164-178 | one step of either loop keeps `discovered` holding each wanted candidate once and `seen` its set |
| GptCompress.DiscoverVideoFiles | gpt_video_compress.py:153-181 | the result is sorted, has no duplicates and holds exactly the wanted files among the existing paths and their listings |
| GptCompress.OfferListing | gpt_video_compress.py:171-178 | offering a directory listing adds, once each, exactly its wanted files not seen before |
| GptCompress.Absolute | gpt_video_compress.py:165 | resolving keeps an absolute path and the file name |
| GptCompress.MovesOnlyOnSuccess | gpt_video_compress.py:184-274 | a file is moved exactly when the video is processed, which takes an existing input, no skip, no dry run, FFmpeg exiting with 0 and its output existing |
| GptCompress.DryRunTouchesNothing | gpt_video_compress.py:208-223 | a dry run records a skip or a failure and at most clears a stale temporary output; it runs nothing and moves nothing |
| GptCompress.EncodeDecided | gpt_video_compress.py:225-274 | once FFmpeg runs, the video fails, with the temporary output cleared again, exactly when FFmpeg exits non-zero or leaves no output; otherwise it is processed and the moves follow the run |
| GptCompress.DecideProcessed | gpt_video_compress.py:208-274 | a processed video clears the temporary output, runs FFmpeg, then finishes, and counts the two sizes observed |
| GptCompress.ProcessedEffects | gpt_video_compress.py:259-274 | a processed video ends with the encode at `{stem}.mp4` in the output directory, moves the original exactly when originals are moved, and counts both sizes |
| GptCompress.FinishMoves | gpt_video_compress.py:259-272 | finishing moves the encode to its final name, and the original exactly when originals are moved |
| GptCompress.TempNotInput | gpt_video_compress.py:209-210 | the temporary output is never the input |
| GptCompress.BumpExactlyOne | gpt_video_compress.py:113-122 | recording an outcome raises exactly the matching counter by one, and the byte totals only for a processed video |
| GptCompress.BumpAllTotal | gpt_video_compress.py:416-417 | a run over `n` videos adds `n` to the counters' total |
| GptCompress.ProcessVideo | gpt_video_compress.py:184-274 | takes the actions `Decide` gives and bumps the counter of its outcome |
| GptCompress.ProcessCounted | gpt_video_compress.py:184-274 | each call raises the counter of the video's outcome and accounts for one more video |
| GptCompress.DecideOutcome | gpt_video_compress.py:184-274 | the counter `process_video` raises depends only on what is observed: a failure exactly when the input is missing, or when it is neither skipped nor a dry run and FFmpeg fails or leaves no output |
| GptCompress.Outcomes | gpt_video_compress.py:416-417 | the outcome of each video found, in order |
| GptCompress.BumpAllFailures | gpt_video_compress.py:416-421 | the failure counter never falls, and stays where it was exactly when no outcome is a failure |
| GptCompress.AllCounted | gpt_video_compress.py:416-421 | from zero counters, every outcome is counted once, and no failure is counted exactly when no outcome is a failure |
| GptCompress.Encode | gpt_video_compress.py:225-274 | from running FFmpeg on, the same actions and counters as `Decide` |
| GptCompress.ConfigOf | gpt_video_compress.py:383-399 | a dry run implies skip-existing, originals move unless disabled, and an empty or absent extension list means the defaults |
| GptCompress.DefaultArgumentsGiveDefaultConfig | gpt_video_compress.py:307-399 | the command-line defaults give the configuration defaults |
| GptCompress.DryRunSkipsExisting | gpt_video_compress.py:203-206 | in a dry run an existing output is skipped with no action at all |
| GptCompress.ScanPaths | gpt_video_compress.py:409 | the given paths, or the working directory when none are given; never empty |
| GptCompress.Run | gpt_video_compress.py:404-421 | the videos found are sorted, distinct and exactly the wanted candidates; the counters are those the videos' outcomes raise, in order; the exit code is 0 exactly when no video's outcome is a failure |
| GptCompress.ProcessAll | gpt_video_compress.py:412-421 | the counters are those the videos' outcomes raise, in order, so each video is counted once; the exit code is 0 exactly when no video's outcome is a failure, and 0 when there is nothing to do |
| Paths.Name | gpt_video_compress.py:260 | `path.name` is the last part of the path |
| Paths.SuffixStart | gpt_video_compress.py:166 | the suffix starts at the last dot, provided that dot is neither the first nor the last character; otherwise the name has no suffix |
| Paths.Suffix | gpt_video_compress.py:166 | `PurePath.suffix` is empty or a dot followed by no other dot |
| Paths.Stem | gpt_video_compress.py:200 | `PurePath.stem` is a prefix of the name |
| Paths.StemSuffix | gpt_video_compress.py:200-209 | the stem and the suffix together make up the name |
| Paths.NoDotName | gpt_video_compress.py:200 | a name without a dot is its own stem and has no suffix |
| Paths.SplitName | gpt_video_compress.py:209 | a stem followed by a dot and dot-free letters splits back into that stem and suffix |
| Paths.TimestampedNames | batch_compress_and_compare.py:257-261 | a timestamped name `{stem}_{ts}{ext}` has stem `{stem}_{ts}` and suffix `ext`, and `{stem}.mp4` keeps the stem of the input |
| Paths.Child | gpt_video_compress.py:201 | `base / name` extends the base by one part whose name is `name` |
| Paths.StrLessIrreflexive | gpt_video_compress.py:180 | no string sorts before itself |
| Paths.StrLessTotal | gpt_video_compress.py:180 | of two different strings one sorts before the other |
| Paths.StrLessTransitive | gpt_video_compress.py:180 | string order is transitive |
| Paths.PathLessIrreflexive | gpt_video_compress.py:180 | no path sorts before itself |
| Paths.PathLessTotal | gpt_video_compress.py:180 | of two different paths one sorts before the other |
| Paths.PathLessTransitive | gpt_video_compress.py:180 | path order is transitive |
| Paths.Insert | gpt_video_compress.py:180 | inserting into a sorted list gives a sorted list with one more copy of the element |
| Paths.InsertDistinct | gpt_video_compress.py:180 | inserting a new element into a list without repeats makes none |
| Paths.SortPaths | gpt_video_compress.py:180 | `list.sort()` returns the same paths in ascending order, without repeats when it had none |
| Paths.SortedDistinct | gpt_video_compress.py:180 | sorted distinct paths ascend strictly |
| ProbeSummary.FloatField | batch_compress_and_compare.py:109 | a missing field stays None and a present one converts with `float()`; a list or mapping raises TypeError and text that is not a number raises ValueError |
| ProbeSummary.IntField | batch_compress_and_compare.py:110-111 | a missing field stays None and a present one converts with `int()`, a float truncated towards zero; a list or mapping raises TypeError and text that is not a whole number raises ValueError |
| ProbeSummary.ReadFormat | batch_compress_and_compare.py:107-111 | a falsy format section leaves every field None; a truthy one that is not a mapping fails on `.get`; no codec is set from it |
| ProbeSummary.StreamItems | batch_compress_and_compare.py:114-115 | a missing `streams` key gives no streams and a list gives its items |
| ProbeSummary.Step | batch_compress_and_compare.py:116-121 | one stream fails exactly when it is not a mapping |
| ProbeSummary.ExtractSummary | batch_compress_and_compare.py:86-126 | the loop with its break computes the summary of `ExtractSummaryOf` |
| ProbeSummary.FailedProbeIsEmpty | batch_compress_and_compare.py:82-83 | the `{}` of a failed probe summarises to all fields None |
| ProbeSummary.StepChangesOneSide | batch_compress_and_compare.py:116-121 | one stream sets the video fields or the audio codec, never both, each only while still None, and never a format field |
| ProbeSummary.FoldComplete | batch_compress_and_compare.py:123-124 | once both codecs are known no later stream changes the summary |
| ProbeSummary.BreakKeepsResult | batch_compress_and_compare.py:123-124 | where visiting every stream succeeds, the break gives the same summary |
| ProbeSummary.VideoFromOneStream | batch_compress_and_compare.py:115-121 | codec, width and height come from one video stream: the first whose codec name is not None |
| ProbeSummary.ScanKeepsKnownVideo | batch_compress_and_compare.py:116 | a known video codec is never replaced |
| Report.Pad2 | 2pass_compress.py:149 | `{n:02d}` is at least two characters |
| Report.Pad2Value | 2pass_compress.py:149 | the text of a non-negative field is digits giving back its value, exactly two below 100 |
| Report.Hms | 2pass_compress.py:146-148 | hours, minutes below 60 and seconds below 60 that add up to the seconds |
| Report.HmsUnique | 2pass_compress.py:146-148 | such a split is the only one |
| Report.FloorDivOfFloor | 2pass_compress.py:146-147 | flooring a float's quotient is dividing its floor |
| Report.FormatDurationHms | 2pass_compress.py:142-149 | the duration text is the whole seconds in hours, minutes and seconds, each zero-padded to two digits |
| Report.FormatDurationLayout | 2pass_compress.py:142-149 | under 100 hours the text is `HH:MM:SS` whose fields give back the whole seconds |
| Report.CentsNearest | 2pass_compress.py:155-156 | the two decimals are within half a hundredth of the quotient |
| Report.FormatBitrate | 2pass_compress.py:151-156 | the text is "N/A" exactly when there is no bit rate |
| Report.VideoCell | 2pass_compress.py:190-195 | "N/A" without a codec; otherwise the codec, followed by a resolution exactly when width and height are truthy |
| Report.RawCells | 2pass_compress.py:190-206 | the cells handed back as values that are not text are neither text nor None |
| Report.Table | 2pass_compress.py:208-217 | the table is printed exactly when every cell is text, and is then the five rows; otherwise a bool or number cell raises TypeError at `len()`, and a list or mapping cell AttributeError at `ljust` |
| Report.TableAudio | 2pass_compress.py:202-206 | a truthy audio codec that is a bool or a number raises TypeError; a printed table's audio cells are the codec text or "N/A" |
| Report.Rows | 2pass_compress.py:174-206 | five rows of three cells |
| Report.MaxLen | 2pass_compress.py:208-210 | the longest cell of a column, attained by some row |
| Report.ColumnWidths | 2pass_compress.py:208-210 | three widths, from the body rows only |
| Report.LJust | 2pass_compress.py:216 | `ljust` keeps the text and pads it with spaces to the width |
| Report.Separator | 2pass_compress.py:214 | the separator is as long as the indent, the widths and the extra dashes |
| Report.LineLayout | 2pass_compress.py:216 | a line whose cells each leave two columns free puts every cell at its column |
| Report.BodyAligned | 2pass_compress.py:215-216 | every body line puts each cell at the same column and at least two spaces after it |
| Report.FailedRows | 2pass_compress.py:173-206 | whatever the other probe found, a failed probe's column is "N/A" in every row |
| Report.FailedWidths | 2pass_compress.py:208-210 | for any table, the property column is nineteen wide; a failed probe's column is five wide, whatever the other probe found |
| Report.LineLength | 2pass_compress.py:213-216 | a line is the indent and each cell padded to its column, or left longer when it does not fit |
| Report.HeaderNotCounted | 2pass_compress.py:208-216 | for any rows, the header is not measured: its line is never shorter than a body line, and longer exactly when a header cell is wider than its column |
| Report.FailedHeaderOverhangs | 2pass_compress.py:208-216 | with either probe failed, the header line is longer than the body lines, by at least five or three |
| TwoPass.PassesAgree | 2pass_compress.py:245-320 | both passes read the same input at the same bit rate and parameters and share one pass log; only the first drops audio and writes to the null device, only the second encodes Opus into the temporary file |
| TwoPass.Comparison | 2pass_compress.py:158-217 | the exception of the original's probe field, else that of the compressed one, else the table of both summaries or the exception printing it raises |
| TwoPass.FinishEffects | 2pass_compress.py:360-383 | the clean-up removes the two pass-log files, then moves the original to `over/` and the encode to `output/{stem}.mp4`; it runs no encoder |
| TwoPass.DecideShape | 2pass_compress.py:223-383 | a finished run is the two passes followed by the clean-up; any other run only ran encoders |
| TwoPass.SuccessGating | 2pass_compress.py:290-298 | files are removed or moved exactly when the input exists, both passes exit with 0, the encode exists and both probes summarise; a failed first pass ran one encoder, a failed second pass two |
| TwoPass.DoneEffects | 2pass_compress.py:360-383 | after success the pass logs are removed before the moves, the original goes to `over/` and the encode to `output/{stem}.mp4` |
| TwoPass.SeparatorMatchesBody | 2pass_compress.py:214-216 | the separator is as long as every body line |
| Compare.CommandLayout | batch_compress_and_compare.py:265-275 | the command reads the input after `-i`, passes both option lists unchanged and in order, writes the temporary file last, and depends on the files nowhere else |
| Compare.CommandInjective | batch_compress_and_compare.py:265-275 | different inputs or temporary files give different commands |
| Compare.Comparison | batch_compress_and_compare.py:129-231 | the exception of the original's probe field, else that of the compressed one, else the table of both summaries or the exception printing it raises |
| Compare.FinishEffects | batch_compress_and_compare.py:308-320 | the original moves to `over/` under its name and the encode to `output/{stem}.mp4`, each after clearing its target; no encoder runs |
| Compare.DecideShape | batch_compress_and_compare.py:238-320 | a finished run is the encode followed by the moves; any other run at most ran the encoder |
| Compare.SuccessGating | batch_compress_and_compare.py:283-306 | files move exactly when the input exists, FFmpeg exits with 0, the encode exists and both probes summarise; the encoder runs exactly when the input exists |
| Compare.DoneEffects | batch_compress_and_compare.py:308-320 | after success: the encode, then clearing and moving for the original and for the encode, in that order |
| Compare.OutputNames | batch_compress_and_compare.py:256-262 | the encode and its log are `{stem}_{ts}` with `.mp4` and `.log`, and the final name keeps the input's stem |
| Compare.SeparatorOverhang | batch_compress_and_compare.py:224-230 | the separator runs two columns past every body line |

## Left out

- **Process and file-system effects.** Running ffmpeg and ffprobe, decoding
  their JSON, `stat`, `mkdir`, `mkdtemp`, `glob`/`rglob`, `shutil.move` and
  `unlink` are outside the model. Their results are inputs, and their
  effects are action lists or the `Disk` map.
- **`datetime.now()`.** The timestamp is a parameter.
- **Logging and printing.** Only what the walk and the reports record is
  modelled; the `logging` and `print` text is not.
- **Concurrency.** The `ThreadPoolExecutor` and locks of `process_batch`
  (av1conv.py:1035-1036) are left out. The results are folded in input
  order, so an order in which workers could finish differently is not
  modelled.
- **Floating point.**
  - Rates, frame rates, durations and bits per pixel are exact reals.
    IEEE rounding, `inf` and `nan` are not modelled.
  - `float()` of the texts "inf", "infinity" and "nan" is treated as a
    failed conversion.
  - `%.2f` is rounded half up at exact hundredths, not by binary rounding.
  - `human_readable_bytes`, `human_readable_size` and `summarise` are
    formatting only. Their text is not specified.
- **Text.** Case mapping covers ASCII only.
  - Python's `int()`, `float()`, `str.isdigit`, `\d` and `strip()` also
    accept Unicode digits and whitespace. The integer and float readers of
    `Common`, `Json`, `Bitrate` and `ProbeSummary`, and `Av1Plan.IntLike`,
    accept ASCII digits and ASCII whitespace only.
  - `repr()` escapes only ASCII control characters. Python also escapes
    non-printable characters outside ASCII.
  - `str()` of a float, list or mapping in a table cell is rendered as
    "?".
  - `vf`/`format_video_codec` returning a non-string codec with a
    resolution is modelled as its text; without one it stops the table
    (Report.Table).
- **Paths.** Paths are POSIX only. `resolve()` does not follow symbolic
  links or `..`.
- **Tool discovery and probing.** These are external calls and are left
  out:
  - av1conv.py: `find_ffmpeg`, `_check_encoder`, `ffprobe_media`,
    `_build_stream_info`, `discover_files`;
  - findOptimumBitrate.py: `run_ffprobe`.
- **Script entry points.** The `main` functions of 2pass_compress.py and
  batch_compress_and_compare.py only glob and sort the working directory
  and call `process_video`; they are left out.
- **Argument-parser setup.** The `argparse` builders are left out. Only
  what is derived after parsing is modelled.
- **TSParser.py entry points.** `getFilename` (a file dialogue) and `Main`
  are not part of this model.
- **TSParser.py packet size.** `parseTSMain` requires a positive packet
  size. With 0 the offset never moves but the packet count still grows.
  Outside unique mode the walk then ends at the 1,450,000-packet limit
  (TSParser.py:519-520). In unique mode, if the packet re-read is a
  section of the kind searched for, every later visit is a duplicate. The
  duplicate's `continue` skips the limit test, so the loop never ends.
- **TSParser.py short reads.** A read past the end ends the walk (TsMain.ShortEnd).
  - In the source this is a `struct.error` that the `except IOError` does
    not catch.
  - `readFile`'s `string == ''` test compares bytes with a string and never
    holds.
- TsMain.ParseTSMain: the walk runs the corrected unique-mode check in
  the PAT branch (`UniqueCheck`), not the as-written one that never parses
  a PAT. The Findings table records the difference.
- TsMain.SectionStart: its PAT branch uses the corrected unique-mode
  check of the PMT and SIT branches, not TSParser.py:443-454 as written.
- TsPes.ParseAdaptationField: the clock stores the PCR base's low 32 bits
  in `PCR_base_lo`, not the unmasked 33-bit value of TSParser.py:85. The
  Findings table records the difference.
- Av1Media.ChooseAudioStream: the error for a preferred language that
  is not text is a stand-in ("AttributeError: … has no lower()"), not
  Python's `str(exc)`, which names the value's type.
- Av1Media.SubtitleChoice and Av1Media.ChooseSubtitleStreams: the same
  stand-in for a preferred subtitle language that is not text.
- Av1Media.ShouldSkipFile: the errors for a `size_threshold` that is not
  text and for ignore lists that cannot be concatenated are stand-ins,
  not Python's `str(exc)`.
- Av1Plan.FilmGrain and Av1Plan.ResizeArgs: the error for a `>` between
  values Python cannot compare is a stand-in, not Python's "'>' not
  supported between instances of …" text.
- Av1Batch.Place and Av1Batch.PlaceOutput: a missing file gives
  "FileNotFoundError: <path>", a stand-in for the `[Errno 2]` text that
  `shutil.move` and `stat()` raise. These texts reach the failure list of
  the session report as `f"{path}: {exc}"` does, so that list holds them
  and not Python's messages.
- Av1Batch.Execute: for a negative exit status, the `CalledProcessError`
  text names the signal by its number ("died with signal 9") instead of
  the `Signals` member Python prints.
- **PAT fields not logged.** transport_stream_id, version_number and
  current_next_indicator are decoded but never logged, so they are not
  modelled.
- **findOptimumBitrate.py:2.** The docstring is indented, which Python
  rejects as an IndentationError. The model reads the file as if it were
  not indented.
- **Bare encoder words.** batch_compress_and_compare.py passes "preset" "6"
  and "aq-mode" "3" to ffmpeg as bare words, not as options.
  `Compare.VIDEO_OPTIONS` keeps them word for word. What ffmpeg makes of
  them is not modelled.

## Findings

| source | as written | input that shows it | evidently intended | confidence | as-written member | corrected member |
|---|---|---|---|---|---|---|
| av1conv.py:337-344 | `apply_args_to_config` copies every namespace value that is not `None`. The `store_true`/`store_false` flags and `--ignore` default to `False`, `True` or `[]`, never `None`. | A configuration file with `verbose=true` and a command line without `--verbose` ends with `verbose` false. | Only options the user gave override the file. | not executed | Av1Args.FileFlagOverridden | Av1Args.IntendedFileFlagKept |
| TSParser.py:443-454 | In the PAT branch of unique mode, the `continue` sits outside the `else`, so a new PID is added and the same packet read again, now as a duplicate. | A stream whose PAT packet has PID 0, walked with `--unique` and search item PAT: no PAT is ever parsed. | As in the PMT and SIT branches (TSParser.py:465-476): parse the first section of each new PID. | not executed | TsMain.PatUniqueAsWrittenNeverParses | TsMain.UniqueCheckRule |
| TSParser.py:85 | `PCR_base_lo = (PCR1 << 1) + bit` is not masked to 32 bits, so it keeps the top bit that `PCR_base_hi` also reports. | PCR1 = 0x80000000, PCR2 = 0: the logged pair is hi 1, lo 0x100000000. | lo holds only the low 32 bits of the 33-bit base. | not executed | TsPes.PcrLoAsWrittenRepeatsHi | TsPes.PcrFieldsSplit |
