# mp3_metadata in Dafny

This project models the two command-line scripts of the mp3_metadata
repository. Each script reads a JSON document and writes the ID3v2 frames it
describes into an MP3 file through mutagen:

- `mp3_tagging.py` handles every key of the document. A key "CTOC" holds a
  list of chapter descriptors. Each descriptor becomes one CHAP frame, with
  its start and end converted to milliseconds and its "sub_frames" dict
  turned into frames. Then a CTOC frame "toc" lists the chapters.
- `mp3_metadata.py` handles only the keys of its `frames` allow-list, and
  reports and skips every other key. For "CTOC" it rewrites each
  descriptor's "sub_frames" dict in place. It gives every CHAP frame zero
  times and no sub-frames.

The model has these parts:

- **Python values.** `Values.PyValue` models what `json.load` returns, with
  dicts as their entries in insertion order. `Values.Fault` models the
  exceptions that end a script. `Contains`, `GetItem`, `Items` and `Iterate`
  model `in`, `[...]`, `.items()` and iteration.
- **Python strings.** `PyStr` models `str.split`, `str.endswith`,
  `str.replace`, substring `in`, `int(str)` and `f"ch{i}"`.
- **Timestamps.** `Timestamp` models the factor table and both
  `convert_to_ms` functions.
- **Frame building.** `FrameBuilder` models both `instantiate_tag`
  functions. mutagen's reflection (`getattr(id3, tag)` and
  `__bases__[0]`) is a registry from frame id to the first base class.
- **Chapter table.** `Chapters` holds the child ids and the CTOC frame of
  both scripts.
- **Tag container.** `Container.TagContainer` models mutagen's `ID3` object
  as a class whose frame list `Add` grows in place. `OpenCleared` is the
  "read mp3" block.
- **Command line.** `Cli` models the extension checks, the save path and
  the padding.
- **The processing loops.** `Tagging` and `Metadata` model the two loops
  twice:
  - as functions over prefixes of the input (`TaggingRun`, `ChapterRun`,
    `MetaEntriesRun`, `MetaChapterRun`), about which the properties are
    proved;
  - as methods (`ProcessTagging`, `AddChapterFrames`, `ProcessMetadata`,
    `AddMetaChapterFrames`, …) that add to a `TagContainer` step by step,
    as the scripts do. Each method's postcondition ties the container to
    those functions.
  `TagFile` and `MetadataFile` put a whole script together on decoded input.
- **Worked examples.** `TimestampExamples`, `TaggingExamples` and
  `MetadataExamples` work the scripts out on small inputs.

The model follows what the code does where it differs from what the
project's description says:

- **Timestamps.** `convert_to_ms` reads the rightmost colon field as
  milliseconds. So "1:00" is 1000 and "1:30" is 1030. "1:30:0" is 90000,
  "1:0:0:0" is one hour and "1:0:0:0:0" is one day. An empty field such as
  the ones in "::30" raises `ValueError` (`TimestampExamples`).
- **Chapters without "sub_frames" in mp3_tagging.py.** The name
  `temp_sub_frames` is a module-level variable. A descriptor without
  "sub_frames" reuses the list of the chapter before it
  (`Tagging.SubFramesCarriedOver`). If it is the first such descriptor
  before any list was built, the script raises `NameError`
  (`Tagging.UnboundSubFrames`, `TaggingExamples.ChaptersWithoutSubFrames`).
  Nothing defaults to an empty list.
- **Unknown keys in mp3_tagging.py.** This script has no allow-list check.
  A key that names no mutagen frame class makes `getattr` raise, which ends
  the script (`TaggingExamples.UnknownKeyRaises`). Only mp3_metadata.py
  reports and skips such keys.
- **Chapter times in mp3_metadata.py.** Every CHAP frame gets zero times
  and empty sub-frames, whatever the descriptor holds
  (`Metadata.MetaChapterTable`).

## Model

| member | source | states |
|---|---|---|
| Timestamp.TimeConversionFactors | mp3_tagging.py:20-22 | the in-place loop over the literal list leaves each entry equal to the product of the entries up to it, i.e. [1, 1000, 60000, 3600000, 86400000] |
| Timestamp.FactorsAreRunningProducts | mp3_metadata.py:20-22 | the running products of [1, 1000, 60, 60, 24] are the milliseconds per ms, second, minute, hour and day |
| Timestamp.Reversed | mp3_tagging.py:46 | `[::-1]` has the same length and puts element `|s|-1-i` at position `i` |
| Timestamp.ConvertToMs | mp3_tagging.py:38-50 | an int gives its absolute value (never negative), a bool 1 or 0, a value that is neither int, bool nor str gives 0 |
| Timestamp.ConvertDuration | mp3_metadata.py:43-44 | a string converts as in mp3_tagging.py; any other value raises AttributeError (no `.split`) |
| Timestamp.WeightedSumFails | mp3_tagging.py:46 | the sum raises exactly when a field paired with a factor is not an integer literal |
| Timestamp.WeightedSumIgnoresSurplus | mp3_tagging.py:46 | `zip` stops at the shorter list: fields beyond the last factor are never parsed |
| Timestamp.OnlyRightmostFiveFields | mp3_tagging.py:46 | anything left of the fifth field from the right, numeric or not, leaves the result unchanged |
| Timestamp.ConvertStringFails | mp3_tagging.py:46 | a timestamp string raises ValueError exactly when one of its rightmost five fields is not an integer |
| Timestamp.ReversedSumFails | mp3_tagging.py:46 | read right to left, the fields fail exactly when one of the last five is not an integer |
| Timestamp.ConvertNumerals | mp3_tagging.py:46 | joining numbers with ':' and converting gives each number times the factor of its position from the right |
| Timestamp.ConvertFormatted | mp3_tagging.py:46 | round trip: "d:h:m:s:ms" converts to d·86400000 + h·3600000 + m·60000 + s·1000 + ms |
| Timestamp.WeighFactors | mp3_tagging.py:20-22 | the weighted sums of one to five values against the table, written out |
| PyStr.Split | mp3_tagging.py:46 | `split` always gives at least one field |
| PyStr.SplitJoin | mp3_tagging.py:46 | splitting undoes joining when no field holds the separator |
| PyStr.JoinSplit | mp3_tagging.py:46 | joining undoes splitting, and no split field holds the separator |
| PyStr.SplitConcat | mp3_tagging.py:46 | a separator between two strings splits into the fields of each side |
| PyStr.ParseIntOfNat | mp3_tagging.py:46 | `int(str(n)) == n` (CPython's digit limit aside) |
| PyStr.ParseIntOfNegative | mp3_tagging.py:46 | `int("-" + str(n)) == -n` |
| PyStr.ParseIntBlank | mp3_tagging.py:46 | an empty or blank field is a ValueError, not 0 |
| PyStr.ReplaceAllAbsent | mp3_tagging.py:152 | `replace` of a pattern that does not occur returns the string unchanged |
| PyStr.ReplaceAllGrows | mp3_tagging.py:152 | with a longer replacement the result is longer exactly when the pattern occurs |
| PyStr.TaggedNameEnding | mp3_tagging.py:152 | a name ending in ".mp3" ends in "_tagged.mp3" after the replacement |
| PyStr.ChapterIdInjective | mp3_tagging.py:139 | `f"ch{i}"` and `f"ch{j}"` are equal exactly when `i == j` |
| Values.Lookup | mp3_tagging.py:69-70 | a lookup finds a value exactly when the key is in the dict |
| FrameBuilder.WithDefaultEncoding | mp3_tagging.py:69-70 | afterwards "encoding" is a key; a dict that had it is unchanged, otherwise ("encoding", 3) is appended at the end |
| FrameBuilder.DefaultEncodingLookup | mp3_tagging.py:69-70 | adding the default touches no other key, and "encoding" maps to its old value or to 3 |
| FrameBuilder.DefaultEncodingIdempotent | mp3_tagging.py:69-70 | adding the default encoding twice is adding it once |
| FrameBuilder.BuildByKind | mp3_metadata.py:46-60 | no frame exactly for a class whose base the dispatch does not list; a built frame has the requested frame id |
| FrameBuilder.InstantiateTag | mp3_tagging.py:52-74 | raises AttributeError exactly for an unknown frame id, whatever the value; otherwise no frame exactly for a non-dict value that is not a string of a listed kind; a dict builds `cls(**value)` with the default encoding added |
| FrameBuilder.InstantiateTagMeta | mp3_metadata.py:46-60 | raises AttributeError exactly for an unknown frame id; otherwise, whatever the value's type, text-like, WXXX and paired classes get encoding 3 and the value as text, url or people, other URL classes the bare value as url and no encoding, and any other class `None` |
| FrameBuilder.StringDispatch | mp3_tagging.py:55-67 | text-like, WXXX and paired classes get encoding 3 and the string as payload; other URL classes get the bare url and no encoding |
| FrameBuilder.InstantiateAgreesOnStrings | mp3_metadata.py:46-60 | on a string value both scripts' `instantiate_tag` give the same frame or fault |
| FrameBuilder.EncodingIsDefault | mp3_tagging.py:57-71 | a built frame's encoding is 3, unless a dict value names its own encoding, which is kept |
| Chapters.ChapterIds | mp3_tagging.py:133-139 | after `n` chapters the child list holds `n` ids, each chapter appending its own |
| Chapters.ChapterIdsAt | mp3_tagging.py:139 | the `k`-th child id is `f"ch{k}"` |
| Chapters.ChapterIdsListed | mp3_tagging.py:133-139 | a list whose `k`-th entry is `f"ch{k}"` for every `k` is the child list of that length |
| Chapters.ChapterIdsDistinct | mp3_tagging.py:139 | no child id occurs twice |
| Chapters.TocFrame | mp3_tagging.py:142 | the CTOC frame is "toc" and lists the child ids |
| Chapters.TocFlags | mp3_tagging.py:142 | TOP_LEVEL and ORDERED are both set, and no other flag |
| Container.TagContainer.constructor | mp3_tagging.py:89 | a new container holds no frames |
| Container.TagContainer.Load | mp3_tagging.py:91 | loading replaces the contents with the frames read |
| Container.TagContainer.Delete | mp3_tagging.py:92 | deleting empties the container (the on-disk removal is not modelled) |
| Container.TagContainer.Add | mp3_tagging.py:140 | adding appends exactly that frame |
| Container.OpenCleared | mp3_tagging.py:88-104 | processing starts from an empty fresh container exactly when the tag loaded or the file had no ID3 header; any other load error ends the script |
| Cli.CheckPaths | mp3_tagging.py:81-86 | both paths pass exactly when they end in ".mp3" and ".json"; a bad MP3 path is reported first |
| Cli.CheckArgv | mp3_metadata.py:67-75 | too few arguments exactly when fewer than three; passes exactly when the first two are an ".mp3" and a ".json" path |
| Cli.ArgvChecksAgree | mp3_metadata.py:67-75 | given both paths, the two scripts reject the same inputs for the same reason |
| Cli.SavePath | mp3_tagging.py:151-154 | without `-n` the file is saved over the input |
| Cli.SavePadding | mp3_tagging.py:155 | the padding is never negative and is the old padding or 0 |
| Cli.SavePathRenames | mp3_tagging.py:151-152 | with `-n` the save path differs from the input exactly when the input contains ".mp3" |
| Cli.NoOverwriteWithN | mp3_tagging.py:151-152 | after the extension check, with `-n` the save path differs from the input path and ends in "_tagged.mp3" |
| Tagging.SubFrames | mp3_tagging.py:137-138 | raises AttributeError exactly when a sub-frame key names no frame class; otherwise one entry per item, in order, each the instantiated item |
| Tagging.ChapterFrame | mp3_tagging.py:135-140 | a CHAP frame is built exactly when sub-frames, start and end are read and `temp_sub_frames` is bound; it is "ch{i}" with the converted times and the list the name is then bound to; otherwise NameError once all three were read |
| Tagging.ChapterRun | mp3_tagging.py:134-141 | a completed run adds one CHAP frame per descriptor, a raised run fewer frames than descriptors; `temp_sub_frames` ends bound to the last frame's sub-frames |
| Tagging.CtocEntry | mp3_tagging.py:131-142 | a completed "CTOC" entry adds one frame per descriptor and ends with the CTOC frame listing them |
| Tagging.EntryRun | mp3_tagging.py:143-144 | a key other than "CTOC" keeps `temp_sub_frames` and: adds the frame `instantiate_tag` built and goes on; or raises its fault (AttributeError for an unknown frame id) adding nothing; or, when `instantiate_tag` gives `None` (e.g. a number value), ends with `tags.add(None)` adding nothing |
| Tagging.ProcessingRun | mp3_tagging.py:130 | a JSON top level that is not a dict has no `.items()` and raises AttributeError |
| Tagging.ChapterRunStopped | mp3_tagging.py:134-141 | once the chapter loop raised, later descriptors change nothing |
| Tagging.TaggingRunStopped | mp3_tagging.py:130-144 | once the main loop stopped, later keys change nothing |
| Tagging.ChapterRunStep | mp3_tagging.py:134-141 | one more descriptor adds its CHAP frame or ends the run with its fault |
| Tagging.ChapterRunAdvance | mp3_tagging.py:134-141 | one more descriptor either extends the completed prefix by its frame or decides the whole run's fault |
| Tagging.TaggingRunStep | mp3_tagging.py:130-144 | one more key adds that entry's frames and outcome |
| Tagging.ChapterRunIds | mp3_tagging.py:139-140 | the `k`-th CHAP frame of the run is "ch{k}" |
| Tagging.ChapterRunPrefixCompleted | mp3_tagging.py:134-141 | a completed run completed on every prefix |
| Tagging.ChapterRunPrefix | mp3_tagging.py:134-141 | a completed run's first `j` frames are those of its first `j` descriptors |
| Tagging.ChapterRunFront | mp3_tagging.py:134-141 | a completed run is the completed run on all but the last descriptor plus one frame |
| Tagging.ChapterRunFrame | mp3_tagging.py:135-140 | the `k`-th frame of a completed run is descriptor `k`'s frame built with `temp_sub_frames` as the first `k` descriptors left it |
| Tagging.ChapterRunRaised | mp3_tagging.py:135-140 | a raised run stopped at the first descriptor whose frame could not be built, with that fault, every earlier descriptor added |
| Tagging.CompleteRunCompletes | mp3_tagging.py:134-141 | descriptors that each read completely never stop the loop |
| Tagging.CompleteRun | mp3_tagging.py:134-141 | such descriptors give their CHAP frames in order, each from its own reading alone |
| Tagging.DescriptorFrames | mp3_tagging.py:137-138 | a well-formed descriptor's sub-frames are its items instantiated in order |
| Tagging.DescriptorChapter | mp3_tagging.py:140 | the CHAP frame is "ch{i}" with the converted start and end and the instantiated sub-frames |
| Tagging.WellFormedReading | mp3_tagging.py:135-140 | a well-formed descriptor reads as its instantiated sub-frames and both converted times |
| Tagging.ChapterTable | mp3_tagging.py:131-142 | for well-formed descriptors: exactly one CHAP frame per descriptor in input order, each "ch{k}" with its own times and sub-frames, then exactly one CTOC "toc", top-level and ordered, listing them |
| Tagging.SubFramesCarriedOver | mp3_tagging.py:135-140 | a descriptor without "sub_frames" gets the sub-frames of the chapter before it |
| Tagging.ChapterRunCarriesOver | mp3_tagging.py:135-140 | in a completed run, a reading without sub-frames repeats the previous frame's sub-frames |
| Tagging.UnboundSubFrames | mp3_tagging.py:135-140 | a first descriptor without "sub_frames" raises NameError and nothing is added |
| Tagging.TaggingRunFront | mp3_tagging.py:130-144 | a completed run completed on all but its last key, and the last key's entry completed |
| Tagging.LastEntryCompleted | mp3_tagging.py:143-144 | a completed entry other than "CTOC" names a frame class and built a frame |
| Tagging.TaggingRunPrefix | mp3_tagging.py:130-144 | a completed run completed on every prefix of the mapping |
| Tagging.TaggingBuildsAll | mp3_tagging.py:130-144 | conversely, a mapping without "CTOC" whose every key builds a frame completes and adds exactly those frames, one per key, in order |
| Tagging.TaggingCompleted | mp3_tagging.py:130-144 | a run only completes when every key other than "CTOC" names a frame class and builds a frame: unknown keys are not skipped |
| Tagging.CollectSubFrames | mp3_tagging.py:136-138 | the loop builds exactly the list `SubFrames` describes |
| Tagging.ReadSubFrames | mp3_tagging.py:135-138 | a descriptor's sub-frames are read as `DescriptorSubFrames` describes |
| Tagging.AddChapter | mp3_tagging.py:135-141 | one pass adds the descriptor's CHAP frame and rebinds `temp_sub_frames`, or raises leaving the container and binding as they were |
| Tagging.AddChapterFrames | mp3_tagging.py:132-141 | the chapter loop adds what `ChapterRun` says and, when it completes, has built the child list "ch0" .. "ch{n-1}" |
| Tagging.AddChapters | mp3_tagging.py:131-142 | the "CTOC" branch adds what `CtocEntry` says |
| Tagging.AddEntry | mp3_tagging.py:131-144 | one key adds what `EntryRun` says |
| Tagging.ProcessTagging | mp3_tagging.py:130-144 | the loop adds what `ProcessingRun` says and ends the same way |
| Tagging.TagFile | mp3_tagging.py:81-155 | a file is saved exactly when the extensions pass, the tag opened and the loop completed; it is saved at the save path with exactly the run's frames |
| Metadata.IndexOf | mp3_metadata.py:117 | the position of the first entry with that key |
| Metadata.SetItem | mp3_metadata.py:117 | `d[key] = v` replaces the entry of an existing key in place, or appends a new one |
| Metadata.SetItemAt | mp3_metadata.py:117 | setting the `i`-th key replaces the `i`-th entry and nothing else |
| Metadata.RewriteRun | mp3_metadata.py:116-117 | the rewrite raises AttributeError exactly when a key names no frame class |
| Metadata.Instantiated | mp3_metadata.py:117 | an instantiated entry keeps its key |
| Metadata.PartlyRewritten | mp3_metadata.py:116-117 | a partly rewritten dict keeps every key in its place |
| Metadata.RewriteRunPrefix | mp3_metadata.py:116-117 | after `j` items, the first `j` values are instantiated and the rest unchanged |
| Metadata.RewriteInPlace | mp3_metadata.py:115-117 | a successful rewrite keeps the keys and their order and sets each value to `instantiate_tag(key, old value)` |
| Metadata.RewriteSubFrames | mp3_metadata.py:116-117 | the loop computes exactly `RewriteRun` |
| Metadata.DescriptorRewrite | mp3_metadata.py:115 | a descriptor without "sub_frames" is left alone |
| Metadata.MetaChapterRun | mp3_metadata.py:114-120 | a completed run adds one CHAP frame per descriptor, a raised run fewer frames than descriptors, and reports nothing |
| Metadata.MetaCtocEntry | mp3_metadata.py:111-121 | the "CTOC" branch reports no key |
| Metadata.MetaEntryRun | mp3_metadata.py:110-130 | a key is reported exactly when it is off the allow-list, and then nothing else happens; every frame added is allow-listed or a CHAP frame |
| Metadata.MetaEntriesRun | mp3_metadata.py:109-130 | every frame the loop adds is allow-listed or a CHAP frame |
| Metadata.MetadataRun | mp3_metadata.py:109 | a JSON top level that is not a dict raises AttributeError |
| Metadata.MetaChapterRunStopped | mp3_metadata.py:114-120 | once the chapter loop raised, later descriptors change nothing |
| Metadata.MetaEntriesRunStopped | mp3_metadata.py:109-130 | once the main loop stopped, later keys change nothing |
| Metadata.MetaChapterRunStep | mp3_metadata.py:114-120 | one more descriptor adds its zero-time CHAP frame or ends the run with its fault |
| Metadata.MetaChapterRunAdvance | mp3_metadata.py:114-120 | one more descriptor either extends the completed prefix or decides the whole run's fault |
| Metadata.MetaEntriesRunStep | mp3_metadata.py:109-130 | one more key adds that entry's frames, outcome and report |
| Metadata.MetaChapterRunOutcome | mp3_metadata.py:114-120 | the loop stops at the first descriptor whose rewrite fails, with that fault; every earlier one was rewritten |
| Metadata.MetaChapterRunZero | mp3_metadata.py:118-119 | the `k`-th frame added is "ch{k}" with zero times and no sub-frames |
| Metadata.ZeroChapters | mp3_metadata.py:119 | `n` CHAP frames "ch0" .. "ch{n-1}", times zero, no sub-frames |
| Metadata.MetaChapterTable | mp3_metadata.py:111-121 | when every rewrite succeeds, the "CTOC" key adds exactly the zero-time CHAP frames and the CTOC frame, whatever the descriptors' times |
| Metadata.ListedMembers | mp3_metadata.py:110 | an entry is kept exactly when it is an entry of the mapping whose key is allow-listed |
| Metadata.ListedConcat | mp3_metadata.py:109-110 | keeping the allow-listed entries keeps their order: the kept entries of two parts are those of the first, then those of the second |
| Metadata.UnlistedMembers | mp3_metadata.py:129-130 | a key is reported exactly when it is a key of the mapping off the allow-list |
| Metadata.UnlistedConcat | mp3_metadata.py:109-130 | reported keys keep their order: the reported keys of two parts are those of the first, then those of the second |
| Metadata.MetaSkipsUnlisted | mp3_metadata.py:110-130 | the run adds the same frames and ends the same way as on the allow-listed entries alone, and a completed run reports exactly the other keys, in order |
| Metadata.MetaAgreesWithTagging | mp3_metadata.py:122-128 | for an allow-listed key other than "CTOC", a string or dict value gives the same frames and outcome as mp3_tagging.py; any other value adds nothing and the run goes on |
| Metadata.RewriteDescriptor | mp3_metadata.py:115-117 | one descriptor is rewritten as `DescriptorRewrite` says |
| Metadata.AddMetaChapterFrames | mp3_metadata.py:112-120 | the chapter loop adds what `MetaChapterRun` says and, when it completes, has built the child list "ch0" .. "ch{n-1}" |
| Metadata.AddMetaChapters | mp3_metadata.py:111-121 | the "CTOC" branch adds what `MetaCtocEntry` says |
| Metadata.AddMetaEntry | mp3_metadata.py:110-130 | one key adds and reports what `MetaEntryRun` says |
| Metadata.ProcessMetadata | mp3_metadata.py:109-130 | the loop adds and reports what `MetadataRun` says and ends the same way |
| Metadata.MetadataFile | mp3_metadata.py:67-146 | a file is saved exactly when the arguments pass, the tag opened and the loop completed; it is saved over the input with exactly the run's frames |
| TimestampExamples.ConvertBareMilliseconds | mp3_tagging.py:46 | "500" is 500 ms |
| TimestampExamples.ConvertSecondsAndMilliseconds | mp3_tagging.py:46 | "1:30" is 1030 ms: one second and thirty milliseconds |
| TimestampExamples.ConvertMinuteAndAHalf | mp3_tagging.py:46 | "1:30:0" is 90000 ms |
| TimestampExamples.ConvertHour | mp3_tagging.py:46 | "1:0:0:0" is one hour |
| TimestampExamples.ConvertDay | mp3_tagging.py:46 | "1:0:0:0:0" is one day |
| TimestampExamples.ParseDoubleZero | mp3_tagging.py:46 | `int("00")` is 0 |
| TimestampExamples.ConvertOneColonZeroZero | mp3_tagging.py:46 | "1:00" is 1000 ms |
| TimestampExamples.EmptyFieldExample | mp3_tagging.py:46 | "::30" raises ValueError |
| TaggingExamples.TitleOnly | mp3_tagging.py:130-144 | `{"TIT2": "Song"}` gives one title frame with encoding 3 |
| TaggingExamples.UnknownKeyRaises | mp3_tagging.py:144 | an unknown frame id raises AttributeError |
| TaggingExamples.ChaptersWithoutSubFrames | mp3_tagging.py:131-142 | two descriptors without "sub_frames" raise NameError |
| MetadataExamples.ChaptersWithZeroTimes | mp3_metadata.py:111-121 | the same two descriptors give "ch0" and "ch1" with zero times and the CTOC frame listing them |
| MetadataExamples.TwoChapterIds | mp3_metadata.py:118 | the first two child ids are "ch0" and "ch1" |
| MetadataExamples.UnknownKeySkipped | mp3_metadata.py:109-130 | an unknown key is reported, and the next key is still processed |

## Left out

- The on-disk effect of `tags.delete()` (mp3_tagging.py:92,
  mp3_metadata.py:81): mutagen removes the input file's ID3 tag from disk
  right after loading, before any frame is built, whatever `-n` says and
  even when the loop later raises and nothing is saved. The model only
  clears the container, so `Cli.NoOverwriteWithN` speaks of the save path,
  not of the input file's contents.
- PyStr.ParseIntOfNat: states `int(str(n)) == n` for every `n`. Current
  CPython refuses integer strings longer than 4300 digits
  (`sys.get_int_max_str_digits`) with ValueError; that limit is not
  modelled.
- Argument parsing: argparse (mp3_tagging.py:27-31, mp3_metadata.py:26-30)
  is not modelled. mp3_tagging.py reads the paths as `args["mp3file"]`,
  which Python refuses for an argparse Namespace. The model takes both
  paths and the `-n` flag as plain values. mp3_metadata.py's argparse call
  already rejects a missing path before line 67. `Cli.CheckArgv` models
  lines 67-75 on `sys.argv` as written.
- File and JSON input: reading the MP3 file's tag and reading and decoding
  the JSON file are I/O. They become parameters: a `LoadOutcome` and an
  already decoded `PyValue`. Their error messages are printed text and are
  not modelled.
- Output: `tags.save` writes to disk. It is modelled as the save path and
  the list of frames saved. mutagen's v2.3 translation and its encoding of
  frames are not modelled.
- mutagen internals:
  - `getattr(id3, tag)` is a registry lookup.
  - A frame is a constructor recording the arguments it was built from.
  - `tags.add` appends the frame. mutagen's replacement of a frame with the
    same hash key is not modelled.
  - `tags.add(None)` ends the run as `AddedNone`, because what mutagen does
    with it is not part of this model.
  - `cls(**value)` with a field the class does not accept is not rejected.
- Messages printed by the scripts are not modelled, except mp3_metadata.py's
  "not recognized" report, which is kept as the list of skipped keys.
- Python's `int()`: only ASCII digits and ASCII white space are modelled.
  Other Unicode digits and spaces that `int()` also accepts are not.
- The `frames` dict of mp3_tagging.py (lines 7-16) is never read. The map in
  `print_help` (mp3_metadata.py:37-41) is lazy and prints nothing.
  `print_help` is modelled as ending the script. The commented-out code is
  not modelled.
- In-place mutation of the JSON document:
  - The added "encoding" key and mp3_metadata.py's rewritten "sub_frames"
    dicts are modelled as the new value of that dict. No later statement
    reads them.
  - `Metadata.RewriteInPlace` assumes the dict has no repeated key, as
    every Python dict does.
- Metadata.RewriteInPlace: states the result only for a rewrite that
  succeeds. A failing rewrite is covered by `Metadata.RewriteRun`.
- Tagging.ChapterTable: states the chapter table only for well-formed
  descriptors. The other cases are covered by `Tagging.ChapterFrame`,
  `Tagging.ChapterRunRaised`, `Tagging.SubFramesCarriedOver` and
  `Tagging.UnboundSubFrames`.
- Reading order within the chapter loop: the chapter loops are specified
  over each descriptor's reading (`Tagging.Readings`, `Metadata.Rewrites`),
  computed for every descriptor. This is equivalent to the script, because
  a reading depends only on its own descriptor and the loop stops at the
  first fault.
- Floating-point timestamps: a float is neither an int nor a str, so it
  converts to 0. No float arithmetic is modelled.
