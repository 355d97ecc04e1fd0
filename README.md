# wh: a verified model of the dictation core

wh is a Windows tool that types transcribed speech into whichever window has
the keyboard focus. This project models its deterministic core in Dafny and
proves properties of that model. The core has five parts:

- **Keystroke synthesis** (`TextInjection`, `Unicode`). `SendInputTextInjector`
  turns a UTF-16 string into keyboard events, one Unicode-mode down/up pair per
  code unit, and submits them in a single `SendInput` batch. `ReplaceLast`
  first submits a separate batch of backspaces. The operating system is an
  input queue whose answer (how many events it accepted) is a function of the
  batches so far.
- **Model cache** (`ModelManager`, `LegacyModelManager`, `Hex`, `Paths`,
  `Host`). `EnsureModelAsync` keeps the speech model on disk next to a JSON
  manifest. A matching model is a hit. Anything else is downloaded to
  `<model>.downloading`, hashed, moved over the model, and recorded in a new
  manifest. The older manager in `ui/Services` overwrites the model in place.
  The file system is a `Disk` object holding a map from path to bytes and the
  log of every change. SHA-256, HTTP GET and the JSON codec are function
  values.
- **Native stub and gateway** (`NativeStub`, `NativeGateway`). `wh.dll` keeps
  an init-once model path, returns a canned transcript through an
  out-parameter in a buffer from `malloc`, and reports errors as integer
  codes. `Native` turns those codes into exceptions and frees the buffer in a
  `finally` block. The C heap is a map from pointer to code units.
- **Orchestration** (`MainWindow`, `WavFinder`). `SelectInjector` picks the
  injector. `StartTranscriptionAsync` runs these steps in order, and any
  exception is logged, shown and rethrown:
  1. find the sample WAV;
  2. ensure the model;
  3. initialise the engine;
  4. transcribe;
  5. show the text;
  6. inject it;
  7. show " Ready" and shut down with code 0.
- **Small helpers** (`CommandLine`, `Logging`). `Args.Parse` reads the
  `--e2e-wav` flag. `FileLogger` writes one `<ts> <LEVEL> <event> key="value"…`
  line per call.

Code that changes state is written as classes and methods:
- the injector and the input queue;
- `Disk`;
- the stub library;
- the logger;
- the main window.

Each such method is proved to produce exactly the new state given by a pure
transition function (`InsertStep`, `EnsureModelAt`, `InitStep`,
`TranscribeStep`, `Drive`, …). The properties are stated and proved about those
functions. Where the source has a loop, the model has a loop with invariants.
These are the rune loop, the backspace loop, the path lowering loop, the
directory walk, the argument scan and the field loop of the log line.

Where the system's specification and the code disagree, the model follows the
code:
- **Recorded length.** The recorded last length is `s.Length`, the number of
  UTF-16 code units, not the number of scalar values.
- **Status text.** The ready status is `" Ready"`, with its leading space.
- **Failed injection.** A failed injection replaces the transcript on screen
  with `"Error: <message>"`, rather than leaving the transcript displayed.
- **Canned transcript.** The stub's canned transcript is `"hello"`.
- **Model replacement is not atomic.** The system's design promises that a
  failure before the rename leaves the previous model intact, with no stale
  manifest. The code deletes the old model first (ui/WH/ModelManager.cs:105),
  renames next (:106) and rewrites the manifest last (:107-108).
  `ModelManager.InstallOrder` gives that order.
  `ModelManager.ReplacementIsNotAtomic` shows the intermediate states: after
  the deletion there is no model beside the old manifest, and after the rename
  the new model sits beside the old manifest.

## Model

| member | source | states |
|---|---|---|
| CommandLine.Args.Parse | ui/WH/Args.cs:11-24 | The parsed path is the result of scanning the arguments front to back: the flag followed by another argument sets the path to that argument and skips it; everything else is skipped. |
| CommandLine.Args.IsE2e | ui/WH/Args.cs:9 | True exactly when the path is set and contains a non-white-space character. |
| CommandLine.LastCompleteOccurrenceWins | ui/WH/Args.cs:14-22 | A complete `--e2e-wav v` appended last sets the path to `v` verbatim, even when `v` is the flag itself. |
| CommandLine.TrailingFlagIgnored | ui/WH/Args.cs:17 | A trailing flag with nothing after it leaves the result unchanged. |
| CommandLine.OtherArgumentIgnored | ui/WH/Args.cs:16-17 | Appending any argument other than the exact flag leaves the result unchanged. |
| CommandLine.NoFlagMeansNone | ui/WH/Args.cs:13-23 | Without the flag the path stays null. |
| CommandLine.FlagIsCaseSensitive | ui/WH/Args.cs:17 | `--E2E-WAV hello.wav` is not recognised: the match is ordinal. |
| CommandLine.ScanConcat | ui/WH/Args.cs:14-22 | Scanning a prefix that does not end on a dangling flag, then the rest, is scanning the whole list. |
| TextInjection.SendInputTextInjector.Insert | ui/WH/TextInjection.cs:108-149 | The submitted batches, the outcome and `_lastCount` are exactly those of the `Insert` transition. |
| TextInjection.SendInputTextInjector.ReplaceLast | ui/WH/TextInjection.cs:151-170 | The submitted batches, the outcome and `_lastCount` are exactly those of the `ReplaceLast` transition. |
| TextInjection.InputQueue.SendInput | ui/WH/TextInjection.cs:141 | The batch is appended to the submitted batches, and the answer is the accepted count the queue gives for them. |
| TextInjection.EncodeBatch | ui/WH/TextInjection.cs:118-137 | The rune loop builds exactly the concatenation of each rune's events, in enumeration order. |
| TextInjection.AppendRune | ui/WH/TextInjection.cs:122-136 | One iteration appends two events for a BMP value or four for a surrogate pair, high surrogate first. |
| TextInjection.InsertContract | ui/WH/TextInjection.cs:115-148 | Null or empty text submits nothing and records 0. Otherwise exactly one batch is submitted: the keystrokes of the text, with lone surrogates replaced by U+FFFD. The call fails exactly when fewer than 2·`s.Length` events are accepted, and then keeps the old count. On success it records `s.Length`. |
| TextInjection.ReplaceLastContract | ui/WH/TextInjection.cs:153-169 | A count ≤ 0 is exactly `Insert`. A positive count submits a batch of 2n backspace events first. A short acceptance of that batch fails with the backspace error before any insertion event. Otherwise the call continues exactly as `Insert`. |
| TextInjection.ReplaceCorrectness | ui/WH/TextInjection.cs:151-170 | With a queue that accepts everything, replacing n > 0 units by well-formed text submits exactly n backspace pairs, then the keystrokes of the text, with nothing between them. The recorded count is the text's length. |
| TextInjection.InsertEventShapes | ui/WH/TextInjection.cs:122-136 | Every event is a keyboard event with `wVk = 0` and the Unicode flag. Even positions are key-downs and odd positions key-ups, and event i carries code unit i/2 of the scrubbed text. |
| TextInjection.InsertEventsAreKeystrokes | ui/WH/TextInjection.cs:118-137 | The batch is one down/up pair per code unit of the text, with unpaired surrogates replaced by U+FFFD. |
| TextInjection.InsertEventCount | ui/WH/TextInjection.cs:118-137 | A batch holds exactly 2·`s.Length` events for any text. |
| TextInjection.WellFormedRoundTrip | ui/WH/TextInjection.cs:118-137 | For well-formed text, reading the code units of the key-down events in order gives back the text, and there are 2·`s.Length` events. |
| TextInjection.SurrogateRoundTrip | ui/WH/TextInjection.cs:128-136 | For any string of scalar values, the key-down units of its typed events are its UTF-16 encoding, surrogate pairs included. |
| TextInjection.CharacterEvents | ui/WH/TextInjection.cs:122-136 | A character up to U+FFFF gives one down/up pair carrying it. A supplementary character gives the high surrogate's pair, then the low surrogate's, and the pair decodes back to the character. |
| TextInjection.BackspacesShape | ui/WH/TextInjection.cs:155-160 | The backspace batch is n pairs of VK_BACK down then up, each with `wScan = 0` and no Unicode flag. |
| TextInjection.UnicodeFlags | ui/WH/TextInjection.cs:172-202 | `DownUnicode` is a Unicode-mode key-down and `UpUnicode` a Unicode-mode key-up. |
| Unicode.SurrogatePairRoundTrip | ui/WH/TextInjection.cs:120 | Decoding a surrogate pair gives a supplementary scalar value whose encoding is that same pair. |
| Unicode.ScalarRoundTrip | ui/WH/TextInjection.cs:131-135 | Encoding a supplementary scalar value gives a high and a low surrogate that decode back to it. |
| Hex.DigestStringIsBase16 | ui/WH/ModelManager.cs:101 | `BitConverter.ToString(h).Replace("-", "").ToLowerInvariant()` equals lower-case base 16 of h. |
| Hex.Base16Shape | ui/WH/ModelManager.cs:101 | The digest text has two lower-case hex digits per byte and no separators. |
| Hex.Base16RoundTrip | ui/WH/ModelManager.cs:101 | Decoding the digest text gives back the digest bytes. |
| Hex.Base16Injective | ui/WH/ModelManager.cs:64-65 | Two digests have the same text exactly when they are the same bytes. |
| Hex.DigestsIgnoreCase | ui/WH/ModelManager.cs:65 | Comparing two formatted digests while ignoring case is plain equality of the digests. |
| Paths.FileNameOfCombine | ui/WH/ModelManager.cs:107 | The file name of a directory combined with a plain name is that name. |
| Paths.CombineAppend | ui/WH/ModelManager.cs:38-40 | Combining a directory with a name plus a suffix is the combined path plus the suffix. |
| Paths.CombineEndsWith | ui/WH/WavFinder.cs:24 | A combined path ends with its relative last part. |
| Host.Disk.Write | ui/WH/ModelManager.cs:91 | The file holds exactly the bytes, and the write is appended to the change log. |
| Host.Disk.Delete | ui/WH/ModelManager.cs:105 | The file is gone, and the deletion is appended to the change log. |
| Host.Disk.Move | ui/WH/ModelManager.cs:106 | The target holds the source's bytes and the source is gone. The move is appended to the change log. |
| ModelManager.ModelsRootChoice | ui/WH/ModelManager.cs:14-27 | The models root is `WH_MODELS_DIR` when it is not blank. Otherwise it is the runtime root followed by `models`. The runtime root is `WH_RUNTIME_DIR` when that is not blank, else `<LocalAppData>\wh`. |
| ModelManager.CacheLayout | ui/WH/ModelManager.cs:36-40 | The model's file name is `ggml-tiny.en.bin`, and the manifest path is the model path plus `.manifest.json`. The model, manifest and temporary paths are pairwise distinct. |
| ModelManager.ModelUrlChoice | ui/WH/ModelManager.cs:42-44 | `WH_MODEL_URL` is the URL whenever it is set, even when empty. Only an unset variable gives the fixed base URL plus the file name. |
| ModelManager.EmptyOverridesDiffer | ui/WH/ModelManager.cs:24-44 | An empty `WH_MODEL_URL` is used as the URL, while an empty `WH_MODELS_DIR` is ignored. |
| Host.StatusMessages | ui/WH/ModelManager.cs:90 | A 404 reply fails with "Response status code does not indicate success: 404 (Not Found).". Without a reason phrase the message ends after the code. |
| Host.StatusMessageForms | ui/WH/ModelManager.cs:90 | The status failure message puts a non-blank reason phrase in parentheses after the code and omits an empty one. |
| ModelManager.EnsureModel | ui/WH/ModelManager.cs:46-110 | The files, the log records and the outcome are exactly those of one run of the cache transition for the environment's paths and URL. |
| ModelManager.EnsureModelIn | ui/WH/ModelManager.cs:53-110 | The same as `EnsureModel`, for given paths and URL: verification, then the download unless the model verified. |
| ModelManager.LogVerdict | ui/WH/ModelManager.cs:53-81 | The verification block logs `model.verify` on a hit, `model.hash_mismatch` on a mismatch, `model.verify_failed` on an exception, and nothing otherwise. |
| ModelManager.Download | ui/WH/ModelManager.cs:84-109 | Logs `model.download.start`. A transport error or a non-success status fails with no file touched. Otherwise the body is installed and `model.download.complete` is logged. |
| ModelManager.Install | ui/WH/ModelManager.cs:91-108 | The files after installing are exactly those of the finalisation: write the temporary file, delete the old model, move, write the manifest. |
| ModelManager.HitIsQuiet | ui/WH/ModelManager.cs:53-69 | A run changes no file and succeeds exactly when the cached model verifies against its manifest. It then logs only `model.verify`. |
| ModelManager.FailuresComeFromDownload | ui/WH/ModelManager.cs:70-93 | No verification problem escapes. A failed run failed on the model URL's HTTP reply, logged `model.download.start` last, and changed no file. |
| ModelManager.InstallOrder | ui/WH/ModelManager.cs:96-108 | A download that succeeds makes exactly these changes: write the temporary file, delete the old model if present, move it to the model path, write the manifest. The manifest records the file name, the lower-case hex digest and the size of the body. |
| ModelManager.ReplacementIsNotAtomic | ui/WH/ModelManager.cs:104-108 | Replacing an existing model passes through two states. After the deletion there is no model while the old manifest is still present. After the rename the new bytes sit beside the old manifest. The finalisation is exactly those steps followed by writing the new manifest. |
| ModelManager.InstalledShape | ui/WH/ModelManager.cs:96-108 | Finalisation's change log and resulting files, for any starting disk. |
| ModelManager.SecondRunHits | ui/WH/ModelManager.cs:64-69 | Right after a successful run, a second run on the same files is a hit and changes nothing, provided the manifest codec reads back what it writes. |
| ModelManager.ChangedModelIsReplaced | ui/WH/ModelManager.cs:64-73 | A model whose digest differs from the one recorded in the manifest is a mismatch and is downloaded again. |
| ModelManager.DownloadStarts | ui/WH/ModelManager.cs:84-85 | The download block always logs `model.download.start` with the URL first. |
| LegacyModelManager.ModelManager.constructor | ui/Services/ModelManager.cs:13-18 | The model directory is `<LocalAppData>\wh\models`, with the fixed URL and the placeholder hash. |
| LegacyModelManager.ModelManager.EnsureModel | ui/Services/ModelManager.cs:20-32 | The files and the result are exactly those of the legacy transition: keep a verified file, otherwise download over the final path. |
| LegacyModelManager.VerifyHashMeaning | ui/Services/ModelManager.cs:34-42 | The hash verifies exactly when three things hold: the expectation is non-null and non-empty, the file exists, and the expectation lower-cased is the file's lower-case hex digest. |
| LegacyModelManager.NonHexNeverVerifies | ui/Services/ModelManager.cs:40-41 | An expectation whose first character is not a hex digit in either case never verifies. |
| LegacyModelManager.PlaceholderNeverVerifies | ui/Services/ModelManager.cs:15-18 | `"sha256-placeholder"` never verifies against any file. |
| LegacyModelManager.EveryCallDownloads | ui/Services/ModelManager.cs:22-31 | Every call downloads. It succeeds exactly on a 2xx reply and then overwrites `<modelDir>\ggml-small.bin` directly with the body. It returns that path, and a failure changes no file. |
| LegacyModelManager.MatchingFileIsKept | ui/Services/ModelManager.cs:36-41 | With the file's own digest as the expectation, the hash verifies exactly when the digest is non-empty. |
| NativeStub.WhLibrary.constructor | native/src/wh.cpp:22-25 | The globals start empty and uninitialised, with an empty heap. |
| NativeStub.WhLibrary.WhInit | native/src/wh.cpp:45-56 | Globals and return code are exactly those of the `wh_init` transition. |
| NativeStub.WhLibrary.WhTranscribeWav | native/src/wh.cpp:60-81 | Globals, heap, return code and out slot are exactly those of the `wh_transcribe_wav` transition. |
| NativeStub.WhLibrary.DupWstr | native/src/wh.cpp:28-34 | Returns null and changes nothing when malloc fails. Otherwise it returns a fresh pointer to the string plus its terminator. |
| NativeStub.WhLibrary.WhFree | native/src/wh.cpp:84-87 | Null is ignored. Any other live pointer is removed from the heap, and the call is recorded. |
| NativeStub.LowerInPlace | native/src/wh.cpp:66-67 | The array afterwards holds the ASCII-lowered units of its old contents. |
| NativeStub.TranscribeStep | native/src/wh.cpp:60-81 | A zero return code comes with a live pointer in the out slot. |
| NativeStub.InitCodes | native/src/wh.cpp:45-56 | A null path gives -1 and a throwing first initialisation gives -3, both with no state change. Anything else gives 0 and keeps the first stored path. The code -2 is unreachable. |
| NativeStub.InitOnce | native/src/wh.cpp:48-52 | After a first successful init, every later call with a path returns 0 and changes nothing. |
| NativeStub.TranscribeCodes | native/src/wh.cpp:60-81 | -1 without an out slot. Otherwise the slot is null on every failure: -2 for a null path or no init, -4 for an exception, -3 when malloc fails. On success the slot holds a fresh pointer to the transcript plus terminator, and no other block changes. |
| NativeStub.TranscriptIgnoresCase | native/src/wh.cpp:65-70 | Lower-casing the path first does not change the transcript. |
| NativeStub.HelloPaths | native/src/wh.cpp:65-71 | Any path containing `hello.wav` in any ASCII case gives `hello`. |
| NativeStub.HelloPathStrings | native/src/wh.cpp:65-71 | A path string containing `hello.wav`, once encoded as UTF-16, gives the encoding of `hello`. |
| NativeStub.HelloWavLiteral | native/src/wh.cpp:70 | `L"hello.wav"` is the UTF-16 encoding of `hello.wav`. |
| NativeStub.HelloLiteral | native/src/wh.cpp:71 | `L"hello"` is the UTF-16 encoding of `hello`. |
| NativeStub.TranscriptReadsBack | native/src/wh.cpp:28-34 | Reading a transcript block back up to its terminator gives the whole transcript. |
| NativeGateway.Init | ui/WH/Native.cs:17-21 | The stub state and the outcome are exactly those of calling `wh_init` and throwing on a non-zero code. |
| NativeGateway.TranscribeWav | ui/WH/Native.cs:23-35 | The stub state and the result are exactly those of calling `wh_transcribe_wav`, copying the string and freeing the buffer in `finally`. |
| NativeGateway.InitFailures | ui/WH/Native.cs:17-21 | Init throws, with the code, exactly when `wh_init` fails: -1 for a null path, -3 for a throwing first init. Otherwise the stub is initialised. |
| NativeGateway.FreedExactlyOnce | ui/WH/Native.cs:25-34 | After a zero code the buffer is freed exactly once, even when the copy fails. After a non-zero code nothing is freed and the call throws with that code. The C heap is unchanged after every call. |
| NativeGateway.TranscribeBeforeInit | ui/WH/Native.cs:25-26 | Before any successful Init, TranscribeWav throws with code -2 and changes nothing. |
| NativeGateway.TranscribeSuccess | ui/WH/Native.cs:25-29 | With no fault in the stub or the copy, the returned string is exactly the stub's canned transcript for the path. |
| NativeGateway.InitThenHello | ui/WH/Native.cs:17-35 | Without faults, Init with any model path succeeds, and then transcribing a path containing `hello.wav` returns `hello`. |
| WavFinder.FindHelloWav | ui/WH/WavFinder.cs:18-31 | The loop returns what the bounded upward search returns, starting at the base directory and inspecting four directories at most. |
| WavFinder.FindHelloWavOrThrow | ui/WH/WavFinder.cs:10-16 | It returns the found path, or fails with "No WAV found at assets/audio/hello.wav." when the search finds nothing. |
| WavFinder.SearchIsFirstExisting | ui/WH/WavFinder.cs:20-30 | The search returns the first existing candidate among the inspected directories, nearest first. |
| WavFinder.DirsShape | ui/WH/WavFinder.cs:21-28 | The inspected directories number at most four. They start with the base directory, and each is the non-empty parent of the one before. |
| WavFinder.FirstExistingMeaning | ui/WH/WavFinder.cs:24-25 | The result is the earliest existing candidate, and there is none exactly when no candidate exists. |
| WavFinder.SearchFindsCandidate | ui/WH/WavFinder.cs:24-25 | A found path exists and is `<dir>\assets\audio\hello.wav` for some directory. |
| WavFinder.CandidateEndsWithHello | ui/WH/WavFinder.cs:24 | Every candidate path ends with `hello.wav`. |
| WavFinder.CandidateNotBlank | ui/WH/WavFinder.cs:13 | A candidate path is never null or blank, so the blank check never rejects a found path. |
| Logging.Compose | ui/WH/Logging.cs:35-41 | The line built is the timestamp, a space, the level, a space and the event name, followed by one ` key="value"` segment per field in order. |
| Logging.FileLogger.constructor | ui/WH/Logging.cs:19-27 | Opening appends to the existing lines. The first record is `log.open` with the path. |
| Logging.FileLogger.Write | ui/WH/Logging.cs:33-46 | Each call appends exactly one formatted line, stamped with the clock reading for that line, and keeps the file in step with the calls. |
| Logging.FileLogger.Info | ui/WH/Logging.cs:29 | Records one `INFO` call and keeps the file in step with the calls. |
| Logging.FileLogger.Warn | ui/WH/Logging.cs:30 | Records one `WARN` call and keeps the file in step with the calls. |
| Logging.FileLogger.Error | ui/WH/Logging.cs:31 | Records one `ERROR` call and keeps the file in step with the calls. |
| Logging.Formatted | ui/WH/Logging.cs:44 | There is exactly one line per call. |
| Logging.FormattedLine | ui/WH/Logging.cs:44 | The k-th call is written on its own line, in call order, stamped with that line's clock reading. |
| Logging.FieldsInOrder | ui/WH/Logging.cs:38-41 | One more field appends exactly its ` key="value"` segment. |
| Logging.ParseLevelName | ui/WH/Logging.cs:29-31 | The level names `INFO`, `WARN` and `ERROR` are distinct, contain no space, and read back as their levels. |
| Logging.LineRoundTrip | ui/WH/Logging.cs:35-41 | A line reads back as its timestamp, level, event and fields, provided three things hold: the timestamp and event contain no space, no key contains `=`, and no value contains `"`. |
| Logging.FieldsRoundTrip | ui/WH/Logging.cs:38-41 | A run of segments reads back as the keys and rendered values, in order. |
| Logging.UnescapedValuesCollide | ui/WH/Logging.cs:40 | Values are not escaped, so two different field lists can produce the same line. |
| MainWindow.SelectInjectorMeaning | ui/WH/MainWindow.xaml.cs:24-33 | The clipboard injector is chosen exactly when `WH_INJECTOR` equals `clipboard` ignoring case. Unset, blank or any other value gives SendInput. |
| MainWindow.MainWindow.constructor | ui/WH/MainWindow.xaml.cs:15-18 | The injector kind is chosen by `SelectInjector` from the environment, and nothing has been shown yet. |
| MainWindow.MainWindow.LocateWav | ui/WH/MainWindow.xaml.cs:78-87 | The inline loop returns exactly what `WavFinder.FindHelloWav`'s search returns. |
| MainWindow.MainWindow.Locate | ui/WH/MainWindow.xaml.cs:78-94 | State and next phase are those of the locate block: without a WAV it shows the message, logs `transcribe.no_wav` and ends. |
| MainWindow.MainWindow.Acquire | ui/WH/MainWindow.xaml.cs:96-97 | State and next phase are those of the model block: log `startup`, run the cache, and go to the catch block on failure. |
| MainWindow.MainWindow.InitEngine | ui/WH/MainWindow.xaml.cs:98-100 | State and next phase are those of the init block: log `native.init` and call `Init` on the model path. |
| MainWindow.MainWindow.TranscribeAudio | ui/WH/MainWindow.xaml.cs:101-102 | State and next phase are those of the transcribe block: log `transcribe.start` and call `TranscribeWav`. |
| MainWindow.MainWindow.ShowTranscript | ui/WH/MainWindow.xaml.cs:103-105 | Logs `transcribe.done` and `inject.start` with the character count, and shows the text. |
| MainWindow.MainWindow.Deliver | ui/WH/MainWindow.xaml.cs:103-110 | State and outcome are those of delivering the text: show it, insert it with the selected injector, then conclude. |
| MainWindow.MainWindow.Conclude | ui/WH/MainWindow.xaml.cs:107-110 | Logs `inject.done`, sets the status to " Ready" and shuts down with code 0. |
| MainWindow.MainWindow.Fail | ui/WH/MainWindow.xaml.cs:112-117 | Logs `transcribe.error` with the message and shows "Error: <message>". |
| MainWindow.MainWindow.DeliverText | ui/WH/MainWindow.xaml.cs:103-117 | State and ending are those of running the flow from the delivery phase. |
| MainWindow.MainWindow.StartTranscription | ui/WH/MainWindow.xaml.cs:73-118 | State and ending are exactly those of the whole run. |
| MainWindow.MainWindow.UseModel | ui/WH/MainWindow.xaml.cs:96-117 | State and ending are those of running the flow from the model phase. |
| MainWindow.MainWindow.UseEngine | ui/WH/MainWindow.xaml.cs:98-117 | State and ending are those of running the flow from the init phase. |
| MainWindow.MainWindow.TranscribeThenDeliver | ui/WH/MainWindow.xaml.cs:101-117 | State and ending are those of running the flow from the transcribe phase. |
| MainWindow.LocateBlock | ui/WH/MainWindow.xaml.cs:78-94 | The locate block either hands a WAV to the model phase or ends the run with no input. |
| MainWindow.AcquireBlock | ui/WH/MainWindow.xaml.cs:96-97 | The model block goes on to init with the same WAV or ends the run failed. |
| MainWindow.InitBlock | ui/WH/MainWindow.xaml.cs:98-100 | The init block goes on to transcribe the same WAV or ends the run failed. |
| MainWindow.TranscribeBlock | ui/WH/MainWindow.xaml.cs:101-102 | The transcribe block goes on to deliver a text or ends the run failed. |
| MainWindow.DeliverBlock | ui/WH/MainWindow.xaml.cs:103-110 | The delivery block completes the run or ends it failed. |
| MainWindow.StepsInOrder | ui/WH/MainWindow.xaml.cs:96-110 | A run appends a prefix of these steps, in this order: model, init, transcribe, show, inject, ready, shutdown. All seven appear exactly when it completes, and none when there is no WAV. |
| MainWindow.NoWavStopsEarly | ui/WH/MainWindow.xaml.cs:89-94 | Without a WAV the only changes are the "No WAV found" text and the `transcribe.no_wav` record: no model, no native call, no injection. |
| MainWindow.InjectsTranscriptOnce | ui/WH/MainWindow.xaml.cs:102-106 | The injector receives at most one batch per run, and that batch is the keystrokes of the text shown just before. A completed run leaves that text on screen. |
| MainWindow.DeliveryInjects | ui/WH/MainWindow.xaml.cs:103-106 | The delivery block records Show then Inject of the same text and submits at most that text's keystrokes. |
| MainWindow.FailureShowsError | ui/WH/MainWindow.xaml.cs:112-117 | A failed run logs `transcribe.error` last and shows "Error: <message>", replacing any transcript on screen. The status and exit code are left alone. |
| MainWindow.TracedFrom | ui/WH/MainWindow.xaml.cs:73-118 | From any phase, a run appends the remaining steps in order, types at most once, and shows the error when it fails. |
| MainWindow.HelloEndToEnd | ui/WH/MainWindow.xaml.cs:73-110 | Assume the sample WAV is next to the app, the model is obtainable, no native fault occurs and every batch is accepted. Then the run completes: it shows `hello`, submits the keystrokes of `hello` as one batch, records 5, shows " Ready", exits with 0 and leaves no native buffer behind. |
| MainWindow.DeliveringCompletes | ui/WH/MainWindow.xaml.cs:103-110 | Delivering non-empty well-formed text to a queue that accepts everything completes the run with that text shown and typed. |
| MainWindow.HelloTranscript | ui/WH/MainWindow.xaml.cs:101-102 | The stub transcribes the sample WAV found under any base directory as `hello`. |

## Left out

- `ClipboardPasteInjector` (ui/WH/TextInjection.cs:17-54): it needs an STA thread, the Windows clipboard and `SendKeys`. The model records that the clipboard injector was chosen and that `Insert` was called, not what it types. Its `ReplaceLast` selects with shift-left rather than deleting with backspace.
- Real I/O is not modelled. SHA-256, the HTTP GET and the JSON codec are function values. File streams, `async`/`await` scheduling and `Task.Run` are sequential steps.
- `Directory.CreateDirectory` is not modelled, since the file map has no directories. `GetLogsRoot` is not modelled either: it only creates a directory.
- A download that fails while copying the body is not modelled. That would leave a partial temporary file, or a truncated model in the older manager. Only the request failing and a non-success status are modelled.
- ModelManager.Verify: a manifest whose `Sha256` is JSON null is not represented. The field is always a string.
- The `INPUT` struct layout, `Marshal.SizeOf`, `GetLastWin32Error` and the pointer semantics of `PtrToStringUni` are not modelled. The copy either succeeds or fails with out of memory.
- Host.Message: the `(err=…, cbSize=…)` suffix of the SendInput messages is dropped, because it depends on `GetLastWin32Error`.
- NativeStub.LowerInPlace: lowers ASCII letters only, not the locale-dependent `towlower`. This is exact for the `hello.wav` match.
- LegacyModelManager.VerifyHash: `ToLowerInvariant` is modelled as ASCII lowering. This is exact whenever either side is hex text.
- MainWindow.SelectInjectorMeaning: ignoring case is modelled as ASCII folding. This is exact for the literal `clipboard`.
- TextInjection.SendInputTextInjector.ReplaceLast: the 32-bit overflow of the list capacity `charCount * 2` is not modelled; the count is unbounded. The same holds for `s.Length * 2` in `Insert`.
- `Path.GetFullPath` is the identity. `Directory.GetParent(dir)?.FullName` is a function parameter.
- The timestamp and the lock of `FileLogger` are left out. The clock is a function from line number to text, and the writer is a sequence of lines.
- Logging.FileLogger.Info: states the new lines through the logger invariant (the file equals the formatted calls) rather than as an explicit appended line. `Write` states the appended line. The same holds for Logging.FileLogger.Warn and Logging.FileLogger.Error.
- Faults are explicit parameters of the model, not events that happen by themselves. These are a throwing `wh_init`, an exception or failed malloc in `wh_transcribe_wav`, and a failed copy in `Native`.
- The window's initial transcript and status text come from its XAML markup, which is not part of this model. `MainWindow.MainWindow.constructor` assumes both start empty. No property depends on that.
- `wh_hello` (native/src/wh.cpp:40-42) is not modelled: it returns a fixed greeting that no core code uses.
- The engine wrapper, native bootstrap, tray, app entry point and the text-sink test harness are not modelled. The window-style P/Invoke in ui/WH/MainWindow.xaml.cs:35-71 is left out too.
- The whole of a transcript shown in the window is kept as its UTF-16 units, and messages composed by the window are kept as strings. Rendering is not modelled.
