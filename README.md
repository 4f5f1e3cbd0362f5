# Mashup pipeline: a verified model

This project models the decision logic of a small audio-mashup tool. The tool has two
variants that share one pipeline shape:

- the command-line script `102303766.py`;
- the Flask worker `mashup_web.py`.

A run validates its request and creates a temporary workspace. It fills the workspace with
audio files: catalog downloads, or synthetic silent clips in test mode. It cuts every usable
file to the requested number of seconds, dropping each file that fails. It concatenates the
cuts into one track in list order. The workspace is removed on every exit path.

Audio is a sequence of one-millisecond samples. `audio[:n]` is a prefix that never pads, and
`+` is concatenation. A directory is a `Disk.Directory` object. It holds a map from file names
to contents (`Decodable(audio)` or `Undecodable`) and a `present` flag that `shutil.rmtree`
clears. The external programs are not modelled; only their observable outcomes are:

- yt_dlp is a `catalog` function. It maps the search query to the search result and the files
  the downloader wrote.
- ffmpeg and pydub's exports are a `Tools` value:
  - whether the hard-coded ffmpeg exists;
  - how a conversion ends: the wav is written, ffmpeg exits with an error, or it is still
    running after 60 s and `subprocess.run` raises `TimeoutExpired`;
  - whether an export to a given name succeeds.
- `os.listdir` returns an arbitrary enumeration of the directory, chosen with `:|`.

Each loop that updates state is a method with a loop invariant. Its `ensures` ties the final
state and result to a recursive specification function: `CutAll` and `WebCutAll`, both
instances of the generic `Funnel.Run`, and `LoadAll`/`Concat` for the merge loops. The
stages compose the same way: `RunSpec` chains `CreateSpec` or `DownloadSpec`, `ProcessSpec`
and `MergeSpec`, and `RunStages` and `Launch` are proved equal to it. Lemmas then
prove what the source promises about those functions. One such lemma is an item-by-item
reference for the cutting loops. It shows that the loop keeps exactly the clips of the items
that decode and export, in listing order, provided no two downloads share a stem and the
workspace holds no stale `cut_`/`temp_` files. Two lemmas show what happens when those
conditions fail:

- `CollidingStems`: `a.mp3` and `a.wav` both become `cut_a.wav`, and the second clip is
  merged twice.
- `StaleTempWavIsUsed`: a stale temp wav stands in for a conversion on which ffmpeg exited
  with an error.

Files: `results.dfy` (Option/Result/Outcome), `text.dfy` (Python string operations),
`sound.dfy` (audio), `disk.dfy` (directories), `funnel.dfy` (the keep-the-successes fold),
`catalog.dfy` (the search query), `mashup_cli.dfy` and `mashup_cli_proofs.dfy`
(`102303766.py`), `mashup_web.dfy` and `mashup_web_proofs.dfy` (`mashup_web.py`).

Notes on the code:

- The loops run sequentially and thread the workspace from one item to the next, so the
  items are not independent of each other.
- The web worker has no minimum of three downloads. Only a search that raises or returns no
  entries list fails.
- "Nothing survived" is raised by the cutting stage, not by the merge.
- `shutil.rmtree` is called unconditionally by the command-line variant.

## Model

| member | source | states |
|---|---|---|
| Text.SplitExt | 102303766.py:106 | splitext: the two parts concatenate to the name; the extension is non-empty exactly when some '.' follows a non-'.' character; a non-empty extension is one '.' followed by no other '.' |
| Text.Strip | mashup_web.py:136-139 | str.strip(): the result is a slice of the field with only whitespace outside it; it is empty exactly when the field is all whitespace, and otherwise starts and ends with a non-space |
| Text.ShowNat | 102303766.py:83 | rendering a count gives a non-empty string of decimal digits, with a leading '0' exactly for 0 and never before other digits |
| Text.ParseInt | 102303766.py:45-61 | int(): a value exactly for a non-empty string of digits with an optional sign before at least one digit; a negative value only after '-'; any other string is a ValueError |
| Text.ParseNegative | 102303766.py:46 | int("-" + digits of n) is -n: the minus sign negates the value |
| Text.ParsePlus | 102303766.py:46 | int("+" + digits of n) is n: a plus sign is ignored |
| Text.ParseLeadingZero | 102303766.py:46 | a leading zero in front of a digit string does not change the value |
| Text.ParseShowNat | 102303766.py:83 | the count rendered into the search query reads back as the same number |
| Text.ReplaceChar | mashup_web.py:114 | replacing one character by another keeps the length and rewrites exactly the positions that held it |
| Text.Replace | 102303766.py:141 | str.replace of a pattern by one of the same length keeps the length; replacing a pattern by itself changes nothing |
| Text.ReplaceFirst | 102303766.py:141 | str.replace rewrites occurrences left to right: the text before the first occurrence is kept, that occurrence becomes the replacement, and the scan resumes right after it |
| Text.ReplaceAbsent | 102303766.py:141 | a pattern that does not occur leaves the string unchanged |
| Sound.Trim | 102303766.py:119 | audio[:seconds*1000] is a prefix of length min(len, seconds*1000): it never pads |
| Sound.ConcatLength | 102303766.py:137-139 | the merged track is exactly as long as the clips together |
| Sound.ConcatAppend | mashup_web.py:64-66 | merging respects list order: merging a + b is merging a followed by merging b |
| Sound.ConcatPlacesClip | 102303766.py:137-139 | the i-th clip occupies the stretch right after the clips before it: nothing is dropped, reordered or overlaid |
| Sound.UniformLength | 102303766.py:137-139 | n clips of m ms merge into n*m ms |
| Disk.Directory.MakeTemp | 102303766.py:172 | mkdtemp gives a present, empty directory |
| Disk.Directory.Delete | 102303766.py:148 | os.remove takes out exactly that file |
| Disk.Directory.RemoveTree | 102303766.py:186-187 | rmtree leaves the directory absent and empty |
| Disk.Directory.ListDir | 102303766.py:98 | os.listdir names every file exactly once, in some order |
| Disk.LoadAll | 102303766.py:137-139 | decoding a list succeeds exactly when every file decodes, giving their contents in order; otherwise the error is the first file that does not |
| Disk.Directory.JoinAll | 102303766.py:137-139 | the from_wav/+= loop gives the decoded files joined in list order, or stops at the first one that does not decode (merge_audios at mashup_web.py:64-66 runs the same loop) |
| Disk.EnumerationLength | 102303766.py:98 | a listing has as many names as the directory has files |
| Funnel.Shrinks | 102303766.py:102-125 | the keep-the-successes loop gives at most one output per item |
| Funnel.KeepsOrder | 102303766.py:102-125 | when outputs are named after their items, they are those names for a subsequence of the items, in item order |
| Funnel.KeepsInvariant | 102303766.py:102-125 | a property each success establishes and no step destroys holds of every output at the end |
| Catalog.QueryRequestsCount | 102303766.py:83 | the search query asks for exactly `count` results about "<singer> songs" |
| MashupCli.ValidateArgs | 102303766.py:39-63 | valid exactly when there are 5 arguments, the count parses above 10 and the duration above 20; a wrong arity is a usage error; a bad count is reported before the duration |
| MashupCli.CreateTestFiles | 102303766.py:31-36 | the workspace and outcome are CreateSpec: test_0.wav .. test_{count-1}.wav, each a minute of silence; an export that raises stops at that file with the earlier ones written |
| MashupCli.TestsWritten | 102303766.py:32-35 | the number of test files written is the first index whose export raises, or count |
| MashupCli.CreateSpecOutcome | 102303766.py:31-36 | create_test_files passes exactly when every export works, adding all count files; otherwise it fails at the first failing export with the earlier files written |
| MashupCli.DownloadVideos | 102303766.py:80-90 | the workspace and outcome are DownloadSpec: the downloads stay in the workspace; the run fails with the entry count exactly when fewer than 3 entries came back, whatever count was requested |
| MashupCli.AudioNames | 102303766.py:98 | keeps exactly the listed names ending in .mp3/.m4a/.wav/.webm/.opus |
| MashupCli.Convert | 102303766.py:16-28 | the conversion reports true exactly when ffmpeg exists, the run did not time out, and the temp wav exists afterwards; a successful conversion of a readable .webm writes its audio to the temp wav and reports true; only the temp wav can change, and it is newly created only by such a conversion |
| MashupCli.ConvertWebm | 102303766.py:16-28 | the workspace and result are Convert's: without ffmpeg, or when the run times out, the result is false; otherwise it is whether the temp wav exists after ffmpeg ran |
| MashupCli.CutOne | 102303766.py:104-125 | one loop pass changes the workspace and reports the cut exactly as CutStep says |
| MashupCli.ProcessAudios | 102303766.py:95-131 | the workspace and result are ProcessSpec of the listing: "No audio files found", "Failed to process any audio files", or the cut names |
| MashupCli.CutsAreBounded | 102303766.py:118-123 | every reported cut is a readable cut_ file no longer than the requested duration when the loop ends |
| MashupCli.MergeFiles | 102303766.py:134-153 | the current directory and result are MergeSpec: in-order concatenation, the wav under output.replace('.mp3','.wav'), then the mp3 with the wav removed, or the wav kept if the mp3 export fails |
| MashupCli.WavName | 102303766.py:141 | output.replace('.mp3', '.wav') keeps the length and leaves a name without ".mp3" unchanged |
| MashupCli.Position | 102303766.py:159 | the index of the first occurrence, or -1 exactly when there is none |
| MashupCli.RemoveFirst | 102303766.py:157-159 | list.remove takes out exactly one "--test", the first: the items before it and after it stay in order |
| MashupCli.OutputName | 102303766.py:169-170 | the output name ends in .mp3; it is the given name when that already ends in .mp3, and the given name followed by ".mp3" otherwise |
| MashupCli.RunStages | 102303766.py:174-181 | the current directory and result are RunSpec of the stages; a failure leaves the current directory unchanged; fewer than 3 downloads fails with that count; success names the output or its wav, holding the concatenation of one or more clips each at most the duration |
| MashupCli.Launch | 102303766.py:156-187 | a rejected command line exits 1 before any workspace exists; a valid one runs RunSpec on a fresh workspace with the parsed arguments and a listing that enumerates the acquired files, exits 0 exactly when that succeeds, and removes the workspace on every path |
| MashupCli.CutAndMerge | 102303766.py:180-181 | process_audios then merge_files: a failure leaves the current directory unchanged; a success names the output or its wav, and that file exists |
| MashupCli.RunSpec | 102303766.py:174-181 | the try block as one function: a failure leaves the current directory unchanged; a success names the output or its wav, and that file exists |
| MashupCliProofs.ThresholdsAreStrict | 102303766.py:45-61 | a numeric count and duration pass exactly when they are above 10 and above 20 (11/21 pass, 10/20 fail), each failure with its own reason |
| MashupCliProofs.CountCheckedFirst | 102303766.py:45-52 | an unparsable count is reported even when the duration is unparsable too |
| MashupCliProofs.WavNameOfMp3 | 102303766.py:141-144 | for an .mp3 output the wav name ends in .wav and differs from it, so the mp3 branch is always taken |
| MashupCliProofs.WavNameFirst | 102303766.py:141 | output.replace('.mp3', '.wav') keeps the name up to the first ".mp3", turns that into ".wav" and rewrites the rest the same way |
| MashupCliProofs.WavNameEveryMp3 | 102303766.py:141 | every ".mp3" is rewritten, not only the last: "a.mp3b.mp3" becomes "a.wavb.wav" |
| MashupCliProofs.MergeFilesOutcome | 102303766.py:137-153 | the artifact holds the concatenation and is as long as the clips together; it is the mp3 (wav removed) exactly when the mp3 export succeeds, else the wav; other files are untouched |
| MashupCliProofs.AudioNamesInOrder | 102303766.py:98 | the audio names keep the listing's order |
| MashupCliProofs.AudioNamesAll | 102303766.py:98 | a listing of audio files only is kept whole |
| MashupCliProofs.CutsFollowItems | 102303766.py:102-123 | at most one cut per audio file, named cut_<stem>.wav, in the items' order |
| MashupCliProofs.SplitExtKnown | 102303766.py:106 | splitext of stem + ".ext" is (stem, ".ext") when the stem is not only dots |
| MashupCliProofs.DotFileSkipped | 102303766.py:106-109 | a name like ".wav" has an empty extension and is skipped without changing the workspace |
| MashupCliProofs.WebmNeedsFfmpeg | 102303766.py:111-114 | without ffmpeg a .webm item is dropped and nothing changes |
| MashupCliProofs.StaleTempWavIsUsed | 102303766.py:16-28 | when ffmpeg exits with an error but a temp_<stem>.wav already exists, that stale file is cut in place of the .webm |
| MashupCliProofs.TimedOutWebmDropped | 102303766.py:20-28 | a .webm whose conversion times out is dropped and nothing changes, even when a temp wav exists |
| MashupCliProofs.CutStepFresh | 102303766.py:104-125 | on an item whose download is intact and whose temp wav does not exist yet, one pass contributes what ItemClip says and writes only the item's cut and temp wav |
| MashupCliProofs.CutAllMatchesReference | 102303766.py:102-131 | with distinct stems and no stale cut_/temp_ files, the loop reports exactly the usable items' cuts, which decode to those items' trimmed clips in listing order, and leaves the downloads untouched |
| MashupCliProofs.TestFilesSize | 102303766.py:32-34 | test mode writes count different files |
| MashupCliProofs.TestModeCuts | 102303766.py:31-36 | in test mode with working exports, every synthetic clip is cut, in any listing order, each to the first `duration` seconds of a minute of silence |
| MashupCliProofs.TestModeLength | 102303766.py:174-181 | a whole test run with working exports writes the .mp3 output, count * min(60 s, duration) long |
| MashupCliProofs.TestModeStages | 102303766.py:180-181 | in test mode with working exports, cutting and merging writes the .mp3 output, count * min(60 s, duration) long |
| MashupCliProofs.TestModeProcess | 102303766.py:95-131 | in test mode with working exports, process_audios succeeds with the cuts its loop reports |
| MashupCliProofs.MergeStage | 102303766.py:137-153 | once the cuts decode and the wav export works, the run succeeds with the concatenation of the clips, named the output exactly when the mp3 export works |
| MashupCliProofs.DownloadRunMatchesReference | 102303766.py:174-181 | a download run with at least 3 entries, distinct stems and no stale work files: "No audio files found" exactly when no file is audio, "Failed to process any audio files" exactly when none is kept, success exactly when some item is kept and the wav export works, the artifact then being the kept clips concatenated in listing order |
| MashupCliProofs.ReferenceStages | 102303766.py:180-181 | the same outcome for cutting and merging any workspace with distinct stems and no stale work files |
| MashupCliProofs.CollidingStems | 102303766.py:121-123 | "a.mp3" and "a.wav" both cut to cut_a.wav: the list names it twice and the merge holds the second clip twice |
| MashupWeb.EmailShapeMatches | mashup_web.py:19-20 | checking the first '@' and the last '.' decides exactly whether the pattern matches the whole string |
| MashupWeb.IsValidEmail | mashup_web.py:19-20 | is_valid_email accepts exactly the addresses the pattern matches whole, and those followed by one newline ($ also matches before a final newline) |
| MashupWeb.Process | mashup_web.py:133-165 | "Singer name required" exactly when the singer is blank; "Valid email required" exactly when the singer is set and the email fails; a job starts exactly when all four checks pass, carrying the stripped fields and parsed numbers |
| MashupWeb.DownloadVideos | mashup_web.py:23-39 | the downloads stay in the workspace; only a search that raised or returned no entries fails, whatever the number of entries |
| MashupWeb.Mp3Names | mashup_web.py:43 | keeps exactly the listed names ending in .mp3 |
| MashupWebProofs.Mp3NamesInOrder | mashup_web.py:43 | the mp3 names keep the listing's order |
| MashupWeb.WebCutOne | mashup_web.py:49-56 | one loop pass changes the workspace and reports the cut exactly as WebCutStep says |
| MashupWeb.CutAudios | mashup_web.py:42-60 | the workspace and result are WebCutSpec of the listing: "No audio files found", "Failed to process audio", or the cut names |
| MashupWeb.MergeAudios | mashup_web.py:63-67 | the workspace and outcome are WebMergeSpec: the in-order concatenation exported to the output, or the first failure |
| MashupWeb.ProcessMashup | mashup_web.py:106-125 | the run's outcome is MashupSpec of the listing, and the workspace is removed whatever happened |
| MashupWeb.MashupName | mashup_web.py:114-117 | the output name is the singer with each space turned into '_', followed by the suffix, and as long as both |
| MashupWebProofs.StrippedEmail | mashup_web.py:139-144 | after strip() the newline allowance never applies: the field is valid exactly when the pattern matches it whole |
| MashupWebProofs.NoTrailingSpace | mashup_web.py:19-20 | for an address not ending in whitespace, is_valid_email is exactly a whole-string match |
| MashupWebProofs.EmailAccepted | mashup_web.py:19-20 | "ab@cd.ef" passes, also with one trailing newline |
| MashupWebProofs.EmailRejected | mashup_web.py:19-20 | a one-letter top-level part fails, and so do two trailing newlines |
| MashupWebProofs.RejectionOrder | mashup_web.py:141-159 | each later rejection happens exactly when every earlier check passed and this one failed: count unparsable, count at most 10, duration unparsable, duration at most 20 |
| MashupWebProofs.StartedJobIsValid | mashup_web.py:141-165 | a started job has a non-empty singer, an address matching the pattern whole, a count above 10 and a duration above 20 |
| MashupWebProofs.WebCutsFollowItems | mashup_web.py:47-56 | at most one cut per mp3, named cut_<name>, in the mp3s' order |
| MashupWebProofs.WebCutsAreBounded | mashup_web.py:50-54 | every reported cut is a readable cut_ file no longer than the requested duration |
| MashupWebProofs.WebCutStepFresh | mashup_web.py:49-56 | on an intact download, one pass contributes what WebItemClip says and writes only its cut |
| MashupWebProofs.WebCutAllMatchesReference | mashup_web.py:47-56 | with no stale cut_ files, the loop reports exactly the usable mp3s' cuts, which decode to their trimmed clips in listing order, and leaves the downloads untouched |
| MashupWebProofs.WebCutOutcome | mashup_web.py:42-60 | "No audio files found" exactly when no file ends in .mp3, "Failed to process audio" exactly when no mp3 decodes and exports, otherwise the reference cuts |
| MashupWebProofs.WebMergeWrites | mashup_web.py:63-67 | the merge succeeds exactly when every input decodes and the export works; it then writes only the concatenation, as long as the inputs together |
| MashupWebProofs.MashupNamesDiffer | mashup_web.py:114-117 | the mp3 and zip names differ |
| MashupWebProofs.MashupDelivers | mashup_web.py:106-120 | a run that reaches the mail hands over <singer>_mashup.zip, and the workspace holds <singer>_mashup.mp3, a concatenation of one or more cuts each at most the duration |

## Left out

- yt_dlp search and download are network I/O. Only the outcome is modelled: the search result and the files written, as a function of the query string.
- The ffmpeg subprocess and the module-level ffmpeg path setup (102303766.py:9-13) are an external process. They are modelled only as "ffmpeg present" and how each conversion ends (written, error exit, or the 60 s timeout).
- pydub's decoders and encoders are foreign codecs. A file either decodes to its audio or cannot be read, and decoding does not depend on the declared format.
  - An export either fails, writing nothing, or stores exactly the segment. Lossy mp3 encoding, and any length change it causes, is not modelled.
  - Whether an export fails depends only on the target name.
- File names are compared exactly, case included. On a case-insensitive file system (the hard-coded ffmpeg path at 102303766.py:9 is a Windows path) cut_A.wav and cut_a.wav are one file, so cut names can collide even when the stems are distinct; the model does not capture those collisions.
- Paths are bare file names: `os.path.join` with the workspace is implicit, and the cut list holds names rather than full paths.
- `tempfile.mkdtemp` is taken to succeed. A failure before the workspace exists, and the web variant's `if temp_dir` guard that covers it, are not modelled.
- `shutil.rmtree` failing, for example on a directory that is already gone, is not modelled.
- create_zip (mashup_web.py:70-72) is filesystem I/O. It is modelled as a flag saying whether the zip is written; the zip's contents are not modelled.
- send_email (mashup_web.py:75-103) is SMTP network I/O. process_mashup ignores its result, and the model stops at handing over the zip name.
- The Flask app, the index route, jsonify, the daemon thread and the handler's outer `except` (mashup_web.py:128-171) are web plumbing and concurrency. `Process` returns the reply; starting the thread is the `Started` reply.
- Console output (every `print`) is not modelled.
- Python `int()` is modelled as an optional sign followed by ASCII digits. Surrounding whitespace, underscores and non-ASCII digits, all of which int() accepts, are not modelled.
- Durations are non-negative numbers; both variants reject anything at or below 20 first, so negative slices are unreachable.
- verify_setup.py is not part of this model. It probes the environment through imports and a subprocess.
- Text.Replace: only non-empty patterns are modelled. The source only replaces " " and ".mp3".
- MashupWebProofs.StartedJobIsValid: it does not restate that the job's singer has no surrounding whitespace. Text.Strip states that for every stripped field.
