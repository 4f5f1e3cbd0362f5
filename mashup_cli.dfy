/** The command-line mashup pipeline (102303766.py): validate the arguments, fill a temporary
    workspace (synthetic clips in test mode, a catalog download otherwise), cut every usable
    clip, merge the cuts into one track in the current directory, and remove the workspace on
    every exit path. */
module MashupCli {
  import opened Results
  import opened Text
  import opened Sound
  import opened Disk
  import opened Catalog
  import Funnel

  /** Both request thresholds are strict lower bounds. */
  const MinVideosExclusive: int := 10
  const MinSecondsExclusive: int := 20

  /** download_videos fails below this many search entries, whatever count was requested. */
  const MinDownloads: nat := 3

  /** Why validate_args rejected the command line (each prints its own message). */
  datatype ArgError = Usage | InvalidCount | TooFewVideos | InvalidDuration | TooShort

  datatype Verdict = Valid | Invalid(reason: ArgError)

  /** The exceptions that end a run after the workspace exists. */
  datatype CliError =
    | OnlyDownloaded(count: nat)  // "Only downloaded {n} videos (need at least 3)"
    | NoAudioFiles                // "No audio files found"
    | NoneProcessed               // "Failed to process any audio files"
    | Unreadable(name: string)    // AudioSegment.from_wav raised while merging
    | ExportFailed(name: string)  // an export outside a per-item handler raised

  // ----- validate_args -------------------------------------------------------------------

  /** validate_args(sys.argv): five entries (the script name, singer, count, duration and
      output), a count above 10 and a duration above 20; the count is checked first. */
  function ValidateArgs(args: seq<string>): (r: Verdict)
    ensures r == Valid <==> && |args| == 5
                            && IntAbove(args[2], MinVideosExclusive)
                            && IntAbove(args[3], MinSecondsExclusive)
    ensures |args| != 5 ==> r == Invalid(Usage)
    ensures |args| == 5 && !IntAbove(args[2], MinVideosExclusive) ==> r.Invalid? && r.reason in {InvalidCount, TooFewVideos}
  {
    if |args| != 5 then Invalid(Usage)
    else if ParseInt(args[2]).None? then Invalid(InvalidCount)
    else if ParseInt(args[2]).value <= MinVideosExclusive then Invalid(TooFewVideos)
    else if ParseInt(args[3]).None? then Invalid(InvalidDuration)
    else if ParseInt(args[3]).value <= MinSecondsExclusive then Invalid(TooShort)
    else Valid
  }

  // ----- create_test_files ----------------------------------------------------------------

  /** f"test_{i}.wav" */
  function TestName(i: nat): string {
    "test_" + ShowNat(i) + ".wav"
  }

  /** The first `n` synthetic clips: test_0.wav .. test_{n-1}.wav, each a minute of silence. */
  function TestFiles(n: nat): Files {
    map i | 0 <= i < n :: TestName(i) := Decodable(Silence(TestClipMs))
  }

  lemma TestFilesNext(n: nat)
    ensures TestFiles(n + 1) == TestFiles(n)[TestName(n) := Decodable(Silence(TestClipMs))]
  {
    var a, b := TestFiles(n + 1), TestFiles(n)[TestName(n) := Decodable(Silence(TestClipMs))];
    forall k | k in a
      ensures k in b
    {
      var i :| 0 <= i < n + 1 && k == TestName(i);
      if i < n {
        assert k in TestFiles(n);
      }
    }
  }

  lemma UpdateUnion(a: Files, b: Files, k: string, v: Blob)
    ensures (a + b)[k := v] == a + b[k := v]
  {
  }

  /** How many synthetic clips create_test_files writes before the first export that raises:
      `count` when none does. */
  function TestsWritten(count: nat, tools: Tools): (k: nat)
    ensures k <= count
    ensures forall i :: 0 <= i < k ==> tools.exports(TestName(i))
    ensures k < count ==> !tools.exports(TestName(k))
  {
    if count == 0 then 0
    else
      var k := TestsWritten(count - 1, tools);
      if k < count - 1 || !tools.exports(TestName(count - 1)) then k else count
  }

  /** TestsWritten is the only count with those three properties. */
  lemma TestsWrittenIs(count: nat, tools: Tools, k: nat)
    requires k <= count
    requires forall i :: 0 <= i < k ==> tools.exports(TestName(i))
    requires k < count ==> !tools.exports(TestName(k))
    ensures TestsWritten(count, tools) == k
  {
  }

  /** create_test_files on the workspace contents: the files written and whether it raised. */
  function CreateSpec(files: Files, count: nat, tools: Tools): (Files, Outcome<CliError>) {
    var k := TestsWritten(count, tools);
    (files + TestFiles(k), if k == count then Pass else Fail(ExportFailed(TestName(k))))
  }

  /** create_test_files passes exactly when every export works, writing all `count` clips;
      otherwise it raises at the first export that fails, with the earlier clips written. */
  lemma CreateSpecOutcome(files: Files, count: nat, tools: Tools)
    ensures var (after, r) := CreateSpec(files, count, tools);
            && (r.Pass? <==> forall i :: 0 <= i < count ==> tools.exports(TestName(i)))
            && (r.Pass? ==> after == files + TestFiles(count))
            && (r.Fail? ==> exists k :: && 0 <= k < count && !tools.exports(TestName(k))
                                        && (forall i :: 0 <= i < k ==> tools.exports(TestName(i)))
                                        && r.error == ExportFailed(TestName(k))
                                        && after == files + TestFiles(k))
  {
    var k := TestsWritten(count, tools);
    if k < count {
      assert !tools.exports(TestName(k));
    }
  }

  /** create_test_files(temp_dir, count): writes test_0.wav .. test_{count-1}.wav in turn; an
      export that raises ends the loop (and the run) at that file. */
  method CreateTestFiles(ws: Directory, count: nat, tools: Tools) returns (r: Outcome<CliError>)
    requires ws.present
    modifies ws
    ensures ws.present
    ensures r.Pass? <==> forall i :: 0 <= i < count ==> tools.exports(TestName(i))
    ensures r.Pass? ==> ws.files == old(ws.files) + TestFiles(count)
    ensures r.Fail? ==> exists k :: && 0 <= k < count && !tools.exports(TestName(k))
                                    && (forall i :: 0 <= i < k ==> tools.exports(TestName(i)))
                                    && r.error == ExportFailed(TestName(k))
                                    && ws.files == old(ws.files) + TestFiles(k)
    ensures (ws.files, r) == CreateSpec(old(ws.files), count, tools)
  {
    var i := 0;
    // the loop ends at `count` or at the first export that raises
    while i < count && tools.exports(TestName(i))
      invariant 0 <= i <= count && ws.present
      invariant forall j :: 0 <= j < i ==> tools.exports(TestName(j))
      invariant ws.files == old(ws.files) + TestFiles(i)
    {
      var name := TestName(i);
      ws.Write(name, Decodable(Silence(TestClipMs)));
      TestFilesNext(i);
      UpdateUnion(old(ws.files), TestFiles(i), name, Decodable(Silence(TestClipMs)));
      i := i + 1;
    }
    TestsWrittenIs(count, tools, i);
    r := if i < count then Fail(ExportFailed(TestName(i))) else Pass;
    assert (ws.files, r) == CreateSpec(old(ws.files), count, tools);
    CreateSpecOutcome(old(ws.files), count, tools);
  }

  // ----- download_videos ------------------------------------------------------------------

  /** The entry count download_videos ends with: 0 when the search raised or had no entries. */
  function Downloaded(s: Search): nat {
    if s.Entries? then s.count else 0
  }

  /** download_videos on the workspace contents: the files the downloader wrote are added,
      and fewer than three entries raises. */
  function DownloadSpec(files: Files, singer: string, count: nat, catalog: string -> Fetch): (Files, Outcome<CliError>) {
    var fetch := catalog(SearchQuery(singer, count));
    var n := Downloaded(fetch.search);
    (files + fetch.written, if n < MinDownloads then Fail(OnlyDownloaded(n)) else Pass)
  }

  /** download_videos(singer, count, temp_dir): one search for `count` results; whatever the
      downloader wrote stays in the workspace, and fewer than three entries is terminal. */
  method DownloadVideos(ws: Directory, singer: string, count: nat, catalog: string -> Fetch)
    returns (r: Outcome<CliError>)
    requires ws.present
    modifies ws
    ensures ws.present
    ensures ws.files == old(ws.files) + catalog(SearchQuery(singer, count)).written
    ensures r.Pass? <==> Downloaded(catalog(SearchQuery(singer, count)).search) >= MinDownloads
    ensures r.Fail? ==> r.error == OnlyDownloaded(Downloaded(catalog(SearchQuery(singer, count)).search))
    ensures (ws.files, r) == DownloadSpec(old(ws.files), singer, count, catalog)
  {
    var fetch := catalog(SearchQuery(singer, count));
    ws.files := ws.files + fetch.written;
    var downloaded := 0;
    if fetch.search.Entries? {
      downloaded := fetch.search.count;
    }
    if downloaded < MinDownloads {
      return Fail(OnlyDownloaded(downloaded));
    }
    return Pass;
  }

  // ----- process_audios -------------------------------------------------------------------

  /** f.endswith(('.mp3', '.m4a', '.wav', '.webm', '.opus')) */
  predicate IsAudioName(name: string) {
    || EndsWith(name, ".mp3") || EndsWith(name, ".m4a") || EndsWith(name, ".wav")
    || EndsWith(name, ".webm") || EndsWith(name, ".opus")
  }

  /** The list comprehension that picks the audio files out of the listing. */
  function AudioNames(listing: seq<string>): (r: seq<string>)
    ensures forall n :: n in r <==> n in listing && IsAudioName(n)
    ensures |r| <= |listing|
  {
    if listing == [] then []
    else
      var last := listing[|listing| - 1];
      AudioNames(listing[..|listing| - 1]) + if IsAudioName(last) then [last] else []
  }

  /** f"temp_{stem}.wav": where a .webm file is converted to. */
  function TempWavName(name: string): string {
    "temp_" + Stem(name) + ".wav"
  }

  /** f"cut_{stem}.wav": where an item's cut is exported. */
  function CutName(name: string): string {
    "cut_" + Stem(name) + ".wav"
  }

  /** convert_webm(webm, wav) as a change to the workspace and its return value. Without the
      hard-coded ffmpeg it raises, which process_audios' handler absorbs like a failed
      conversion. A run past the timeout raises inside the try and gives false. Otherwise the
      result is whether the wav exists once ffmpeg has exited, whether or not this run wrote
      it. */
  function Convert(files: Files, webm: string, wav: string, tools: Tools): (r: (Files, bool))
    ensures r.1 <==> tools.ffmpegPresent && tools.converts(webm) != TimedOut && wav in r.0
    ensures forall n :: n != wav ==> (n in r.0 <==> n in files)
    ensures forall n :: n != wav && n in files ==> r.0[n] == files[n]
    ensures wav in r.0 && wav !in files ==> tools.converts(webm) == Converted && Readable(files, webm)
    ensures tools.ffmpegPresent && tools.converts(webm) == Converted && Readable(files, webm) ==>
              r.1 && r.0[wav] == files[webm]
  {
    if !tools.ffmpegPresent then (files, false)
    else
      match tools.converts(webm)
      case TimedOut => (files, false)
      case Errored => (files, wav in files)
      case Converted =>
        var after := if Readable(files, webm) then files[wav := files[webm]] else files;
        (after, wav in after)
  }

  method ConvertWebm(ws: Directory, webm: string, wav: string, tools: Tools) returns (ok: bool)
    requires ws.present
    modifies ws
    ensures ws.present
    ensures (ws.files, ok) == Convert(old(ws.files), webm, wav, tools)
  {
    if !tools.ffmpegPresent {
      return false;
    }
    var outcome := tools.converts(webm);
    if outcome == TimedOut {
      // subprocess.run raised TimeoutExpired; the bare except returns False
      return false;
    }
    if outcome == Converted && Readable(ws.files, webm) {
      ws.Write(wav, ws.files[webm]);
    }
    ok := wav in ws.files;
  }

  /** One pass of process_audios' loop body: the workspace afterwards, and the cut file's name
      when the item survives. A name without an extension is skipped; a .webm file is first
      converted to its temp wav; a failed conversion, an unreadable file or a failed export
      drops the item. */
  function CutStep(files: Files, name: string, seconds: nat, tools: Tools): (Files, Option<string>) {
    var ext := Ext(name);
    if ext == [] then (files, None)
    else
      var (files', path, ok) :=
        if ext == "webm" then
          var (converted, exists_) := Convert(files, name, TempWavName(name), tools);
          (converted, TempWavName(name), exists_)
        else (files, name, true);
      if !ok || !Readable(files', path) || !tools.exports(CutName(name)) then (files', None)
      else (files'[CutName(name) := Decodable(Trim(files'[path].audio, seconds))], Some(CutName(name)))
  }

  function CutStepper(seconds: nat, tools: Tools): (Files, string) -> (Files, Option<string>) {
    (files, name) => CutStep(files, name, seconds, tools)
  }

  /** The whole loop over the audio files: the final workspace and cut_files. */
  function CutAll(files: Files, names: seq<string>, seconds: nat, tools: Tools): (Files, seq<string>) {
    Funnel.Run(files, names, CutStepper(seconds, tools))
  }

  /** process_audios(temp_dir, duration) given the order os.listdir returned. */
  function ProcessSpec(files: Files, listing: seq<string>, seconds: nat, tools: Tools): (Files, Result<seq<string>, CliError>) {
    var audio := AudioNames(listing);
    if audio == [] then (files, Failure(NoAudioFiles))
    else
      var (after, cut) := CutAll(files, audio, seconds, tools);
      (after, if cut == [] then Failure(NoneProcessed) else Success(cut))
  }

  /** One pass of the loop body, on the workspace. */
  method CutOne(ws: Directory, audioFile: string, seconds: nat, tools: Tools) returns (out: Option<string>)
    requires ws.present
    modifies ws
    ensures ws.present
    ensures (ws.files, out) == CutStep(old(ws.files), audioFile, seconds, tools)
  {
    var ext := Ext(audioFile);
    if ext == [] {
      return None;
    }
    var audioPath := audioFile;
    if ext == "webm" {
      var tempWav := TempWavName(audioFile);
      var converted := ConvertWebm(ws, audioFile, tempWav, tools);
      if !converted {
        return None;
      }
      audioPath := tempWav;
    }
    // AudioSegment.from_file raises on a file it cannot read
    if !Readable(ws.files, audioPath) {
      return None;
    }
    var cutAudio := Trim(ws.files[audioPath].audio, seconds);
    var cutPath := CutName(audioFile);
    if !tools.exports(cutPath) {
      return None;
    }
    ws.Write(cutPath, Decodable(cutAudio));
    return Some(cutPath);
  }

  method ProcessAudios(ws: Directory, seconds: nat, tools: Tools)
    returns (r: Result<seq<string>, CliError>, ghost listing: seq<string>)
    requires ws.present
    modifies ws
    ensures ws.present
    ensures Enumerates(listing, old(ws.files))
    ensures (ws.files, r) == ProcessSpec(old(ws.files), listing, seconds, tools)
  {
    var names := ws.ListDir();
    listing := names;
    var audioFiles := AudioNames(names);
    if audioFiles == [] {
      return Failure(NoAudioFiles), listing;
    }
    ghost var start := ws.files;
    var cutFiles: seq<string> := [];
    for i := 0 to |audioFiles|
      invariant ws.present
      invariant (ws.files, cutFiles) == CutAll(start, audioFiles[..i], seconds, tools)
    {
      assert audioFiles[..i + 1] == audioFiles[..i] + [audioFiles[i]];
      Funnel.RunSnoc(start, audioFiles[..i], audioFiles[i], CutStepper(seconds, tools));
      var out := CutOne(ws, audioFiles[i], seconds, tools);
      if out.Some? {
        cutFiles := cutFiles + [out.value];
      }
    }
    assert audioFiles[..|audioFiles|] == audioFiles;
    if cutFiles == [] {
      return Failure(NoneProcessed), listing;
    }
    return Success(cutFiles), listing;
  }

  /** A cut file: named cut_..., readable, and at most `seconds` long. */
  predicate ClipAt(files: Files, name: string, seconds: nat) {
    StartsWith(name, "cut_") && Readable(files, name) && |files[name].audio| <= seconds * MsPerSecond
  }

  lemma TempIsNotCut(name: string, other: string)
    requires StartsWith(other, "cut_")
    ensures TempWavName(name) != other
  {
    assert TempWavName(name)[0] == 't';
  }

  /** Every file process_audios reports holds a readable clip no longer than the requested
      duration, whatever happened to the other items: a later item can only ever overwrite a
      cut file with another cut. */
  lemma {:induction false} CutsAreBounded(files: Files, names: seq<string>, seconds: nat, tools: Tools)
    ensures forall p :: p in CutAll(files, names, seconds, tools).1 ==> ClipAt(CutAll(files, names, seconds, tools).0, p, seconds)
  {
    var step := CutStepper(seconds, tools);
    var good := (f: Files, p: string) => ClipAt(f, p, seconds);
    forall f: Files, x: string | step(f, x).1.Some?
      ensures good(step(f, x).0, step(f, x).1.value)
    {
      CutStepMakesClip(f, x, seconds, tools);
    }
    forall f: Files, x: string, y: string | good(f, y)
      ensures good(step(f, x).0, y)
    {
      CutStepKeepsClip(f, x, y, seconds, tools);
    }
    Funnel.KeepsInvariant(files, names, step, good);
  }

  lemma CutStepMakesClip(files: Files, x: string, seconds: nat, tools: Tools)
    requires CutStep(files, x, seconds, tools).1.Some?
    ensures ClipAt(CutStep(files, x, seconds, tools).0, CutStep(files, x, seconds, tools).1.value, seconds)
  {
    assert CutName(x)[..4] == "cut_";
  }

  lemma CutStepKeepsClip(files: Files, x: string, y: string, seconds: nat, tools: Tools)
    requires ClipAt(files, y, seconds)
    ensures ClipAt(CutStep(files, x, seconds, tools).0, y, seconds)
  {
    TempIsNotCut(x, y);
    if Ext(x) == "webm" {
      var (converted, ok) := Convert(files, x, TempWavName(x), tools);
      assert ClipAt(converted, y, seconds);
    }
  }

  // ----- merge_files ----------------------------------------------------------------------

  /** output.replace('.mp3', '.wav'): as long as the output name, and the same name when
      ".mp3" does not occur in it. */
  function WavName(output: string): (r: string)
    ensures |r| == |output|
    ensures !Contains(output, ".mp3") ==> r == output
  {
    if Contains(output, ".mp3") then Replace(output, ".mp3", ".wav")
    else
      ReplaceAbsent(output, ".mp3", ".wav");
      Replace(output, ".mp3", ".wav")
  }

  /** merge_files(files, output): the current directory afterwards and the artifact it reports.
      The clips are merged in list order and exported as wav under WavName(output); when the
      output is an .mp3 name different from that, the wav is re-encoded to the output and
      removed, and if that fails the wav is kept as the result. */
  function MergeSpec(source: Files, cwd: Files, paths: seq<string>, output: string, tools: Tools)
    : (r: (Files, Result<string, CliError>))
    ensures r.1.Failure? ==> r.0 == cwd
    ensures r.1.Success? ==> (r.1.value == output || r.1.value == WavName(output)) && r.1.value in r.0
  {
    match LoadAll(source, paths)
    case Failure(bad) => (cwd, Failure(Unreadable(bad)))
    case Success(clips) =>
      var merged := Decodable(Concat(clips));
      var wav := WavName(output);
      if !tools.exports(wav) then (cwd, Failure(ExportFailed(wav)))
      else if EndsWith(output, ".mp3") && output != wav && tools.exports(output) then
        (cwd[wav := merged][output := merged] - {wav}, Success(output))
      else (cwd[wav := merged], Success(wav))
  }

  method MergeFiles(ws: Directory, cwd: Directory, paths: seq<string>, output: string, tools: Tools)
    returns (r: Result<string, CliError>)
    requires ws.present && cwd.present && ws != cwd
    requires |paths| > 0
    modifies cwd
    ensures cwd.present
    ensures (cwd.files, r) == MergeSpec(ws.files, old(cwd.files), paths, output, tools)
  {
    var joined := ws.JoinAll(paths);
    if joined.Failure? {
      return Failure(Unreadable(joined.error));
    }
    var merged := joined.value;
    var wavOutput := WavName(output);
    if !tools.exports(wavOutput) {
      return Failure(ExportFailed(wavOutput));
    }
    cwd.Write(wavOutput, Decodable(merged));
    if EndsWith(output, ".mp3") && output != wavOutput {
      // re-reading the wav and exporting it as mp3 happen inside a handler that keeps the wav
      if tools.exports(output) {
        cwd.Write(output, Decodable(merged));
        cwd.Delete(wavOutput);
        return Success(output);
      }
      return Success(wavOutput);
    }
    return Success(wavOutput);
  }

  // ----- main -----------------------------------------------------------------------------

  /** Index of the first `x` in `xs`, or -1 when there is none. */
  function Position(xs: seq<string>, x: string): (k: int)
    ensures -1 <= k < |xs|
    ensures k == -1 <==> x !in xs
    ensures 0 <= k ==> xs[k] == x && x !in xs[..k]
  {
    if xs == [] then -1
    else if xs[0] == x then 0
    else
      var k := Position(xs[1..], x);
      assert 0 <= k ==> xs[..k + 1] == [xs[0]] + xs[1..][..k];
      if k == -1 then -1 else k + 1
  }

  /** sys.argv.remove(x) when x is present: exactly one `x` goes, the first, and the other
      arguments keep their order. */
  function RemoveFirst(xs: seq<string>, x: string): (r: seq<string>)
    ensures x !in xs ==> r == xs
    ensures x in xs ==> |r| == |xs| - 1 && multiset(r) == multiset(xs) - multiset{x}
    ensures x in xs ==> r[..Position(xs, x)] == xs[..Position(xs, x)] && x !in r[..Position(xs, x)]
    ensures x in xs ==> r[Position(xs, x)..] == xs[Position(xs, x) + 1..]
  {
    var k := Position(xs, x);
    if k < 0 then xs
    else
      assert xs == xs[..k] + [x] + xs[k + 1..];
      xs[..k] + xs[k + 1..]
  }

  /** The output name gets ".mp3" appended unless it already ends with it. */
  function OutputName(name: string): (r: string)
    ensures EndsWith(r, ".mp3")
    ensures StartsWith(r, name) && (r == name <==> EndsWith(name, ".mp3"))
    ensures !EndsWith(name, ".mp3") ==> r == name + ".mp3"
  {
    if EndsWith(name, ".mp3") then name else name + ".mp3"
  }

  /** The first stage of main's try block: synthetic clips in test mode, a download otherwise. */
  function AcquireSpec(files: Files, testMode: bool, singer: string, count: nat, catalog: string -> Fetch,
                       tools: Tools): (Files, Outcome<CliError>) {
    if testMode then CreateSpec(files, count, tools) else DownloadSpec(files, singer, count, catalog)
  }

  /** The rest of main's try block once the workspace is filled: process_audios, then
      merge_files on the cuts. */
  function CutAndMerge(acquired: Files, cwd: Files, listing: seq<string>, seconds: nat, output: string, tools: Tools)
    : (r: (Files, Result<string, CliError>))
    ensures r.1.Failure? ==> r.0 == cwd
    ensures r.1.Success? ==> (r.1.value == output || r.1.value == WavName(output)) && r.1.value in r.0
  {
    var (cutDone, c) := ProcessSpec(acquired, listing, seconds, tools);
    if c.Failure? then (cwd, Failure(c.error))
    else MergeSpec(cutDone, cwd, c.value, output, tools)
  }

  /** main's try block from the workspace it created, given the order os.listdir returns: the
      current directory afterwards and the artifact, or the exception that ends the run. The
      stages run in turn and the first exception skips the rest, so a failed run leaves the
      current directory as it was, and a successful one leaves its artifact there. */
  function RunSpec(files: Files, cwd: Files, testMode: bool, singer: string, count: nat, seconds: nat,
                   output: string, catalog: string -> Fetch, tools: Tools, listing: seq<string>)
    : (r: (Files, Result<string, CliError>))
    ensures r.1.Failure? ==> r.0 == cwd
    ensures r.1.Success? ==> (r.1.value == output || r.1.value == WavName(output)) && r.1.value in r.0
  {
    var (acquired, a) := AcquireSpec(files, testMode, singer, count, catalog, tools);
    if a.Fail? then (cwd, Failure(a.error))
    else CutAndMerge(acquired, cwd, listing, seconds, output, tools)
  }

  /** The body of main's try block: acquire, cut, merge. The ghost `listing` is the order
      os.listdir returned. */
  method RunStages(ws: Directory, cwd: Directory, testMode: bool, singer: string, count: nat, seconds: nat,
                   output: string, catalog: string -> Fetch, tools: Tools)
    returns (r: Result<string, CliError>, ghost listing: seq<string>)
    requires ws.present && cwd.present && ws != cwd
    modifies ws, cwd
    ensures ws.present && cwd.present
    ensures (cwd.files, r) == RunSpec(old(ws.files), old(cwd.files), testMode, singer, count, seconds, output,
                                      catalog, tools, listing)
    ensures var (acquired, a) := AcquireSpec(old(ws.files), testMode, singer, count, catalog, tools);
            a.Pass? ==> Enumerates(listing, acquired)
    ensures r.Failure? ==> cwd.files == old(cwd.files)
    ensures !testMode && Downloaded(catalog(SearchQuery(singer, count)).search) < MinDownloads ==>
              r == Failure(OnlyDownloaded(Downloaded(catalog(SearchQuery(singer, count)).search)))
    ensures r.Success? ==> && (r.value == output || r.value == WavName(output))
                           && r.value in cwd.files
                           && exists clips :: && 0 < |clips|
                                             && (forall i :: 0 <= i < |clips| ==> |clips[i]| <= seconds * MsPerSecond)
                                             && cwd.files[r.value] == Decodable(Concat(clips))
  {
    listing := [];
    if testMode {
      var made := CreateTestFiles(ws, count, tools);
      if made.Fail? {
        return Failure(made.error), listing;
      }
    } else {
      var fetched := DownloadVideos(ws, singer, count, catalog);
      if fetched.Fail? {
        return Failure(fetched.error), listing;
      }
    }
    ghost var acquired := ws.files;
    var cut;
    cut, listing := ProcessAudios(ws, seconds, tools);
    if cut.Failure? {
      return Failure(cut.error), listing;
    }
    CutsAreBounded(acquired, AudioNames(listing), seconds, tools);
    var cutFiles := cut.value;
    r := MergeFiles(ws, cwd, cutFiles, output, tools);
    if r.Success? {
      var clips := LoadAll(ws.files, cutFiles).value;
      forall i | 0 <= i < |clips|
        ensures |clips[i]| <= seconds * MsPerSecond
      {
        assert ClipAt(ws.files, cutFiles[i], seconds);
      }
    }
  }

  /** main(): the exit status and, as ghosts, the temporary workspace if one was made, the
      outcome of the try block and the order os.listdir returned. A rejected command line exits
      with 1 before any workspace exists. Otherwise the try block runs on a fresh, empty
      workspace with the parsed arguments, the status is 0 exactly when it succeeds, and the
      workspace is removed whatever the outcome. */
  method Launch(argv: seq<string>, cwd: Directory, catalog: string -> Fetch, tools: Tools)
    returns (exitCode: int, ghost ws: Directory?, ghost result: Result<string, CliError>, ghost listing: seq<string>)
    requires cwd.present
    modifies cwd
    ensures cwd.present
    ensures exitCode == 0 || exitCode == 1
    ensures ValidateArgs(RemoveFirst(argv, "--test")) != Valid ==>
              exitCode == 1 && ws == null && cwd.files == old(cwd.files)
    ensures ValidateArgs(RemoveFirst(argv, "--test")) == Valid ==>
              ws != null && fresh(ws) && !ws.present && ws.files == map[]
    ensures ValidateArgs(RemoveFirst(argv, "--test")) == Valid ==>
              var args := RemoveFirst(argv, "--test");
              && (cwd.files, result) == RunSpec(map[], old(cwd.files), "--test" in argv, args[1],
                                                ParseInt(args[2]).value, ParseInt(args[3]).value,
                                                OutputName(args[4]), catalog, tools, listing)
              && (exitCode == 0 <==> result.Success?)
    ensures ValidateArgs(RemoveFirst(argv, "--test")) == Valid ==>
              var args := RemoveFirst(argv, "--test");
              var (acquired, a) := AcquireSpec(map[], "--test" in argv, args[1], ParseInt(args[2]).value,
                                               catalog, tools);
              a.Pass? ==> Enumerates(listing, acquired)
    ensures exitCode == 0 ==>
              var args := RemoveFirst(argv, "--test");
              && ValidateArgs(args) == Valid
              && (OutputName(args[4]) in cwd.files || WavName(OutputName(args[4])) in cwd.files)
  {
    var testMode := "--test" in argv;
    var args := if testMode then RemoveFirst(argv, "--test") else argv;
    result := Failure(NoAudioFiles);
    listing := [];
    if ValidateArgs(args) != Valid {
      return 1, null, result, listing;
    }
    var singer := args[1];
    var count := ParseInt(args[2]).value;
    var seconds := ParseInt(args[3]).value;
    var output := OutputName(args[4]);
    var tempDir := new Directory.MakeTemp();
    ws := tempDir;
    var r;
    r, listing := RunStages(tempDir, cwd, testMode, singer, count, seconds, output, catalog, tools);
    result := r;
    exitCode := if r.Success? then 0 else 1;
    tempDir.RemoveTree();  // finally: shutil.rmtree(temp_dir)
  }
}
