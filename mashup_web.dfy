/** The web variant (mashup_web.py): the /process handler validates the form and starts a
    worker; the worker (process_mashup) downloads mp3s into a temporary workspace, cuts each
    one, merges the cuts into <singer>_mashup.mp3, zips it for the mail and removes the
    workspace however the run ends. */
module MashupWeb {
  import opened Results
  import opened Text
  import opened Sound
  import opened Disk
  import opened Catalog
  import Funnel

  // ----- is_valid_email -------------------------------------------------------------------

  predicate IsAsciiLetter(c: char) {
    'a' <= c <= 'z' || 'A' <= c <= 'Z'
  }

  /** [a-zA-Z0-9._%+-] */
  predicate IsLocalChar(c: char) {
    IsAsciiLetter(c) || IsDigit(c) || c == '.' || c == '_' || c == '%' || c == '+' || c == '-'
  }

  /** [a-zA-Z0-9.-] */
  predicate IsDomainChar(c: char) {
    IsAsciiLetter(c) || IsDigit(c) || c == '.' || c == '-'
  }

  predicate AllLocal(s: string) {
    forall i :: 0 <= i < |s| ==> IsLocalChar(s[i])
  }

  predicate AllDomain(s: string) {
    forall i :: 0 <= i < |s| ==> IsDomainChar(s[i])
  }

  predicate AllLetters(s: string) {
    forall i :: 0 <= i < |s| ==> IsAsciiLetter(s[i])
  }

  /** `s` splits at an '@' (index `at`) and a '.' (index `dot`) into a non-empty local part,
      a non-empty domain and a top-level part of at least two letters: the pattern
      [a-zA-Z0-9._%+-]+@[a-zA-Z0-9.-]+\.[a-zA-Z]{2,} matching the whole of `s`. */
  predicate SplitsAt(s: string, at: int, dot: int) {
    && 0 < at && at + 1 < dot && dot + 2 < |s|
    && s[at] == '@' && s[dot] == '.'
    && AllLocal(s[..at]) && AllDomain(s[at + 1..dot]) && AllLetters(s[dot + 1..])
  }

  ghost predicate MatchesWhole(s: string) {
    exists at, dot :: SplitsAt(s, at, dot)
  }

  /** The pattern matched against the whole of `s`, decided without search: the '@' can only
      be the first one and the '.' only the last one. */
  predicate EmailShape(s: string) {
    SplitsAt(s, IndexOf(s, '@'), LastIndexOf(s, '.'))
  }

  /** Deciding the pattern with the first '@' and the last '.' loses no match: whenever some
      split fits, that one does. */
  lemma EmailShapeMatches(s: string)
    ensures EmailShape(s) <==> MatchesWhole(s)
  {
    if MatchesWhole(s) {
      var at, dot :| SplitsAt(s, at, dot);
      assert !IsLocalChar('@') && !IsAsciiLetter('.');
      assert IndexOf(s, '@') == at by {
        assert forall j :: 0 <= j < at ==> s[j] == s[..at][j];
      }
      assert LastIndexOf(s, '.') == dot by {
        assert forall j :: dot < j < |s| ==> s[j] == s[dot + 1..][j - dot - 1];
      }
    }
  }

  /** re.match(r'^...$', email) is not None: `$` matches at the very end and also just
      before a single trailing newline. So the address is accepted exactly when the pattern
      matches the whole of it, or the whole of it but a final newline. */
  function IsValidEmail(email: string): (r: bool)
    ensures r <==> || MatchesWhole(email)
                   || (|email| > 0 && email[|email| - 1] == '\n' && MatchesWhole(email[..|email| - 1]))
  {
    var withoutLast := if |email| > 0 then email[..|email| - 1] else email;
    EmailShapeMatches(email);
    EmailShapeMatches(withoutLast);
    || EmailShape(email)
    || (|email| > 0 && email[|email| - 1] == '\n' && EmailShape(withoutLast))
  }

  // ----- process --------------------------------------------------------------------------

  /** The form fields as Flask passes them. */
  type Form = map<string, string>

  /** request.form.get(key, '').strip() */
  function Field(form: Form, key: string): string {
    Strip(if key in form then form[key] else "")
  }

  /** Why process() declined the request; the comments give the message it answers with. */
  datatype Rejection =
    | SingerRequired     // "Singer name required"
    | EmailRequired      // "Valid email required"
    | TooFewVideos       // "Videos must be > 10"
    | InvalidVideoCount  // "Invalid video count"
    | TooShort           // "Duration must be > 20s"
    | InvalidDuration    // "Invalid duration"

  /** The arguments the worker thread is started with. */
  datatype Job = Job(singer: string, count: nat, seconds: nat, email: string)

  datatype Reply = Rejected(reason: Rejection) | Started(job: Job)

  /** process(): the checks in source order, each returning its own message; a job is
      started only when all of them pass. */
  function Process(form: Form): (r: Reply)
    ensures r == Rejected(SingerRequired) <==> Field(form, "singer_name") == []
    ensures r == Rejected(EmailRequired) <==> Field(form, "singer_name") != [] && !IsValidEmail(Field(form, "email"))
    ensures r.Started? <==> && Field(form, "singer_name") != [] && IsValidEmail(Field(form, "email"))
                            && IntAbove(Field(form, "num_videos"), 10) && IntAbove(Field(form, "duration"), 20)
    ensures r.Started? ==> && r.job.singer == Field(form, "singer_name")
                           && r.job.email == Field(form, "email")
                           && Some(r.job.count as int) == ParseInt(Field(form, "num_videos"))
                           && Some(r.job.seconds as int) == ParseInt(Field(form, "duration"))
  {
    var singer := Field(form, "singer_name");
    var numVideos := Field(form, "num_videos");
    var duration := Field(form, "duration");
    var email := Field(form, "email");
    if singer == [] then Rejected(SingerRequired)
    else if email == [] || !IsValidEmail(email) then Rejected(EmailRequired)
    else if ParseInt(numVideos).None? then Rejected(InvalidVideoCount)
    else if ParseInt(numVideos).value <= 10 then Rejected(TooFewVideos)
    else if ParseInt(duration).None? then Rejected(InvalidDuration)
    else if ParseInt(duration).value <= 20 then Rejected(TooShort)
    else Started(Job(singer, ParseInt(numVideos).value, ParseInt(duration).value, email))
  }

  // ----- the worker -----------------------------------------------------------------------

  /** The exceptions process_mashup catches (and only prints). */
  datatype WebError =
    | DownloadRaised           // extract_info itself raised
    | NoVideosFound            // "No videos found"
    | NoAudioFiles             // "No audio files found"
    | FailedToProcess          // "Failed to process audio"
    | Unreadable(name: string) // AudioSegment.from_mp3 raised while merging
    | ExportFailed(name: string)
    | ZipFailed

  /** download_videos(singer, count, temp_dir): unlike the command-line variant there is no
      minimum; only a search that raised or returned no entries list fails. */
  function DownloadSpec(files: Files, singer: string, count: nat, catalog: string -> Fetch): (Files, Outcome<WebError>) {
    var fetch := catalog(SearchQuery(singer, count));
    (files + fetch.written,
     match fetch.search
     case Raised => Fail(DownloadRaised)
     case NoEntries => Fail(NoVideosFound)
     case Entries(_) => Pass)
  }

  method DownloadVideos(ws: Directory, singer: string, count: nat, catalog: string -> Fetch) returns (r: Outcome<WebError>)
    requires ws.present
    modifies ws
    ensures ws.present
    ensures (ws.files, r) == DownloadSpec(old(ws.files), singer, count, catalog)
  {
    var fetch := catalog(SearchQuery(singer, count));
    ws.files := ws.files + fetch.written;
    match fetch.search
    case Raised => return Fail(DownloadRaised);
    case NoEntries => return Fail(NoVideosFound);
    case Entries(_) => return Pass;
  }

  /** f.endswith('.mp3') for every listed name, in listing order. */
  function Mp3Names(listing: seq<string>): (r: seq<string>)
    ensures forall n :: n in r <==> n in listing && EndsWith(n, ".mp3")
    ensures |r| <= |listing|
  {
    if listing == [] then []
    else
      var last := listing[|listing| - 1];
      Mp3Names(listing[..|listing| - 1]) + if EndsWith(last, ".mp3") then [last] else []
  }

  /** f"cut_{audio_file}": the whole original name, extension included. */
  function WebCutName(name: string): string {
    "cut_" + name
  }

  /** One pass of cut_audios' loop body: decode the mp3, cut it, export the cut. */
  function WebCutStep(files: Files, name: string, seconds: nat, tools: Tools): (Files, Option<string>) {
    if !Readable(files, name) || !tools.exports(WebCutName(name)) then (files, None)
    else (files[WebCutName(name) := Decodable(Trim(files[name].audio, seconds))], Some(WebCutName(name)))
  }

  function WebCutStepper(seconds: nat, tools: Tools): (Files, string) -> (Files, Option<string>) {
    (files, name) => WebCutStep(files, name, seconds, tools)
  }

  function WebCutAll(files: Files, names: seq<string>, seconds: nat, tools: Tools): (Files, seq<string>) {
    Funnel.Run(files, names, WebCutStepper(seconds, tools))
  }

  /** cut_audios(temp_dir, duration) given the order os.listdir returned. */
  function WebCutSpec(files: Files, listing: seq<string>, seconds: nat, tools: Tools): (Files, Result<seq<string>, WebError>) {
    var mp3s := Mp3Names(listing);
    if mp3s == [] then (files, Failure(NoAudioFiles))
    else
      var (after, cut) := WebCutAll(files, mp3s, seconds, tools);
      (after, if cut == [] then Failure(FailedToProcess) else Success(cut))
  }

  method WebCutOne(ws: Directory, audioFile: string, seconds: nat, tools: Tools) returns (out: Option<string>)
    requires ws.present
    modifies ws
    ensures ws.present
    ensures (ws.files, out) == WebCutStep(old(ws.files), audioFile, seconds, tools)
  {
    // AudioSegment.from_mp3 raises on a file it cannot read
    if !Readable(ws.files, audioFile) {
      return None;
    }
    var cutAudio := Trim(ws.files[audioFile].audio, seconds);
    var cutPath := WebCutName(audioFile);
    if !tools.exports(cutPath) {
      return None;
    }
    ws.Write(cutPath, Decodable(cutAudio));
    return Some(cutPath);
  }

  method CutAudios(ws: Directory, seconds: nat, tools: Tools)
    returns (r: Result<seq<string>, WebError>, ghost listing: seq<string>)
    requires ws.present
    modifies ws
    ensures ws.present
    ensures Enumerates(listing, old(ws.files))
    ensures (ws.files, r) == WebCutSpec(old(ws.files), listing, seconds, tools)
  {
    var names := ws.ListDir();
    listing := names;
    var audioFiles := Mp3Names(names);
    if audioFiles == [] {
      return Failure(NoAudioFiles), listing;
    }
    ghost var start := ws.files;
    var cutFiles: seq<string> := [];
    for i := 0 to |audioFiles|
      invariant ws.present
      invariant (ws.files, cutFiles) == WebCutAll(start, audioFiles[..i], seconds, tools)
    {
      assert audioFiles[..i + 1][..i] == audioFiles[..i];
      var out := WebCutOne(ws, audioFiles[i], seconds, tools);
      if out.Some? {
        cutFiles := cutFiles + [out.value];
      }
    }
    assert audioFiles[..|audioFiles|] == audioFiles;
    if cutFiles == [] {
      return Failure(FailedToProcess), listing;
    }
    return Success(cutFiles), listing;
  }

  /** merge_audios(files, output): decode every cut in list order, concatenate, export. */
  function WebMergeSpec(files: Files, paths: seq<string>, output: string, tools: Tools): (Files, Outcome<WebError>) {
    match LoadAll(files, paths)
    case Failure(bad) => (files, Fail(Unreadable(bad)))
    case Success(clips) =>
      if !tools.exports(output) then (files, Fail(ExportFailed(output)))
      else (files[output := Decodable(Concat(clips))], Pass)
  }

  /** merge_audios reads files[0] before looping, so it needs at least one file; cut_audios
      never returns an empty list. */
  method MergeAudios(ws: Directory, paths: seq<string>, output: string, tools: Tools) returns (r: Outcome<WebError>)
    requires ws.present && |paths| > 0
    modifies ws
    ensures ws.present
    ensures (ws.files, r) == WebMergeSpec(old(ws.files), paths, output, tools)
  {
    var joined := ws.JoinAll(paths);
    if joined.Failure? {
      return Fail(Unreadable(joined.error));
    }
    var merged := joined.value;
    if !tools.exports(output) {
      return Fail(ExportFailed(output));
    }
    ws.Write(output, Decodable(merged));
    return Pass;
  }

  /** f"{singer.replace(' ', '_')}{suffix}": the singer's name with every space turned into
      '_', followed by the suffix. */
  function MashupName(singer: string, suffix: string): (r: string)
    ensures |r| == |singer| + |suffix|
    ensures forall i :: 0 <= i < |singer| ==> r[i] == if singer[i] == ' ' then '_' else singer[i]
    ensures r[|singer|..] == suffix
  {
    ReplaceChar(singer, ' ', '_');
    Replace(singer, " ", "_") + suffix
  }

  /** The body of process_mashup's try block after mkdtemp, on the workspace contents: what
      the workspace holds when the block ends and, when it runs to the end, the zip handed to
      send_email. */
  function MashupSpec(singer: string, count: nat, seconds: nat, listing: seq<string>, catalog: string -> Fetch,
                      tools: Tools, zips: bool): (Files, Result<string, WebError>) {
    var (downloaded, d) := DownloadSpec(map[], singer, count, catalog);
    if d.Fail? then (downloaded, Failure(d.error))
    else
      var (cutDone, c) := WebCutSpec(downloaded, listing, seconds, tools);
      if c.Failure? then (cutDone, Failure(c.error))
      else
        var mp3 := MashupName(singer, "_mashup.mp3");
        var (merged, m) := WebMergeSpec(cutDone, c.value, mp3, tools);
        if m.Fail? then (merged, Failure(m.error))
        else
          var zip := MashupName(singer, "_mashup.zip");
          if !zips then (merged, Failure(ZipFailed))
          else (merged[zip := Undecodable], Success(zip))
  }

  /** process_mashup(singer, count, duration, email): every exception is caught, and the
      workspace is removed in `finally` whatever happened. The result is the zip passed to
      send_email, or the error that was printed; the ghost `listing` is the order os.listdir
      returned. */
  method ProcessMashup(singer: string, count: nat, seconds: nat, email: string, catalog: string -> Fetch,
                       tools: Tools, zips: bool)
    returns (r: Result<string, WebError>, ghost ws: Directory, ghost listing: seq<string>, ghost final: Files)
    ensures fresh(ws) && !ws.present && ws.files == map[]
    ensures MashupSpec(singer, count, seconds, listing, catalog, tools, zips) == (final, r)
    ensures DownloadSpec(map[], singer, count, catalog).1.Pass? ==>
              Enumerates(listing, DownloadSpec(map[], singer, count, catalog).0)
  {
    var tempDir := new Directory.MakeTemp();
    ws := tempDir;
    listing := [];
    r := Failure(ZipFailed);
    var fetched := DownloadVideos(tempDir, singer, count, catalog);
    if fetched.Fail? {
      r := Failure(fetched.error);
    } else {
      var cut;
      cut, listing := CutAudios(tempDir, seconds, tools);
      if cut.Failure? {
        r := Failure(cut.error);
      } else {
        var outputMp3 := MashupName(singer, "_mashup.mp3");
        var merged := MergeAudios(tempDir, cut.value, outputMp3, tools);
        if merged.Fail? {
          r := Failure(merged.error);
        } else {
          var outputZip := MashupName(singer, "_mashup.zip");
          if zips {
            tempDir.Write(outputZip, Undecodable);
            // send_email(email, output_zip, singer) reports failure by its return value only
            r := Success(outputZip);
          }
        }
      }
    }
    final := tempDir.files;
    tempDir.RemoveTree();  // finally: the workspace exists, so it is removed
  }
}
