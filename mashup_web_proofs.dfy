/** Properties of the web variant's model: what the email check accepts, the order of the
    form checks, what cut_audios keeps, what merge_audios writes and what a successful worker
    run leaves for the mail. */
module MashupWebProofs {
  import opened Results
  import opened Text
  import opened Sound
  import opened Disk
  import opened Catalog
  import opened MashupWeb
  import Funnel

  // ----- is_valid_email -------------------------------------------------------------------

  /** The handler strips the field first, so the trailing-newline allowance never applies to
      what it checks: the stripped address is valid exactly when the whole of it matches. */
  lemma StrippedEmail(form: Form)
    ensures IsValidEmail(Field(form, "email")) <==> MatchesWhole(Field(form, "email"))
  {
    var e := Field(form, "email");
    assert e == [] || !IsSpace(e[|e| - 1]);
    NoTrailingSpace(e);
  }

  lemma NoTrailingSpace(e: string)
    requires e == [] || !IsSpace(e[|e| - 1])
    ensures IsValidEmail(e) <==> MatchesWhole(e)
  {
    assert IsSpace('\n');
  }

  /** A plain address passes, also with one trailing newline. */
  lemma EmailAccepted()
    ensures IsValidEmail("ab@cd.ef") && IsValidEmail("ab@cd.ef\n")
  {
    var e := "ab@cd.ef";
    assert IndexOf(e, '@') == 2 by {
      assert e[0] != '@' && e[1] != '@' && e[2] == '@';
    }
    assert LastIndexOf(e, '.') == 5 by {
      assert e[5] == '.' && e[6] != '.' && e[7] != '.';
    }
    assert e[..2] == "ab" && e[3..5] == "cd" && e[6..] == "ef";
    assert "ab@cd.ef\n" == e + "\n" && (e + "\n")[..8] == e;
  }

  /** A one-letter top-level part fails, and so do two trailing newlines. */
  lemma EmailRejected()
    ensures !IsValidEmail("ab@cd.e") && !IsValidEmail("ab@cd.ef\n\n")
  {
    var e := "ab@cd.e";
    assert LastIndexOf(e, '.') == 5 by {
      assert e[5] == '.' && e[6] != '.';
    }
    var f := "ab@cd.ef\n";
    assert f[..9] == f;
    assert LastIndexOf(f, '.') == 5 by {
      assert f[5] == '.' && f[6] != '.' && f[7] != '.' && f[8] != '.';
    }
    assert !IsAsciiLetter(f[8]);
  }

  // ----- process --------------------------------------------------------------------------

  /** The checks run in a fixed order and each rejection names the first one that fails:
      singer, then email, then the video count, then the duration. */
  lemma RejectionOrder(form: Form)
    ensures var r := Process(form);
            var singerOk := Field(form, "singer_name") != [];
            var emailOk := IsValidEmail(Field(form, "email"));
            var count := ParseInt(Field(form, "num_videos"));
            var duration := ParseInt(Field(form, "duration"));
            && (r == Rejected(InvalidVideoCount) <==> singerOk && emailOk && count.None?)
            && (r == Rejected(TooFewVideos) <==> singerOk && emailOk && count.Some? && count.value <= 10)
            && (r == Rejected(InvalidDuration) <==>
                  singerOk && emailOk && IntAbove(Field(form, "num_videos"), 10) && duration.None?)
            && (r == Rejected(TooShort) <==>
                  singerOk && emailOk && IntAbove(Field(form, "num_videos"), 10) && duration.Some? && duration.value <= 20)
  {
    assert !IsValidEmail([]) by {
      assert !EmailShape([]);
    }
  }

  /** A started job always carries a non-empty singer, an address the pattern matches as a
      whole and both numbers above their thresholds. */
  lemma StartedJobIsValid(form: Form)
    requires Process(form).Started?
    ensures var job := Process(form).job;
            && job.singer != [] && MatchesWhole(job.email) && job.count > 10 && job.seconds > 20
  {
    StrippedEmail(form);
  }

  // ----- cut_audios -----------------------------------------------------------------------

  /** The mp3 names keep the order in which the directory listed them. */
  lemma {:induction false} Mp3NamesInOrder(listing: seq<string>)
    ensures Funnel.Subseq(Mp3Names(listing), listing)
  {
    if listing == [] {
      assert Funnel.SubseqAt(Mp3Names(listing), listing, []);
    } else {
      var n := |listing| - 1;
      Mp3NamesInOrder(listing[..n]);
      var idx :| Funnel.SubseqAt(Mp3Names(listing[..n]), listing[..n], idx);
      if EndsWith(listing[n], ".mp3") {
        assert Funnel.SubseqAt(Mp3Names(listing), listing, idx + [n]);
      } else {
        assert Funnel.SubseqAt(Mp3Names(listing), listing, idx);
      }
    }
  }

  /** cut_audios keeps at most one cut per mp3, named cut_<name> in the mp3s' order. */
  lemma WebCutsFollowItems(files: Files, names: seq<string>, seconds: nat, tools: Tools)
    ensures |WebCutAll(files, names, seconds, tools).1| <= |names|
    ensures Funnel.Subseq(WebCutAll(files, names, seconds, tools).1, Funnel.Map(names, WebCutName))
  {
    var step := WebCutStepper(seconds, tools);
    Funnel.Shrinks(files, names, step);
    Funnel.KeepsOrder(files, names, step, WebCutName);
  }

  /** A reported cut: named cut_..., readable, at most `seconds` long. */
  predicate WebClipAt(files: Files, name: string, seconds: nat) {
    StartsWith(name, "cut_") && Readable(files, name) && |files[name].audio| <= seconds * MsPerSecond
  }

  /** Every cut cut_audios reports is readable and no longer than the requested duration when
      the loop ends. */
  lemma {:induction false} WebCutsAreBounded(files: Files, names: seq<string>, seconds: nat, tools: Tools)
    ensures forall p :: p in WebCutAll(files, names, seconds, tools).1 ==>
              WebClipAt(WebCutAll(files, names, seconds, tools).0, p, seconds)
  {
    var step := WebCutStepper(seconds, tools);
    var good := (f: Files, p: string) => WebClipAt(f, p, seconds);
    forall f: Files, x: string | step(f, x).1.Some?
      ensures good(step(f, x).0, step(f, x).1.value)
    {
      assert WebCutName(x)[..4] == "cut_";
    }
    Funnel.KeepsInvariant(files, names, step, good);
  }

  /** What one mp3 contributes judged against the workspace as downloaded. */
  function WebItemClip(files: Files, name: string, seconds: nat, tools: Tools): Option<Audio> {
    if Readable(files, name) && tools.exports(WebCutName(name)) then Some(Trim(files[name].audio, seconds)) else None
  }

  function WebItemCut(files: Files, seconds: nat, tools: Tools): string -> Option<string> {
    name => if WebItemClip(files, name, seconds, tools).Some? then Some(WebCutName(name)) else None
  }

  function WebItemClipOf(files: Files, seconds: nat, tools: Tools): string -> Option<Audio> {
    name => WebItemClip(files, name, seconds, tools)
  }

  /** The cut names of the mp3s that contribute, in listing order. */
  function WebKept(files: Files, names: seq<string>, seconds: nat, tools: Tools): seq<string> {
    Funnel.Keep(names, WebItemCut(files, seconds, tools))
  }

  /** The clips of the mp3s that contribute, in listing order. */
  function WebKeptClips(files: Files, names: seq<string>, seconds: nat, tools: Tools): seq<Audio> {
    Funnel.Keep(names, WebItemClipOf(files, seconds, tools))
  }

  predicate NoCutFiles(files: Files) {
    forall n :: n in files ==> !StartsWith(n, "cut_")
  }

  predicate WebHoldsClips(files: Files, names: seq<string>, seconds: nat, tools: Tools, after: Files) {
    forall i :: 0 <= i < |names| && WebItemClip(files, names[i], seconds, tools).Some? ==>
      WebCutName(names[i]) in after && after[WebCutName(names[i])] == Decodable(WebItemClip(files, names[i], seconds, tools).value)
  }

  predicate KeepsDownloads(files: Files, after: Files) {
    forall n :: n in files ==> n in after && after[n] == files[n]
  }

  lemma WebCutNameFresh(files: Files, names: seq<string>, x: string)
    requires NoCutFiles(files) && Distinct(names + [x])
    ensures WebCutName(x) !in files
    ensures forall i :: 0 <= i < |names| ==> WebCutName(names[i]) != WebCutName(x)
  {
    assert WebCutName(x)[..4] == "cut_";
    forall i | 0 <= i < |names|
      ensures WebCutName(names[i]) != WebCutName(x)
    {
      assert (names + [x])[i] == names[i] && (names + [x])[|names|] == x;
      assert WebCutName(names[i])[4..] == names[i];
    }
  }

  /** One pass on a workspace where the item still holds its download: it contributes what
      WebItemClip says and writes nothing but the item's cut. */
  lemma WebCutStepFresh(files: Files, after: Files, x: string, seconds: nat, tools: Tools)
    requires x in files && x in after && after[x] == files[x]
    ensures var (after', out) := WebCutStep(after, x, seconds, tools);
            var clip := WebItemClip(files, x, seconds, tools);
            && out == (if clip.Some? then Some(WebCutName(x)) else None)
            && (clip.Some? ==> after' == after[WebCutName(x) := Decodable(clip.value)])
            && (clip.None? ==> after' == after)
  {
  }

  lemma WebStep(files: Files, names: seq<string>, seconds: nat, tools: Tools, after: Files, cut: seq<string>, x: string)
    requires NoCutFiles(files) && Distinct(names + [x]) && x in files
    requires cut == WebKept(files, names, seconds, tools)
    requires WebHoldsClips(files, names, seconds, tools, after) && KeepsDownloads(files, after)
    ensures var (after', out) := WebCutStep(after, x, seconds, tools);
            && (if out.Some? then cut + [out.value] else cut) == WebKept(files, names + [x], seconds, tools)
            && WebHoldsClips(files, names + [x], seconds, tools, after')
            && KeepsDownloads(files, after')
  {
    WebCutNameFresh(files, names, x);
    WebCutStepFresh(files, after, x, seconds, tools);
    Funnel.KeepSnoc(names, x, WebItemCut(files, seconds, tools));
    var (after', out) := WebCutStep(after, x, seconds, tools);
    WebStepHoldsClips(files, names, seconds, tools, after, after', x);
  }

  lemma WebStepHoldsClips(files: Files, names: seq<string>, seconds: nat, tools: Tools, after: Files, after': Files, x: string)
    requires WebHoldsClips(files, names, seconds, tools, after)
    requires forall i :: 0 <= i < |names| ==> WebCutName(names[i]) != WebCutName(x)
    requires WebItemClip(files, x, seconds, tools).Some? ==>
               after' == after[WebCutName(x) := Decodable(WebItemClip(files, x, seconds, tools).value)]
    requires WebItemClip(files, x, seconds, tools).None? ==> after' == after
    ensures WebHoldsClips(files, names + [x], seconds, tools, after')
  {
    var xs := names + [x];
    forall i | 0 <= i < |xs| && WebItemClip(files, xs[i], seconds, tools).Some?
      ensures WebCutName(xs[i]) in after' && after'[WebCutName(xs[i])] == Decodable(WebItemClip(files, xs[i], seconds, tools).value)
    {
      if i < |names| {
        assert xs[i] == names[i];
      }
    }
  }

  lemma {:induction false} WebCutAllTracks(files: Files, names: seq<string>, seconds: nat, tools: Tools)
    requires NoCutFiles(files) && Distinct(names)
    requires forall i :: 0 <= i < |names| ==> names[i] in files
    ensures var (after, cut) := WebCutAll(files, names, seconds, tools);
            && cut == WebKept(files, names, seconds, tools)
            && WebHoldsClips(files, names, seconds, tools, after)
            && KeepsDownloads(files, after)
  {
    if names != [] {
      var n := |names| - 1;
      assert names == names[..n] + [names[n]];
      WebCutAllTracks(files, names[..n], seconds, tools);
      var (after, cut) := WebCutAll(files, names[..n], seconds, tools);
      WebStep(files, names[..n], seconds, tools, after, cut, names[n]);
    }
  }

  lemma WebLoadKept(files: Files, names: seq<string>, seconds: nat, tools: Tools, after: Files)
    requires WebHoldsClips(files, names, seconds, tools, after)
    ensures LoadAll(after, WebKept(files, names, seconds, tools)) == Success(WebKeptClips(files, names, seconds, tools))
  {
    LoadKeep(after, names, WebItemCut(files, seconds, tools), WebItemClipOf(files, seconds, tools));
  }


  /** With no cut_ file among the downloads, cut_audios is item-by-item: merge_audios
      receives exactly the clips of the mp3s that decode and export, each cut to the requested
      duration, in listing order, and the downloads are left as they were. */
  lemma WebCutAllMatchesReference(files: Files, names: seq<string>, seconds: nat, tools: Tools)
    requires NoCutFiles(files) && Distinct(names)
    requires forall i :: 0 <= i < |names| ==> names[i] in files
    ensures var (after, cut) := WebCutAll(files, names, seconds, tools);
            && cut == WebKept(files, names, seconds, tools)
            && LoadAll(after, cut) == Success(WebKeptClips(files, names, seconds, tools))
            && KeepsDownloads(files, after)
  {
    WebCutAllTracks(files, names, seconds, tools);
    var (after, cut) := WebCutAll(files, names, seconds, tools);
    WebLoadKept(files, names, seconds, tools, after);
  }

  lemma {:induction false} Mp3NamesDistinct(listing: seq<string>)
    requires Distinct(listing)
    ensures Distinct(Mp3Names(listing))
  {
    if listing != [] {
      var n := |listing| - 1;
      Mp3NamesDistinct(listing[..n]);
      assert listing[n] !in listing[..n];
    }
  }

  /** cut_audios over a full listing of a workspace without cut_ files: it fails with "No
      audio files found" exactly when no name ends in .mp3, with "Failed to process audio"
      exactly when no mp3 decodes and exports, and otherwise reports the Kept cuts. */
  lemma WebCutOutcome(files: Files, listing: seq<string>, seconds: nat, tools: Tools)
    requires NoCutFiles(files) && Enumerates(listing, files)
    ensures var (after, r) := WebCutSpec(files, listing, seconds, tools);
            var mp3s := Mp3Names(listing);
            && (r == Failure(NoAudioFiles) <==> forall n :: n in files ==> !EndsWith(n, ".mp3"))
            && (r == Failure(FailedToProcess) <==> mp3s != [] && WebKept(files, mp3s, seconds, tools) == [])
            && (r.Success? ==> r.value == WebKept(files, mp3s, seconds, tools)
                               && LoadAll(after, r.value) == Success(WebKeptClips(files, mp3s, seconds, tools)))
  {
    var mp3s := Mp3Names(listing);
    Mp3NamesDistinct(listing);
    assert forall i :: 0 <= i < |mp3s| ==> mp3s[i] in files by {
      forall i | 0 <= i < |mp3s|
        ensures mp3s[i] in files
      {
        assert mp3s[i] in mp3s;
      }
    }
    if mp3s != [] {
      WebCutAllMatchesReference(files, mp3s, seconds, tools);
      assert mp3s[0] in mp3s;
    } else {
      forall n | n in files
        ensures !EndsWith(n, ".mp3")
      {
        assert n in listing;
      }
    }
  }

  // ----- merge_audios ---------------------------------------------------------------------

  /** merge_audios writes the in-order concatenation of its inputs, as long as they together,
      and nothing else; it fails at the first input that does not decode. */
  lemma WebMergeWrites(files: Files, paths: seq<string>, output: string, tools: Tools)
    ensures var (after, r) := WebMergeSpec(files, paths, output, tools);
            && (r.Pass? <==> LoadAll(files, paths).Success? && tools.exports(output))
            && (r.Pass? ==> && after == files[output := Decodable(Concat(LoadAll(files, paths).value))]
                            && |after[output].audio| == TotalLength(LoadAll(files, paths).value))
            && (r.Fail? ==> after == files)
  {
    if LoadAll(files, paths).Success? {
      ConcatLength(LoadAll(files, paths).value);
    }
  }

  // ----- process_mashup -------------------------------------------------------------------

  /** The mp3 and the zip get different names: they differ where the suffixes do. */
  lemma MashupNamesDiffer(singer: string)
    ensures MashupName(singer, "_mashup.mp3") != MashupName(singer, "_mashup.zip")
  {
    var mp3, zip := MashupName(singer, "_mashup.mp3"), MashupName(singer, "_mashup.zip");
    assert mp3[|singer| + 8] != zip[|singer| + 8] by {
      assert mp3[|singer|..][8] == 'm' && zip[|singer|..][8] == 'z';
    }
  }

  /** When the worker gets as far as the mail, the zip it hands over is <singer>_mashup.zip and
      the workspace holds <singer>_mashup.mp3: the concatenation of at least one cut, each no
      longer than the requested duration. */
  lemma MashupDelivers(singer: string, count: nat, seconds: nat, listing: seq<string>, catalog: string -> Fetch,
                       tools: Tools, zips: bool)
    requires MashupSpec(singer, count, seconds, listing, catalog, tools, zips).1.Success?
    ensures var (final, r) := MashupSpec(singer, count, seconds, listing, catalog, tools, zips);
            var mp3 := MashupName(singer, "_mashup.mp3");
            && r.value == MashupName(singer, "_mashup.zip")
            && mp3 in final && final[mp3].Decodable?
            && exists clips: seq<Audio> :: && |clips| > 0
                                          && (forall i :: 0 <= i < |clips| ==> |clips[i]| <= seconds * MsPerSecond)
                                          && final[mp3].audio == Concat(clips)
  {
    var (downloaded, _) := DownloadSpec(map[], singer, count, catalog);
    var mp3s := Mp3Names(listing);
    var (cutDone, cut) := WebCutAll(downloaded, mp3s, seconds, tools);
    WebCutsAreBounded(downloaded, mp3s, seconds, tools);
    var clips := LoadAll(cutDone, cut).value;
    forall i | 0 <= i < |clips|
      ensures |clips[i]| <= seconds * MsPerSecond
    {
      assert WebClipAt(cutDone, cut[i], seconds);
    }
    MashupNamesDiffer(singer);
  }
}
