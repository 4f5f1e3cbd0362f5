/** Properties of the command-line pipeline's model: the argument thresholds, what the cutting
    loop keeps and in which order, an item-by-item reference for that loop, the length of a
    test-mode mashup, and what happens when two downloads share a stem. */
module MashupCliProofs {
  import opened Results
  import opened Text
  import opened Sound
  import opened Disk
  import opened Catalog
  import opened MashupCli
  import Funnel

  // ----- validate_args --------------------------------------------------------------------

  /** Both thresholds are strict: a count written as a plain number passes exactly when it is
      above 10, and a duration exactly when it is above 20 (so 11 and 21 pass, 10 and 20 fail). */
  lemma ThresholdsAreStrict(program: string, singer: string, output: string, count: nat, seconds: nat)
    ensures ValidateArgs([program, singer, ShowNat(count), ShowNat(seconds), output]) == Valid
            <==> count > 10 && seconds > 20
    ensures count <= 10 ==> ValidateArgs([program, singer, ShowNat(count), ShowNat(seconds), output]) == Invalid(TooFewVideos)
    ensures count > 10 && seconds <= 20 ==> ValidateArgs([program, singer, ShowNat(count), ShowNat(seconds), output]) == Invalid(TooShort)
  {
    ParseShowNat(count);
    ParseShowNat(seconds);
  }

  /** The count is checked before the duration: an unreadable count is reported as such even
      when the duration is unreadable too. */
  lemma CountCheckedFirst(args: seq<string>)
    requires |args| == 5 && ParseInt(args[2]).None?
    ensures ValidateArgs(args) == Invalid(InvalidCount)
  {
  }

  // ----- main's argument handling ----------------------------------------------------------

  /** Whatever the user typed, the output name main passes on ends in .mp3, and merge_files
      then writes the wav under a different name that ends in .wav: the mp3 branch is always
      taken. */
  lemma {:induction false} WavNameOfMp3(output: string)
    requires EndsWith(output, ".mp3")
    ensures EndsWith(WavName(output), ".wav")
    ensures WavName(output) != output
  {
    ReplaceKeepsSuffix(output);
  }

  /** output.replace('.mp3', '.wav') rewrites every ".mp3", scanning left to right: the name up
      to the first ".mp3" is kept, that ".mp3" becomes ".wav", and the rest is rewritten the
      same way. */
  lemma WavNameFirst(output: string, i: nat)
    requires OccursAt(output, ".mp3", i)
    requires forall j :: 0 <= j < i ==> !OccursAt(output, ".mp3", j)
    ensures WavName(output) == output[..i] + ".wav" + WavName(output[i + 4..])
  {
    ReplaceFirst(output, ".mp3", ".wav", i);
  }

  /** Not only the final ".mp3" is rewritten: "a.mp3b.mp3" becomes "a.wavb.wav". */
  lemma WavNameEveryMp3(a: char, b: char)
    requires a != '.' && b != '.'
    ensures WavName([a] + ".mp3" + [b] + ".mp3") == [a] + ".wav" + [b] + ".wav"
  {
    var s := [a] + ".mp3" + [b] + ".mp3";
    assert s[0..4][0] == a;
    assert s[1..5] == ".mp3";
    WavNameFirst(s, 1);
    assert s[5..] == [b] + ".mp3" && s[..1] == [a];
    WavNameOneMp3(b);
  }

  lemma WavNameOneMp3(c: char)
    requires c != '.'
    ensures WavName([c] + ".mp3") == [c] + ".wav"
  {
    var s := [c] + ".mp3";
    assert s[0..4][0] == c;
    assert s[1..5] == ".mp3";
    WavNameFirst(s, 1);
    assert s[5..] == [] && s[..1] == [c];
    assert !Contains([], ".mp3");
  }

  lemma {:induction false} ReplaceKeepsSuffix(s: string)
    requires EndsWith(s, ".mp3")
    ensures EndsWith(Replace(s, ".mp3", ".wav"), ".wav")
    decreases |s|
  {
    if s[..4] == ".mp3" {
      if |s| == 4 {
        assert Replace(s[4..], ".mp3", ".wav") == [];
      } else {
        Mp3NoOverlap(s);
        assert s[4..][|s[4..]| - 4..] == s[|s| - 4..];
        ReplaceKeepsSuffix(s[4..]);
        EndsWithAppend(".wav", Replace(s[4..], ".mp3", ".wav"), ".wav");
      }
    } else {
      assert s[1..][|s[1..]| - 4..] == s[|s| - 4..];
      ReplaceKeepsSuffix(s[1..]);
      EndsWithAppend([s[0]], Replace(s[1..], ".mp3", ".wav"), ".wav");
    }
  }

  /** ".mp3" cannot overlap itself: the '.' of a suffix would fall on 'm', 'p' or '3' of a
      prefix, so a longer name that starts and ends with it holds it twice. */
  lemma Mp3NoOverlap(s: string)
    requires EndsWith(s, ".mp3") && s[..4] == ".mp3" && |s| > 4
    ensures |s| >= 8
  {
    var d := |s| - 4;
    assert s[d] == s[d..][0] == '.';
    assert forall k :: 0 < k < 4 ==> s[k] == s[..4][k] != '.';
  }

  lemma EndsWithAppend(a: string, b: string, suffix: string)
    requires EndsWith(b, suffix)
    ensures EndsWith(a + b, suffix)
  {
    assert (a + b)[|a + b| - |suffix|..] == b[|b| - |suffix|..];
  }

  /** merge_files' outcome: the artifact holds the in-order concatenation of the cuts and is as
      long as they together; it is the .mp3 output (and the wav is gone) exactly when the mp3
      export succeeds, otherwise the wav stays as the result; files other than these two are
      untouched. */
  lemma MergeFilesOutcome(source: Files, cwd: Files, paths: seq<string>, output: string, tools: Tools)
    requires EndsWith(output, ".mp3")
    requires LoadAll(source, paths).Success? && tools.exports(WavName(output))
    ensures var (cwd', r) := MergeSpec(source, cwd, paths, output, tools);
            var clips := LoadAll(source, paths).value;
            && r.Success?
            && (r.value == output <==> tools.exports(output))
            && (r.value == output ==> WavName(output) !in cwd')
            && (r.value != output ==> r.value == WavName(output))
            && r.value in cwd' && cwd'[r.value] == Decodable(Concat(clips))
            && |Concat(clips)| == TotalLength(clips)
            && forall n :: n in cwd && n != output && n != WavName(output) ==> n in cwd' && cwd'[n] == cwd[n]
  {
    WavNameOfMp3(output);
    ConcatLength(LoadAll(source, paths).value);
  }

  // ----- process_audios -------------------------------------------------------------------

  /** The audio files keep the order in which the directory listed them. */
  lemma {:induction false} AudioNamesInOrder(listing: seq<string>)
    ensures Funnel.Subseq(AudioNames(listing), listing)
  {
    if listing == [] {
      assert Funnel.SubseqAt(AudioNames(listing), listing, []);
    } else {
      var n := |listing| - 1;
      AudioNamesInOrder(listing[..n]);
      var idx :| Funnel.SubseqAt(AudioNames(listing[..n]), listing[..n], idx);
      if IsAudioName(listing[n]) {
        assert Funnel.SubseqAt(AudioNames(listing), listing, idx + [n]);
      } else {
        assert Funnel.SubseqAt(AudioNames(listing), listing, idx);
      }
    }
  }

  /** A listing of audio files only is kept whole. */
  lemma AudioNamesAll(listing: seq<string>)
    requires forall i :: 0 <= i < |listing| ==> IsAudioName(listing[i])
    ensures AudioNames(listing) == listing
  {
    AudioNamesKeep(listing);
    Funnel.KeepAll(listing, AudioItem);
  }

  /** The comprehension's filter as a funnel step: an audio name passes through. */
  function AudioItem(name: string): Option<string> {
    if IsAudioName(name) then Some(name) else None
  }

  /** The comprehension is the funnel that keeps exactly the audio names. */
  lemma {:induction false} AudioNamesKeep(listing: seq<string>)
    ensures AudioNames(listing) == Funnel.Keep(listing, AudioItem)
  {
    if listing != [] {
      AudioNamesKeep(listing[..|listing| - 1]);
    }
  }

  /** process_audios reports at most one cut per audio file, and the cuts are named after
      their items in the items' order. */
  lemma CutsFollowItems(files: Files, names: seq<string>, seconds: nat, tools: Tools)
    ensures |CutAll(files, names, seconds, tools).1| <= |names|
    ensures Funnel.Subseq(CutAll(files, names, seconds, tools).1, Funnel.Map(names, CutName))
  {
    var step := CutStepper(seconds, tools);
    Funnel.Shrinks(files, names, step);
    Funnel.KeepsOrder(files, names, step, CutName);
  }

  /** splitext on a name made of a stem with some character other than '.' and an extension
      holding only its leading '.'. */
  lemma SplitExtKnown(stem: string, ext: string)
    requires !OnlyDots(stem)
    requires |ext| > 0 && ext[0] == '.' && forall j :: 0 < j < |ext| ==> ext[j] != '.'
    ensures SplitExt(stem + ext) == (stem, ext)
  {
    var name := stem + ext;
    var k := LastIndexOf(name, '.');
    assert name[|stem|] == '.';
    assert k == |stem| by {
      forall j | |stem| < j < |name|
        ensures name[j] != '.'
      {
        assert name[j] == ext[j - |stem|];
      }
    }
    assert name[..k] == stem;
  }

  /** A name whose only '.' is its first character (".wav", ".mp3") has no extension
      according to splitext, so process_audios skips it without touching the workspace. */
  lemma DotFileSkipped(files: Files, name: string, seconds: nat, tools: Tools)
    requires |name| > 0 && name[0] == '.' && forall j :: 0 < j < |name| ==> name[j] != '.'
    ensures Ext(name) == []
    ensures CutStep(files, name, seconds, tools) == (files, None)
  {
  }

  /** Without the hard-coded ffmpeg a .webm item is dropped and the workspace is unchanged. */
  lemma WebmNeedsFfmpeg(files: Files, name: string, seconds: nat, tools: Tools)
    requires Ext(name) == "webm" && !tools.ffmpegPresent
    ensures CutStep(files, name, seconds, tools) == (files, None)
  {
  }

  /** convert_webm reports success whenever the temp wav exists after ffmpeg has exited, so a
      stale temp_<stem>.wav left in the workspace is cut in place of a .webm file on which
      ffmpeg exited with an error. */
  lemma StaleTempWavIsUsed(files: Files, name: string, seconds: nat, tools: Tools)
    requires Ext(name) == "webm" && tools.ffmpegPresent && tools.converts(name) == Errored
    requires Readable(files, TempWavName(name)) && tools.exports(CutName(name))
    ensures CutStep(files, name, seconds, tools)
            == (files[CutName(name) := Decodable(Trim(files[TempWavName(name)].audio, seconds))], Some(CutName(name)))
  {
  }

  /** A timeout raises inside convert_webm's try, so the .webm item is dropped and the
      workspace is unchanged, even when a temp wav is already there. */
  lemma TimedOutWebmDropped(files: Files, name: string, seconds: nat, tools: Tools)
    requires Ext(name) == "webm" && tools.ffmpegPresent && tools.converts(name) == TimedOut
    ensures CutStep(files, name, seconds, tools) == (files, None)
  {
  }

  // ----- an item-by-item reference for the cutting loop ------------------------------------

  /** What one item contributes when judged against the workspace as downloaded: its clip cut
      to `seconds`, provided it has an extension, a .webm item converts, the file decodes and
      the cut exports. */
  function ItemClip(files: Files, name: string, seconds: nat, tools: Tools): Option<Audio> {
    var ext := Ext(name);
    var converts := ext != "webm" || (tools.ffmpegPresent && tools.converts(name) == Converted);
    if ext != [] && converts && Readable(files, name) && tools.exports(CutName(name))
    then Some(Trim(files[name].audio, seconds))
    else None
  }

  /** An item's cut name when it contributes. */
  function ItemCut(files: Files, seconds: nat, tools: Tools): string -> Option<string> {
    name => if ItemClip(files, name, seconds, tools).Some? then Some(CutName(name)) else None
  }

  function ItemClipOf(files: Files, seconds: nat, tools: Tools): string -> Option<Audio> {
    name => ItemClip(files, name, seconds, tools)
  }

  /** The cut names of the items that contribute, in item order. */
  function Kept(files: Files, names: seq<string>, seconds: nat, tools: Tools): seq<string> {
    Funnel.Keep(names, ItemCut(files, seconds, tools))
  }

  /** The clips of the items that contribute, in item order. */
  function KeptClips(files: Files, names: seq<string>, seconds: nat, tools: Tools): seq<Audio> {
    Funnel.Keep(names, ItemClipOf(files, seconds, tools))
  }

  /** Kept and KeptClips grow by the contribution of the item appended to the list. */
  lemma KeptSnoc(files: Files, names: seq<string>, x: string, seconds: nat, tools: Tools)
    ensures var clip := ItemClip(files, x, seconds, tools);
            && Kept(files, names + [x], seconds, tools)
               == Kept(files, names, seconds, tools) + (if clip.Some? then [CutName(x)] else [])
            && KeptClips(files, names + [x], seconds, tools)
               == KeptClips(files, names, seconds, tools) + (if clip.Some? then [clip.value] else [])
  {
    Funnel.KeepSnoc(names, x, ItemCut(files, seconds, tools));
    Funnel.KeepSnoc(names, x, ItemClipOf(files, seconds, tools));
  }

  /** No file of the workspace is one the loop itself writes (cut_... or temp_...). */
  predicate NoWorkFiles(files: Files) {
    forall n :: n in files ==> !StartsWith(n, "cut_") && !StartsWith(n, "temp_")
  }

  predicate DistinctStems(names: seq<string>) {
    forall i, j :: 0 <= i < j < |names| ==> Stem(names[i]) != Stem(names[j])
  }

  lemma WorkNames(name: string)
    ensures StartsWith(CutName(name), "cut_") && StartsWith(TempWavName(name), "temp_")
  {
    assert CutName(name)[..4] == "cut_";
    assert TempWavName(name)[..5] == "temp_";
  }

  lemma NamesShareStem(a: string, b: string)
    ensures CutName(a) == CutName(b) ==> Stem(a) == Stem(b)
    ensures TempWavName(a) == TempWavName(b) ==> Stem(a) == Stem(b)
  {
    if CutName(a) == CutName(b) {
      assert Stem(a) == CutName(a)[4..|CutName(a)| - 4];
    }
    if TempWavName(a) == TempWavName(b) {
      assert Stem(a) == TempWavName(a)[5..|TempWavName(a)| - 4];
    }
  }

  /** Every item that contributes has its cut, holding its clip, in `after`. */
  predicate HoldsClips(files: Files, names: seq<string>, seconds: nat, tools: Tools, after: Files) {
    forall i :: 0 <= i < |names| && ItemClip(files, names[i], seconds, tools).Some? ==>
      CutName(names[i]) in after && after[CutName(names[i])] == Decodable(ItemClip(files, names[i], seconds, tools).value)
  }

  /** The downloaded files are still there, unchanged. */
  predicate KeepsOriginals(files: Files, after: Files) {
    forall n :: n in files ==> n in after && after[n] == files[n]
  }

  /** Every file that was not downloaded is the cut or temp wav of one of the items. */
  predicate OnlyWorkFiles(files: Files, names: seq<string>, after: Files) {
    forall n :: n in after ==>
      (n in files || exists i :: 0 <= i < |names| && (n == CutName(names[i]) || n == TempWavName(names[i])))
  }

  /** What the loop has done after the items `names`, relative to the workspace it started
      from. */
  predicate Tracks(files: Files, names: seq<string>, seconds: nat, tools: Tools, after: Files, cut: seq<string>) {
    && cut == Kept(files, names, seconds, tools)
    && HoldsClips(files, names, seconds, tools, after)
    && KeepsOriginals(files, after)
    && OnlyWorkFiles(files, names, after)
  }

  /** One pass of the loop on a workspace where the item still holds its download and its
      temp wav does not exist yet: the pass contributes what ItemClip says and writes nothing
      but the item's cut and temp wav. */
  lemma CutStepFresh(files: Files, after: Files, x: string, seconds: nat, tools: Tools)
    requires x in files && x in after && after[x] == files[x]
    requires TempWavName(x) !in after
    ensures var (after', out) := CutStep(after, x, seconds, tools);
            var clip := ItemClip(files, x, seconds, tools);
            && out == (if clip.Some? then Some(CutName(x)) else None)
            && (clip.Some? ==> CutName(x) in after' && after'[CutName(x)] == Decodable(clip.value))
            && (forall n :: n in after' ==> n in after || n == CutName(x) || n == TempWavName(x))
            && (forall n :: n in after && n != CutName(x) && n != TempWavName(x) ==> n in after' && after'[n] == after[n])
  {
    WorkNames(x);
    assert TempWavName(x)[0] != CutName(x)[0];
    var ext := Ext(x);
    if ext == [] {
    } else if ext == "webm" {
      var (converted, ok) := Convert(after, x, TempWavName(x), tools);
      assert forall n :: n in converted ==> n in after || n == TempWavName(x);
    } else {
      assert Readable(after, x) == Readable(files, x);
    }
  }

  /** The files item `x` writes belong to no earlier item and were not downloaded. */
  lemma FreshWorkNames(files: Files, names: seq<string>, after: Files, x: string)
    requires NoWorkFiles(files) && DistinctStems(names + [x])
    requires OnlyWorkFiles(files, names, after)
    ensures CutName(x) !in files && TempWavName(x) !in files && TempWavName(x) !in after
    ensures forall i :: 0 <= i < |names| ==> CutName(names[i]) != CutName(x) && CutName(names[i]) != TempWavName(x)
  {
    var xs := names + [x];
    WorkNames(x);
    forall i | 0 <= i < |names|
      ensures CutName(names[i]) != CutName(x) && CutName(names[i]) != TempWavName(x)
      ensures TempWavName(names[i]) != TempWavName(x)
    {
      WorkNames(names[i]);
      NamesShareStem(x, names[i]);
      assert xs[i] == names[i] && xs[|names|] == x;
      assert CutName(names[i])[0] != TempWavName(x)[0];
    }
  }

  lemma StepHoldsClips(files: Files, names: seq<string>, seconds: nat, tools: Tools, after: Files, after': Files, x: string)
    requires HoldsClips(files, names, seconds, tools, after)
    requires forall i :: 0 <= i < |names| ==> CutName(names[i]) != CutName(x) && CutName(names[i]) != TempWavName(x)
    requires ItemClip(files, x, seconds, tools).Some? ==>
               CutName(x) in after' && after'[CutName(x)] == Decodable(ItemClip(files, x, seconds, tools).value)
    requires forall n :: n in after && n != CutName(x) && n != TempWavName(x) ==> n in after' && after'[n] == after[n]
    ensures HoldsClips(files, names + [x], seconds, tools, after')
  {
    var xs := names + [x];
    forall i | 0 <= i < |xs| && ItemClip(files, xs[i], seconds, tools).Some?
      ensures CutName(xs[i]) in after' && after'[CutName(xs[i])] == Decodable(ItemClip(files, xs[i], seconds, tools).value)
    {
      if i < |names| {
        assert xs[i] == names[i];
      }
    }
  }

  lemma StepOnlyWorkFiles(files: Files, names: seq<string>, after: Files, after': Files, x: string)
    requires OnlyWorkFiles(files, names, after)
    requires forall n :: n in after' ==> n in after || n == CutName(x) || n == TempWavName(x)
    ensures OnlyWorkFiles(files, names + [x], after')
  {
    var xs := names + [x];
    forall n | n in after'
      ensures n in files || exists i :: 0 <= i < |xs| && (n == CutName(xs[i]) || n == TempWavName(xs[i]))
    {
      if n !in after {
        assert n == CutName(xs[|names|]) || n == TempWavName(xs[|names|]);
      } else if n !in files {
        var i :| 0 <= i < |names| && (n == CutName(names[i]) || n == TempWavName(names[i]));
        assert xs[i] == names[i];
      }
    }
  }

  /** Tracks carries over a pass that contributes what ItemClip says and touches only the
      item's own cut and temp wav, which no earlier item and no download uses. */
  lemma TracksNext(files: Files, names: seq<string>, seconds: nat, tools: Tools, after: Files, cut: seq<string>,
                   x: string, after': Files, out: Option<string>)
    requires Tracks(files, names, seconds, tools, after, cut)
    requires CutName(x) !in files && TempWavName(x) !in files
    requires forall i :: 0 <= i < |names| ==> CutName(names[i]) != CutName(x) && CutName(names[i]) != TempWavName(x)
    requires out == (if ItemClip(files, x, seconds, tools).Some? then Some(CutName(x)) else None)
    requires ItemClip(files, x, seconds, tools).Some? ==>
               CutName(x) in after' && after'[CutName(x)] == Decodable(ItemClip(files, x, seconds, tools).value)
    requires forall n :: n in after' ==> n in after || n == CutName(x) || n == TempWavName(x)
    requires forall n :: n in after && n != CutName(x) && n != TempWavName(x) ==> n in after' && after'[n] == after[n]
    ensures Tracks(files, names + [x], seconds, tools, after', if out.Some? then cut + [out.value] else cut)
  {
    KeptSnoc(files, names, x, seconds, tools);
    StepHoldsClips(files, names, seconds, tools, after, after', x);
    StepOnlyWorkFiles(files, names, after, after', x);
  }

  lemma TracksStep(files: Files, names: seq<string>, seconds: nat, tools: Tools, after: Files, cut: seq<string>, x: string)
    requires NoWorkFiles(files) && x in files
    requires DistinctStems(names + [x])
    requires Tracks(files, names, seconds, tools, after, cut)
    ensures var (after', out) := CutStep(after, x, seconds, tools);
            Tracks(files, names + [x], seconds, tools, after', if out.Some? then cut + [out.value] else cut)
  {
    FreshWorkNames(files, names, after, x);
    CutStepFresh(files, after, x, seconds, tools);
    var (after', out) := CutStep(after, x, seconds, tools);
    TracksNext(files, names, seconds, tools, after, cut, x, after', out);
  }

  lemma {:induction false} CutAllTracks(files: Files, names: seq<string>, seconds: nat, tools: Tools)
    requires NoWorkFiles(files) && DistinctStems(names)
    requires forall i :: 0 <= i < |names| ==> names[i] in files
    ensures Tracks(files, names, seconds, tools, CutAll(files, names, seconds, tools).0, CutAll(files, names, seconds, tools).1)
  {
    if names != [] {
      var n := |names| - 1;
      assert names == names[..n] + [names[n]];
      CutAllTracks(files, names[..n], seconds, tools);
      var (after, cut) := CutAll(files, names[..n], seconds, tools);
      TracksStep(files, names[..n], seconds, tools, after, cut, names[n]);
    }
  }

  lemma LoadKept(files: Files, names: seq<string>, seconds: nat, tools: Tools, after: Files)
    requires forall i :: 0 <= i < |names| && ItemClip(files, names[i], seconds, tools).Some? ==>
               CutName(names[i]) in after && after[CutName(names[i])] == Decodable(ItemClip(files, names[i], seconds, tools).value)
    ensures LoadAll(after, Kept(files, names, seconds, tools)) == Success(KeptClips(files, names, seconds, tools))
  {
    LoadKeep(after, names, ItemCut(files, seconds, tools), ItemClipOf(files, seconds, tools));
  }



  /** With distinct stems and no cut_ or temp_ file among the downloads, the cutting loop is
      item-by-item: merge_files receives exactly the clips of the usable items, each cut to
      the requested duration, in the order the directory listed them, and the downloaded files
      themselves are left as they were. */
  lemma CutAllMatchesReference(files: Files, names: seq<string>, seconds: nat, tools: Tools)
    requires NoWorkFiles(files) && DistinctStems(names)
    requires forall i :: 0 <= i < |names| ==> names[i] in files
    ensures var (after, cut) := CutAll(files, names, seconds, tools);
            && cut == Kept(files, names, seconds, tools)
            && LoadAll(after, cut) == Success(KeptClips(files, names, seconds, tools))
            && forall n :: n in files ==> n in after && after[n] == files[n]
  {
    CutAllTracks(files, names, seconds, tools);
    var (after, cut) := CutAll(files, names, seconds, tools);
    LoadKept(files, names, seconds, tools, after);
  }

  /** When every item contributes, Kept and KeptClips list every item. */
  lemma KeptEverything(files: Files, names: seq<string>, seconds: nat, tools: Tools)
    requires forall i :: 0 <= i < |names| ==> ItemClip(files, names[i], seconds, tools).Some?
    ensures |Kept(files, names, seconds, tools)| == |names|
    ensures var clips := KeptClips(files, names, seconds, tools);
            |clips| == |names| && forall k :: 0 <= k < |names| ==> clips[k] == ItemClip(files, names[k], seconds, tools).value
  {
    Funnel.KeepAll(names, ItemCut(files, seconds, tools));
    Funnel.KeepAll(names, ItemClipOf(files, seconds, tools));
  }


  // ----- test mode ------------------------------------------------------------------------

  lemma TestNameParts(i: nat)
    ensures SplitExt(TestName(i)) == ("test_" + ShowNat(i), ".wav")
    ensures Stem(TestName(i)) == "test_" + ShowNat(i) && Ext(TestName(i)) == "wav"
    ensures IsAudioName(TestName(i))
    ensures !StartsWith(TestName(i), "cut_") && !StartsWith(TestName(i), "temp_")
  {
    var stem := "test_" + ShowNat(i);
    assert stem[0] == 't';
    assert TestName(i) == stem + ".wav";
    SplitExtKnown(stem, ".wav");
    assert TestName(i)[2] == 's';
    assert TestName(i)[|TestName(i)| - 4..] == ".wav";
  }

  lemma TestNameInjective(i: nat, j: nat)
    ensures "test_" + ShowNat(i) == "test_" + ShowNat(j) ==> i == j
    ensures TestName(i) == TestName(j) ==> i == j
  {
    var a, b := "test_" + ShowNat(i), "test_" + ShowNat(j);
    if a == b {
      assert ShowNat(i) == a[5..];
      ShowNatInjective(i, j);
    }
    if TestName(i) == TestName(j) {
      assert a == TestName(i)[..|TestName(i)| - 4];
      assert b == TestName(j)[..|TestName(j)| - 4];
    }
  }

  /** create_test_files writes `count` different files. */
  lemma {:induction false} TestFilesSize(count: nat)
    ensures |TestFiles(count)| == count
  {
    if count > 0 {
      TestFilesSize(count - 1);
      TestFilesNext(count - 1);
      if TestName(count - 1) in TestFiles(count - 1) {
        var i :| 0 <= i < count - 1 && TestName(i) == TestName(count - 1);
        TestNameInjective(i, count - 1);
      }
    }
  }

  lemma TestFilesNoWork(count: nat)
    ensures NoWorkFiles(TestFiles(count))
  {
    forall n | n in TestFiles(count)
      ensures !StartsWith(n, "cut_") && !StartsWith(n, "temp_")
    {
      var i :| 0 <= i < count && n == TestName(i);
      TestNameParts(i);
    }
  }

  lemma TestListingAudio(count: nat, listing: seq<string>)
    requires Enumerates(listing, TestFiles(count))
    ensures AudioNames(listing) == listing
  {
    forall k | 0 <= k < |listing|
      ensures IsAudioName(listing[k])
    {
      assert listing[k] in TestFiles(count);
      var i :| 0 <= i < count && listing[k] == TestName(i);
      TestNameParts(i);
    }
    AudioNamesAll(listing);
  }

  lemma TestListingStems(count: nat, listing: seq<string>)
    requires Enumerates(listing, TestFiles(count))
    ensures DistinctStems(listing)
  {
    forall k, l | 0 <= k < l < |listing|
      ensures Stem(listing[k]) != Stem(listing[l])
    {
      assert listing[k] in TestFiles(count) && listing[l] in TestFiles(count);
      var i :| 0 <= i < count && listing[k] == TestName(i);
      var j :| 0 <= j < count && listing[l] == TestName(j);
      TestNameParts(i);
      TestNameParts(j);
      TestNameInjective(i, j);
    }
  }

  /** In test mode with working exports, process_audios cuts every synthetic clip, whatever
      order the directory lists them in, and each cut holds the first `seconds` of a minute of
      silence. */
  lemma TestModeCuts(count: nat, listing: seq<string>, seconds: nat, tools: Tools)
    requires forall n :: tools.exports(n)
    requires Enumerates(listing, TestFiles(count))
    ensures var (after, cut) := CutAll(TestFiles(count), listing, seconds, tools);
            && |cut| == count
            && LoadAll(after, cut) == Success(KeptClips(TestFiles(count), listing, seconds, tools))
            && |KeptClips(TestFiles(count), listing, seconds, tools)| == count
            && forall k :: 0 <= k < count ==>
                 KeptClips(TestFiles(count), listing, seconds, tools)[k] == Trim(Silence(TestClipMs), seconds)
  {
    var files := TestFiles(count);
    EnumerationLength(listing, files);
    TestFilesSize(count);
    TestFilesNoWork(count);
    TestListingStems(count, listing);
    forall k | 0 <= k < |listing|
      ensures ItemClip(files, listing[k], seconds, tools) == Some(Trim(Silence(TestClipMs), seconds))
    {
      assert listing[k] in files;
      var i :| 0 <= i < count && listing[k] == TestName(i);
      TestItemClip(count, i, seconds, tools);
    }
    UniformCuts(files, listing, seconds, tools, Trim(Silence(TestClipMs), seconds));
  }

  /** When every item contributes the same clip, the loop reports a cut for each of them and
      the cuts decode to that clip, once per item. */
  lemma UniformCuts(files: Files, names: seq<string>, seconds: nat, tools: Tools, clip: Audio)
    requires NoWorkFiles(files) && DistinctStems(names)
    requires forall i :: 0 <= i < |names| ==> names[i] in files
    requires forall i :: 0 <= i < |names| ==> ItemClip(files, names[i], seconds, tools) == Some(clip)
    ensures var (after, cut) := CutAll(files, names, seconds, tools);
            && |cut| == |names|
            && LoadAll(after, cut) == Success(KeptClips(files, names, seconds, tools))
            && |KeptClips(files, names, seconds, tools)| == |names|
            && forall k :: 0 <= k < |names| ==> KeptClips(files, names, seconds, tools)[k] == clip
  {
    CutAllMatchesReference(files, names, seconds, tools);
    KeptEverything(files, names, seconds, tools);
  }

  lemma TestItemClip(count: nat, i: nat, seconds: nat, tools: Tools)
    requires i < count && tools.exports(CutName(TestName(i)))
    ensures ItemClip(TestFiles(count), TestName(i), seconds, tools) == Some(Trim(Silence(TestClipMs), seconds))
  {
    TestNameParts(i);
    assert TestName(i) in TestFiles(count);
  }

  /** A test run with working exports on a fresh workspace: whatever order the directory lists
      the synthetic files in, main's try block succeeds with the .mp3 output, and the mashup is
      `count` times the shorter of one minute and the requested duration. */
  lemma TestModeLength(count: nat, listing: seq<string>, seconds: nat, tools: Tools, cwd: Files, output: string,
                       singer: string, catalog: string -> Fetch)
    requires count > 0 && EndsWith(output, ".mp3")
    requires forall n :: tools.exports(n)
    requires Enumerates(listing, TestFiles(count))
    ensures var (cwd', r) := RunSpec(map[], cwd, true, singer, count, seconds, output, catalog, tools, listing);
            && r == Success(output) && cwd'[output].Decodable?
            && |cwd'[output].audio| == count * Min(TestClipMs, seconds * MsPerSecond)
  {
    assert TestsWritten(count, tools) == count;
    assert map[] + TestFiles(count) == TestFiles(count);
    TestModeStages(count, listing, seconds, tools, cwd, output);
  }

  lemma TestModeStages(count: nat, listing: seq<string>, seconds: nat, tools: Tools, cwd: Files, output: string)
    requires count > 0 && EndsWith(output, ".mp3")
    requires forall n :: tools.exports(n)
    requires Enumerates(listing, TestFiles(count))
    ensures var (cwd', r) := CutAndMerge(TestFiles(count), cwd, listing, seconds, output, tools);
            && r == Success(output) && cwd'[output].Decodable?
            && |cwd'[output].audio| == count * Min(TestClipMs, seconds * MsPerSecond)
  {
    var files := TestFiles(count);
    TestModeProcess(count, listing, seconds, tools);
    TestModeCuts(count, listing, seconds, tools);
    var (after, cut) := CutAll(files, listing, seconds, tools);
    var clips := KeptClips(files, listing, seconds, tools);
    MergeStage(files, cwd, listing, seconds, output, tools, after, cut, clips);
    UniformLength(clips, Min(TestClipMs, seconds * MsPerSecond));
  }

  /** In test mode with working exports, process_audios succeeds with the loop's cuts. */
  lemma TestModeProcess(count: nat, listing: seq<string>, seconds: nat, tools: Tools)
    requires count > 0
    requires forall n :: tools.exports(n)
    requires Enumerates(listing, TestFiles(count))
    ensures var (after, cut) := CutAll(TestFiles(count), listing, seconds, tools);
            ProcessSpec(TestFiles(count), listing, seconds, tools) == (after, Success(cut))
  {
    TestListingAudio(count, listing);
    TestModeCuts(count, listing, seconds, tools);
  }

  /** When process_audios succeeds with cuts that decode to `clips`, the rest of the try block
      writes their concatenation under the mp3 name, or under the wav name when the mp3 export
      fails. */
  lemma MergeStage(acquired: Files, cwd: Files, listing: seq<string>, seconds: nat, output: string, tools: Tools,
                   after: Files, cut: seq<string>, clips: seq<Audio>)
    requires ProcessSpec(acquired, listing, seconds, tools) == (after, Success(cut))
    requires LoadAll(after, cut) == Success(clips)
    requires EndsWith(output, ".mp3") && tools.exports(WavName(output))
    ensures var (cwd', r) := CutAndMerge(acquired, cwd, listing, seconds, output, tools);
            && r.Success? && (r.value == output <==> tools.exports(output))
            && cwd'[r.value] == Decodable(Concat(clips))
  {
    MergeFilesOutcome(after, cwd, cut, output, tools);
  }

  /** A download run on a fresh workspace, when the downloads hold no cut_ or temp_ file and
      their audio files have distinct stems: main's try block fails with "No audio files found"
      exactly when no audio file was downloaded, with "Failed to process any audio files"
      exactly when none of them contributes, and otherwise (when the wav export works) leaves
      the concatenation of the contributing clips, in listing order, under the mp3 name or,
      when the mp3 export fails, the wav name. */
  lemma DownloadRunMatchesReference(singer: string, count: nat, seconds: nat, output: string,
                                    catalog: string -> Fetch, tools: Tools, cwd: Files, listing: seq<string>)
    requires Downloaded(catalog(SearchQuery(singer, count)).search) >= MinDownloads
    requires NoWorkFiles(catalog(SearchQuery(singer, count)).written)
    requires Enumerates(listing, catalog(SearchQuery(singer, count)).written)
    requires DistinctStems(AudioNames(listing))
    requires EndsWith(output, ".mp3")
    ensures var written := catalog(SearchQuery(singer, count)).written;
            var audio := AudioNames(listing);
            var (cwd', r) := RunSpec(map[], cwd, false, singer, count, seconds, output, catalog, tools, listing);
            && (r == Failure(NoAudioFiles) <==> audio == [])
            && (r == Failure(NoneProcessed) <==> audio != [] && Kept(written, audio, seconds, tools) == [])
            && (r.Success? <==> Kept(written, audio, seconds, tools) != [] && tools.exports(WavName(output)))
            && (r.Success? ==> && cwd'[r.value] == Decodable(Concat(KeptClips(written, audio, seconds, tools)))
                               && (r.value == output <==> tools.exports(output)))
  {
    var written := catalog(SearchQuery(singer, count)).written;
    assert map[] + written == written;
    ReferenceStages(written, cwd, listing, seconds, output, tools);
  }

  lemma ReferenceStages(written: Files, cwd: Files, listing: seq<string>, seconds: nat, output: string, tools: Tools)
    requires NoWorkFiles(written) && Enumerates(listing, written)
    requires DistinctStems(AudioNames(listing))
    requires EndsWith(output, ".mp3")
    ensures var audio := AudioNames(listing);
            var (cwd', r) := CutAndMerge(written, cwd, listing, seconds, output, tools);
            && (r == Failure(NoAudioFiles) <==> audio == [])
            && (r == Failure(NoneProcessed) <==> audio != [] && Kept(written, audio, seconds, tools) == [])
            && (r.Success? <==> Kept(written, audio, seconds, tools) != [] && tools.exports(WavName(output)))
            && (r.Success? ==> && cwd'[r.value] == Decodable(Concat(KeptClips(written, audio, seconds, tools)))
                               && (r.value == output <==> tools.exports(output)))
  {
    var audio := AudioNames(listing);
    if audio != [] {
      forall i | 0 <= i < |audio|
        ensures audio[i] in written
      {
        assert audio[i] in audio;
      }
      CutAllMatchesReference(written, audio, seconds, tools);
      var (after, cut) := CutAll(written, audio, seconds, tools);
      if cut != [] && tools.exports(WavName(output)) {
        MergeStage(written, cwd, listing, seconds, output, tools, after, cut, KeptClips(written, audio, seconds, tools));
      }
    }
  }

  // ----- colliding stems ------------------------------------------------------------------

  /** One pass on a readable file that is not a .webm and whose cut exports. */
  lemma CutPlain(files: Files, name: string, seconds: nat, tools: Tools)
    requires Ext(name) != [] && Ext(name) != "webm" && Readable(files, name) && tools.exports(CutName(name))
    ensures CutStep(files, name, seconds, tools)
            == (files[CutName(name) := Decodable(Trim(files[name].audio, seconds))], Some(CutName(name)))
  {
  }

  /** "a.mp3" and "a.wav" have the extensions mp3 and wav and share the cut name cut_a.wav. */
  lemma CollidingNames()
    ensures Ext("a.mp3") == "mp3" && Ext("a.wav") == "wav"
    ensures CutName("a.mp3") == "cut_a.wav" == CutName("a.wav")
  {
    assert "a"[0] != '.';
    assert ".mp3"[1] != '.' && ".mp3"[2] != '.' && ".mp3"[3] != '.';
    assert ".wav"[1] != '.' && ".wav"[2] != '.' && ".wav"[3] != '.';
    NameParts("a", ".mp3");
    NameParts("a", ".wav");
    assert "a" + ".mp3" == "a.mp3" && "a" + ".wav" == "a.wav";
    assert ".mp3"[1..] == "mp3" && ".wav"[1..] == "wav";
  }

  lemma NameParts(stem: string, ext: string)
    requires !OnlyDots(stem)
    requires |ext| > 0 && ext[0] == '.' && forall j :: 0 < j < |ext| ==> ext[j] != '.'
    ensures Stem(stem + ext) == stem && Ext(stem + ext) == ext[1..]
    ensures CutName(stem + ext) == "cut_" + stem + ".wav"
  {
    SplitExtKnown(stem, ext);
  }

  lemma CollidingCuts(first: Audio, second: Audio, seconds: nat, tools: Tools)
    requires forall n :: tools.exports(n)
    ensures var files := map["a.mp3" := Decodable(first), "a.wav" := Decodable(second)];
            CutAll(files, ["a.mp3", "a.wav"], seconds, tools)
            == (files["cut_a.wav" := Decodable(Trim(second, seconds))], ["cut_a.wav", "cut_a.wav"])
  {
    CollidingNames();
    var files := map["a.mp3" := Decodable(first), "a.wav" := Decodable(second)];
    var f1 := files["cut_a.wav" := Decodable(Trim(first, seconds))];
    var f2 := files["cut_a.wav" := Decodable(Trim(second, seconds))];
    var step := CutStepper(seconds, tools);
    CutPlain(files, "a.mp3", seconds, tools);
    assert step(files, "a.mp3") == (f1, Some("cut_a.wav"));
    assert Readable(f1, "a.wav") && f1["a.wav"].audio == second;
    CutPlain(f1, "a.wav", seconds, tools);
    assert f1["cut_a.wav" := Decodable(Trim(second, seconds))] == f2;
    assert step(f1, "a.wav") == (f2, Some("cut_a.wav"));
    Funnel.RunTwo(files, "a.mp3", "a.wav", step);
    assert ["cut_a.wav"] + ["cut_a.wav"] == ["cut_a.wav", "cut_a.wav"];
    assert CutAll(files, ["a.mp3", "a.wav"], seconds, tools) == Funnel.Run(files, ["a.mp3", "a.wav"], step);
  }

  lemma LoadTwice(files: Files, name: string, clip: Audio)
    requires name in files && files[name] == Decodable(clip)
    ensures LoadAll(files, [name, name]) == Success([clip, clip])
  {
    var paths := [name, name];
    assert paths[..1] == [name] && paths[..1][..0] == [];
    assert LoadAll(files, paths[..1][..0]) == Success([]);
    assert [] + [clip] == [clip] && [clip] + [clip] == [clip, clip];
    assert LoadAll(files, paths[..1]) == Success([clip]);
  }

  /** Two downloads with the same stem ("a.mp3" and "a.wav") both cut to cut_a.wav: the second
      overwrites the first, cut_files names that file twice, and the mashup holds the second
      clip twice and the first not at all. */
  lemma CollidingStems(first: Audio, second: Audio, seconds: nat, tools: Tools)
    requires forall n :: tools.exports(n)
    ensures var files := map["a.mp3" := Decodable(first), "a.wav" := Decodable(second)];
            var (after, cut) := CutAll(files, ["a.mp3", "a.wav"], seconds, tools);
            && cut == ["cut_a.wav", "cut_a.wav"]
            && LoadAll(after, cut) == Success([Trim(second, seconds), Trim(second, seconds)])
  {
    CollidingCuts(first, second, seconds, tools);
    var files := map["a.mp3" := Decodable(first), "a.wav" := Decodable(second)];
    LoadTwice(files["cut_a.wav" := Decodable(Trim(second, seconds))], "cut_a.wav", Trim(second, seconds));
  }
}
