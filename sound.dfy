/** Audio as the pipeline sees it through pydub: a segment is a sequence of one-millisecond
    samples, slicing is by milliseconds and `+` appends one segment after another. */
module Sound {

  /** One millisecond of audio. */
  type Sample = int
  type Audio = seq<Sample>

  const MsPerSecond: nat := 1000

  /** Length of the silent clips written in test mode (AudioSegment.silent(duration=60000)). */
  const TestClipMs: nat := 60000

  /** What a file holds, as far as pydub can tell: audio it decodes, or bytes it cannot read. */
  datatype Blob = Decodable(audio: Audio) | Undecodable

  /** How one ffmpeg run ends: it writes its wav output, it exits with an error before writing
      anything, or it is still running after 60 s and subprocess.run raises TimeoutExpired. */
  datatype Conversion = Converted | Errored | TimedOut

  /** The behaviour of the external programs, which the pipeline only observes:
      - ffmpegPresent: the hard-coded ffmpeg executable exists;
      - converts(webm): how ffmpeg, run on that file, ends;
      - exports(name): pydub's export to that file name succeeds. */
  datatype Tools = Tools(ffmpegPresent: bool, converts: string -> Conversion, exports: string -> bool)

  function Min(a: int, b: int): int {
    if a <= b then a else b
  }

  /** AudioSegment.silent(duration=ms) */
  function Silence(ms: nat): Audio {
    seq(ms, _ => 0)
  }

  /** audio[:seconds * 1000]: the first `seconds` seconds, or the whole clip when it is shorter
      (a slice never pads). */
  function Trim(a: Audio, seconds: nat): (r: Audio)
    ensures |r| == Min(|a|, seconds * MsPerSecond)
    ensures r == a[..|r|]
  {
    if |a| <= seconds * MsPerSecond then a else a[..seconds * MsPerSecond]
  }

  /** clips[0] + clips[1] + ... in list order, built the way the merge loops build it:
      the last clip is appended to the concatenation of the ones before. */
  function Concat(clips: seq<Audio>): Audio {
    if clips == [] then [] else Concat(clips[..|clips| - 1]) + clips[|clips| - 1]
  }

  /** d1 + d2 + ... + dn for clips of lengths d1 .. dn. */
  function TotalLength(clips: seq<Audio>): nat {
    if clips == [] then 0 else |clips[0]| + TotalLength(clips[1..])
  }

  lemma {:induction false} TotalLengthSnoc(clips: seq<Audio>, c: Audio)
    ensures TotalLength(clips + [c]) == TotalLength(clips) + |c|
  {
    if clips != [] {
      assert (clips + [c])[1..] == clips[1..] + [c];
      TotalLengthSnoc(clips[1..], c);
    }
  }

  /** The merged track is exactly as long as its clips together. */
  lemma {:induction false} ConcatLength(clips: seq<Audio>)
    ensures |Concat(clips)| == TotalLength(clips)
  {
    if clips != [] {
      var n := |clips| - 1;
      assert clips[..n] + [clips[n]] == clips;
      ConcatLength(clips[..n]);
      TotalLengthSnoc(clips[..n], clips[n]);
    }
  }

  /** Concatenation respects list order: merging a list made of two parts is merging the
      first part and appending the merge of the second. */
  lemma {:induction false} ConcatAppend(a: seq<Audio>, b: seq<Audio>)
    ensures Concat(a + b) == Concat(a) + Concat(b)
  {
    if b == [] {
      assert a + b == a;
    } else {
      var n := |b| - 1;
      assert (a + b)[..|a + b| - 1] == a + b[..n];
      ConcatAppend(a, b[..n]);
    }
  }

  /** The i-th clip occupies the stretch of the merged track that starts right after the
      clips before it: no clip is dropped, reordered, overlaid or cut. */
  lemma ConcatPlacesClip(clips: seq<Audio>, i: nat)
    requires i < |clips|
    ensures TotalLength(clips[..i]) + |clips[i]| <= |Concat(clips)|
    ensures Concat(clips)[TotalLength(clips[..i])..TotalLength(clips[..i]) + |clips[i]|] == clips[i]
  {
    var before, after := clips[..i], clips[i + 1..];
    assert clips == before + [clips[i]] + after;
    ConcatAppend(before + [clips[i]], after);
    ConcatAppend(before, [clips[i]]);
    assert Concat([clips[i]]) == clips[i] by {
      assert [clips[i]][..0] == [];
    }
    ConcatLength(before);
  }

  /** n clips of m milliseconds each merge into n * m milliseconds, whatever their order. */
  lemma {:induction false} UniformLength(clips: seq<Audio>, m: nat)
    requires forall i :: 0 <= i < |clips| ==> |clips[i]| == m
    ensures |Concat(clips)| == |clips| * m
  {
    if clips != [] {
      var n := |clips| - 1;
      var init := clips[..n];
      assert forall i :: 0 <= i < n ==> init[i] == clips[i];
      UniformLength(init, m);
      assert |Concat(clips)| == |Concat(init)| + |clips[n]|;
      assert (n + 1) * m == n * m + m;
    }
  }
}
