/** Directories on disk: the run's temporary workspace and the current working directory.
    A directory is a map from file names to contents plus a flag saying whether it still exists;
    paths inside a directory are modelled by the bare file name (os.path.join is left implicit). */
module Disk {
  import opened Results
  import opened Sound
  import Funnel

  type Files = map<string, Blob>

  predicate Distinct<T(==)>(s: seq<T>) {
    forall i, j :: 0 <= i < j < |s| ==> s[i] != s[j]
  }

  /** `names` lists every file of `files` once, in some order: what os.listdir returns. */
  ghost predicate Enumerates(names: seq<string>, files: Files) {
    Distinct(names) && forall n :: n in names <==> n in files
  }

  class Directory {
    var files: Files
    var present: bool

    /** tempfile.mkdtemp(): a new, empty directory. */
    constructor MakeTemp()
      ensures present && files == map[]
    {
      files := map[];
      present := true;
    }

    /** Writes (or overwrites) one file. */
    method Write(name: string, blob: Blob)
      requires present
      modifies this
      ensures present && files == old(files)[name := blob]
    {
      files := files[name := blob];
    }

    /** os.remove(name) */
    method Delete(name: string)
      requires present && name in files
      modifies this
      ensures present && files == old(files) - {name}
    {
      files := files - {name};
    }

    /** shutil.rmtree(dir): the directory and everything in it are gone. */
    method RemoveTree()
      requires present
      modifies this
      ensures !present && files == map[]
    {
      files := map[];
      present := false;
    }

    /** AudioSegment.from_wav(paths[0]) followed by `merged += AudioSegment.from_wav(p)` for
        each later path: the files decoded and joined in list order, or the first path that
        does not decode. */
    method JoinAll(paths: seq<string>) returns (r: Result<Audio, string>)
      requires |paths| > 0
      ensures r == Joined(files, paths)
    {
      if !Readable(files, paths[0]) {
        assert paths[..1] == [paths[0]];
        return Failure(paths[0]);
      }
      var merged := files[paths[0]].audio;
      ghost var clips: seq<Audio> := [merged];
      assert Concat(clips) == merged by {
        assert clips[..0] == [];
      }
      assert LoadAll(files, paths[..1]) == Success(clips) by {
        assert paths[..1][..0] == [];
        assert LoadAll(files, paths[..1][..0]) == Success([]);
        assert paths[..1][0] == paths[0];
        assert [] + [merged] == clips;
      }
      for i := 1 to |paths|
        invariant LoadAll(files, paths[..i]) == Success(clips)
        invariant merged == Concat(clips)
      {
        assert paths[..i + 1][..i] == paths[..i];
        if !Readable(files, paths[i]) {
          return Failure(paths[i]);
        }
        merged := merged + files[paths[i]].audio;
        clips := clips + [files[paths[i]].audio];
        assert clips[..|clips| - 1] == clips[..i];
      }
      assert paths[..|paths|] == paths;
      return Success(merged);
    }

    /** os.listdir(dir): every file once, in an order the file system chooses. */
    method ListDir() returns (names: seq<string>)
      requires present
      ensures Enumerates(names, files)
    {
      names := [];
      var rest := files.Keys;
      while rest != {}
        invariant rest <= files.Keys
        invariant Distinct(names)
        invariant forall n :: n in names <==> n in files && n !in rest
        decreases |rest|
      {
        var n :| n in rest;
        names := names + [n];
        rest := rest - {n};
      }
    }
  }

  predicate Readable(files: Files, name: string) {
    name in files && files[name].Decodable?
  }

  /** Decodes the files `paths` in list order (AudioSegment.from_wav / from_mp3 on each). The
      first one that is missing or unreadable raises; its name is the error. */
  function LoadAll(files: Files, paths: seq<string>): (r: Result<seq<Audio>, string>)
    ensures r.Success? <==> forall i :: 0 <= i < |paths| ==> Readable(files, paths[i])
    ensures r.Success? ==> |r.value| == |paths|
    ensures r.Success? ==> forall i :: 0 <= i < |paths| ==> files[paths[i]] == Decodable(r.value[i])
    ensures r.Failure? ==> exists i :: && 0 <= i < |paths| && r.error == paths[i]
                                       && !Readable(files, paths[i])
                                       && forall j :: 0 <= j < i ==> Readable(files, paths[j])
  {
    if paths == [] then Success([])
    else
      var last := paths[|paths| - 1];
      match LoadAll(files, paths[..|paths| - 1])
      case Failure(bad) => Failure(bad)
      case Success(clips) =>
        if Readable(files, last) then Success(clips + [files[last].audio]) else Failure(last)
  }

  /** The decoded files joined in list order, or the first path that does not decode. */
  function Joined(files: Files, paths: seq<string>): Result<Audio, string> {
    match LoadAll(files, paths)
    case Success(clips) => Success(Concat(clips))
    case Failure(bad) => Failure(bad)
  }

  /** Decoding the names `cut` gives for the items yields the clips `clip` gives for them, in
      item order, when the two agree on which items contribute and each contributing item's
      name holds its clip. */
  lemma {:induction false} LoadKeep(files: Files, items: seq<string>, cut: string -> Option<string>,
                                    clip: string -> Option<Audio>)
    requires forall i :: 0 <= i < |items| ==> cut(items[i]).Some? == clip(items[i]).Some?
    requires forall i :: 0 <= i < |items| && clip(items[i]).Some? ==>
               cut(items[i]).value in files && files[cut(items[i]).value] == Decodable(clip(items[i]).value)
    ensures LoadAll(files, Funnel.Keep(items, cut)) == Success(Funnel.Keep(items, clip))
  {
    if items != [] {
      var n := |items| - 1;
      var init, x := items[..n], items[n];
      assert forall i :: 0 <= i < n ==> init[i] == items[i];
      LoadKeep(files, init, cut, clip);
      assert init + [x] == items;
      Funnel.KeepSnoc(init, x, cut);
      Funnel.KeepSnoc(init, x, clip);
      var k := Funnel.Keep(init, cut);
      if clip(x).Some? {
        assert (k + [cut(x).value])[..|k|] == k;
      } else {
        assert k + [] == k;
        assert Funnel.Keep(init, clip) + [] == Funnel.Keep(init, clip);
      }
    }
  }

  lemma {:induction false} DistinctCardinality<T>(s: seq<T>)
    requires Distinct(s)
    ensures |set x | x in s| == |s|
  {
    if s != [] {
      var n := |s| - 1;
      DistinctCardinality(s[..n]);
      assert (set x | x in s) == (set x | x in s[..n]) + {s[n]};
    }
  }

  /** A listing names exactly as many entries as the directory has files. */
  lemma EnumerationLength(names: seq<string>, files: Files)
    requires Enumerates(names, files)
    ensures |names| == |files|
  {
    DistinctCardinality(names);
    assert (set x | x in names) == files.Keys;
  }
}
