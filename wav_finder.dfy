/**
 * WavFinder: looks for assets\audio\hello.wav in the base directory and then
 * in successive parent directories, inspecting at most four directories.
 */
module WavFinder {
  import opened Wrappers
  import Text
  import Paths
  import Host

  /** The number of directories inspected at most. */
  const MaxDirectories: nat := 4

  /** Directory.GetParent(dir)?.FullName: None when the directory has no parent. */
  type ParentOf = string -> Option<string>

  /** Path.Combine(dir, "assets", "audio", "hello.wav"). */
  function Candidate(dir: string): string {
    Paths.CombineAll([dir, "assets", "audio", "hello.wav"])
  }

  /** The directories the search would inspect if none of them held the file: dir, then parents, at most n. */
  function Dirs(dir: string, parentOf: ParentOf, n: nat): seq<string>
    decreases n
  {
    if n == 0 then []
    else
      var parent := parentOf(dir);
      [dir] + if Text.IsNullOrEmpty(parent) then [] else Dirs(parent.value, parentOf, n - 1)
  }

  /** The first candidate that exists, in order. */
  function FirstExisting(candidates: seq<string>, files: map<string, Host.Bytes>): Option<string> {
    if candidates == [] then None
    else if candidates[0] in files then Some(candidates[0])
    else FirstExisting(candidates[1..], files)
  }

  /** FirstExisting yields the earliest existing candidate, and nothing only when none exists. */
  lemma {:induction false} FirstExistingMeaning(candidates: seq<string>, files: map<string, Host.Bytes>)
    ensures var r := FirstExisting(candidates, files);
      && (r.Some? ==> exists k | 0 <= k < |candidates| :: r.value == candidates[k] && candidates[k] in files
                        && forall j | 0 <= j < k :: candidates[j] !in files)
      && (r.None? ==> forall k | 0 <= k < |candidates| :: candidates[k] !in files)
  {
    if candidates != [] && candidates[0] !in files {
      var rest := candidates[1..];
      FirstExistingMeaning(rest, files);
      var r := FirstExisting(rest, files);
      if r.Some? {
        var k :| 0 <= k < |rest| && r.value == rest[k] && rest[k] in files && forall j | 0 <= j < k :: rest[j] !in files;
        assert r.value == candidates[k + 1] && candidates[k + 1] in files;
        assert forall j | 0 <= j < k + 1 :: candidates[j] !in files by {
          forall j | 0 <= j < k + 1 ensures candidates[j] !in files {
            if j > 0 { assert candidates[j] == rest[j - 1]; }
          }
        }
      } else {
        forall k | 0 <= k < |candidates| ensures candidates[k] !in files {
          if k > 0 { assert candidates[k] == rest[k - 1]; }
        }
      }
    }
  }

  function Candidates(dirs: seq<string>): seq<string> {
    seq(|dirs|, i requires 0 <= i < |dirs| => Candidate(dirs[i]))
  }

  /** The search as a step-by-step walk: stop at a hit, at a directory without parent, or after n directories. */
  function Search(dir: string, parentOf: ParentOf, files: map<string, Host.Bytes>, n: nat): Option<string>
    decreases n
  {
    if n == 0 then None
    else if Candidate(dir) in files then Some(Candidate(dir))
    else
      var parent := parentOf(dir);
      if Text.IsNullOrEmpty(parent) then None else Search(parent.value, parentOf, files, n - 1)
  }

  /** FindHelloWav. */
  method FindHelloWav(baseDir: string, parentOf: ParentOf, files: map<string, Host.Bytes>) returns (wav: Option<string>)
    ensures wav == Search(baseDir, parentOf, files, MaxDirectories)
  {
    wav := None;
    var dir := baseDir;
    var i := 0;
    while i < 4 && Text.IsNullOrEmpty(wav)
      invariant 0 <= i <= 4 && wav.None?
      invariant Search(baseDir, parentOf, files, MaxDirectories) == Search(dir, parentOf, files, 4 - i)
    {
      var candidate := Candidate(dir);
      if candidate in files {
        wav := Some(candidate);
        break;
      }
      var parent := parentOf(dir);
      if Text.IsNullOrEmpty(parent) {
        break;
      }
      dir := parent.value;
      i := i + 1;
    }
  }

  /** FindHelloWavOrThrow: the same path, or the "No WAV found" failure. */
  method FindHelloWavOrThrow(baseDir: string, parentOf: ParentOf, files: map<string, Host.Bytes>) returns (r: Result<string, Host.Failure>)
    ensures r == match Search(baseDir, parentOf, files, MaxDirectories)
                 case Some(path) => Ok(path)
                 case None => Err(Host.NoWavFailure)
  {
    var path := FindHelloWav(baseDir, parentOf, files);
    if path.Some? {
      SearchFindsCandidate(baseDir, parentOf, files, MaxDirectories);
      CandidateNotBlank(path.value);
    }
    if Text.IsNullOrWhiteSpace(path) || path.value !in files {
      return Err(Host.NoWavFailure);
    }
    r := Ok(path.value);
  }

  // ---------------------------------------------------------------------------
  // Properties.

  /** Every candidate ends in hello.wav, so it is never blank. */
  lemma CandidateEndsWithHello(dir: string)
    ensures |Candidate(dir)| >= 9 && Candidate(dir)[|Candidate(dir)| - 9..] == "hello.wav"
  {
    var parts := [dir, "assets", "audio", "hello.wav"];
    assert parts[..|parts| - 1] == [dir, "assets", "audio"];
    Paths.CombineEndsWith(Paths.CombineAll([dir, "assets", "audio"]), "hello.wav");
  }

  lemma CandidateNotBlank(path: string)
    requires exists dir :: path == Candidate(dir)
    ensures !Text.IsNullOrWhiteSpace(Some(path))
  {
    var dir :| path == Candidate(dir);
    CandidateEndsWithHello(dir);
    var k := |path| - 1;
    assert path[k] == path[|path| - 9..][8] == 'v';
    assert !Text.IsWhiteSpace(path[k]);
  }

  /** A found path is an existing candidate. */
  lemma {:induction false} SearchFindsCandidate(dir: string, parentOf: ParentOf, files: map<string, Host.Bytes>, n: nat)
    ensures var r := Search(dir, parentOf, files, n);
      r.Some? ==> r.value in files && exists d :: r.value == Candidate(d)
    decreases n
  {
    if n > 0 && Candidate(dir) !in files {
      var parent := parentOf(dir);
      if !Text.IsNullOrEmpty(parent) {
        SearchFindsCandidate(parent.value, parentOf, files, n - 1);
      }
    }
  }

  /**
   * The inspected directories: at most n, starting with dir, each the parent
   * of the one before.
   */
  lemma {:induction false} DirsShape(dir: string, parentOf: ParentOf, n: nat)
    ensures var ds := Dirs(dir, parentOf, n);
      && |ds| <= n
      && (n > 0 ==> |ds| >= 1 && ds[0] == dir)
      && forall i | 1 <= i < |ds| :: parentOf(ds[i - 1]) == Some(ds[i]) && ds[i] != ""
    decreases n
  {
    if n > 0 {
      var parent := parentOf(dir);
      if !Text.IsNullOrEmpty(parent) {
        var ds, rest := Dirs(dir, parentOf, n), Dirs(parent.value, parentOf, n - 1);
        DirsShape(parent.value, parentOf, n - 1);
        forall i | 1 <= i < |ds|
          ensures parentOf(ds[i - 1]) == Some(ds[i]) && ds[i] != ""
        {
          assert ds[i] == rest[i - 1];
          if i > 1 {
            assert ds[i - 1] == rest[i - 2];
          }
        }
      }
    }
  }

  /**
   * The walk returns the first existing candidate among the inspected
   * directories, nearest first, and nothing when none exists.
   */
  lemma CandidatesCons(d: string, ds: seq<string>)
    ensures Candidates([d] + ds) == [Candidate(d)] + Candidates(ds)
  {
  }

  lemma FirstExistingCons(c: string, cs: seq<string>, files: map<string, Host.Bytes>)
    ensures FirstExisting([c] + cs, files) == if c in files then Some(c) else FirstExisting(cs, files)
  {
    assert ([c] + cs)[1..] == cs;
  }

  lemma {:induction false} SearchIsFirstExisting(dir: string, parentOf: ParentOf, files: map<string, Host.Bytes>, n: nat)
    ensures Search(dir, parentOf, files, n) == FirstExisting(Candidates(Dirs(dir, parentOf, n)), files)
    decreases n
  {
    if n > 0 {
      var parent := parentOf(dir);
      var rest := if Text.IsNullOrEmpty(parent) then [] else Dirs(parent.value, parentOf, n - 1);
      assert Dirs(dir, parentOf, n) == [dir] + rest;
      CandidatesCons(dir, rest);
      FirstExistingCons(Candidate(dir), Candidates(rest), files);
      if !Text.IsNullOrEmpty(parent) {
        SearchIsFirstExisting(parent.value, parentOf, files, n - 1);
      }
    }
  }
}
