/**
 * ModelManager (ui/WH): where the speech model lives and how it is kept
 * current. The cache is the model file plus a JSON manifest recording its
 * file name, SHA-256 and size. A run that finds the model matching its
 * manifest does nothing; any other run downloads to a temporary file, hashes
 * it, replaces the model by a rename and writes a fresh manifest.
 */
module ModelManager {
  import opened Wrappers
  import opened Host
  import Text
  import Hex
  import Paths
  import opened Logging

  /** The manifest record: file name, lower-case hex SHA-256 and size in bytes. */
  datatype Manifest = Manifest(fileName: string, sha256: string, size: int)

  /** JsonSerializer.Deserialize: a record, the JSON literal null, or an exception with its message. */
  datatype ManifestParse = Parsed(manifest: Manifest) | ParsedNull | Malformed(message: string)

  /** Reading a manifest file's bytes back into a record, and serialising a record to bytes. */
  datatype ManifestCodec = ManifestCodec(read: Bytes -> ManifestParse, write: Manifest -> Bytes)

  /** The serialiser and deserialiser agree: a written manifest reads back as itself. */
  ghost predicate RoundTrips(codec: ManifestCodec) {
    forall m: Manifest :: codec.read(codec.write(m)) == Parsed(m)
  }

  const DefaultModelFileName: string := "ggml-tiny.en.bin"
  const DefaultModelBaseUrl: string := "https://huggingface.co/ggerganov/whisper.cpp/resolve/main/"

  /** WH_RUNTIME_DIR when it is set and not blank, otherwise <LocalAppData>\wh. */
  function RuntimeRoot(env: Env): string {
    var o := GetVariable(env, "WH_RUNTIME_DIR");
    if !Text.IsNullOrWhiteSpace(o) then o.value else Paths.Combine(env.localAppData, "wh")
  }

  /** WH_MODELS_DIR when it is set and not blank, otherwise <runtime root>\models. */
  function ModelsRoot(env: Env): string {
    var o := GetVariable(env, "WH_MODELS_DIR");
    if !Text.IsNullOrWhiteSpace(o) then o.value else Paths.Combine(RuntimeRoot(env), "models")
  }

  function ModelPath(env: Env): string {
    Paths.Combine(ModelsRoot(env), DefaultModelFileName)
  }

  function ManifestPath(env: Env): string {
    Paths.Combine(ModelsRoot(env), DefaultModelFileName + ".manifest.json")
  }

  /** WH_MODEL_URL whenever it is set (the `??` operator tests for null only), otherwise the fixed location. */
  function ModelUrl(env: Env): string {
    match GetVariable(env, "WH_MODEL_URL")
    case Some(url) => url
    case None => DefaultModelBaseUrl + DefaultModelFileName
  }

  function TempPath(env: Env): string {
    ModelPath(env) + ".downloading"
  }

  /** What the verification block concludes about an existing model. */
  datatype Verdict =
    | Hit(hash: string, size: nat)
    | Mismatch(expected: string, actual: string)
    | VerifyFailed(message: string)
    | NotChecked

  /** The verification block: both files present, a non-null manifest, and the model's digest equal to the recorded one ignoring case. */
  function Verify(files: map<string, Bytes>, dest: string, manifestPath: string, platform: Platform, codec: ManifestCodec): Verdict {
    if dest !in files || manifestPath !in files then NotChecked
    else match codec.read(files[manifestPath])
      case Malformed(message) => VerifyFailed(message)
      case ParsedNull => NotChecked
      case Parsed(m) =>
        var hash := Hex.DigestString(platform.sha256(files[dest]));
        if Text.EqualsIgnoreCase(hash, m.sha256) then Hit(hash, |files[dest]|) else Mismatch(m.sha256, hash)
  }

  /** The log records the verification block writes. */
  function VerifyEntries(v: Verdict): seq<Entry> {
    match v
    case Hit(hash, size) => [Entry(Level.Info, "model.verify", [Field("sha256", Str(hash)), Field("size", Num(size))])]
    case Mismatch(expected, actual) => [Entry(Level.Warn, "model.hash_mismatch", [Field("expected", Str(expected)), Field("actual", Str(actual))])]
    case VerifyFailed(message) => [Entry(Level.Warn, "model.verify_failed", [Field("error", Str(message))])]
    case NotChecked => []
  }

  /** One run of EnsureModelAsync: the resulting files, the records logged and the outcome. */
  datatype Run = Run(disk: DiskState, entries: seq<Entry>, outcome: Outcome<Failure>)

  /** The manifest written for downloaded bytes. */
  function ManifestFor(dest: string, body: Bytes, platform: Platform): Manifest {
    Manifest(Paths.GetFileName(dest), Hex.DigestString(platform.sha256(body)), |body|)
  }

  /** Finalisation: write the temporary file, delete any old model, rename the temporary file, write the manifest. */
  function Installed(st: DiskState, dest: string, manifestPath: string, body: Bytes, platform: Platform, codec: ManifestCodec): DiskState {
    var tmp := dest + ".downloading";
    var s1 := Written(st, tmp, body);
    var s2 := if dest in s1.files then Removed(s1, dest) else s1;
    assert tmp in s2.files by { TempDistinct(dest); }
    var s3 := Relocated(s2, tmp, dest);
    Written(s3, manifestPath, codec.write(ManifestFor(dest, body, platform)))
  }

  function CompleteEntry(dest: string, body: Bytes, platform: Platform): Entry {
    var m := ManifestFor(dest, body, platform);
    Entry(Level.Info, "model.download.complete", [Field("path", Str(dest)), Field("sha256", Str(m.sha256)), Field("size", Num(m.size))])
  }

  function StartEntry(url: string): Entry {
    Entry(Level.Info, "model.download.start", [Field("url", Str(url))])
  }

  /** The download block: fetch the URL, fail on a transport error or a non-success status, otherwise install the body. */
  function DownloadSpec(st: DiskState, dest: string, manifestPath: string, url: string, platform: Platform, codec: ManifestCodec): Run {
    match platform.httpGet(url)
    case HttpFault(message) => Run(st, [StartEntry(url)], Fail(NetworkFailure(message)))
    case HttpResponse(status, reason, body) =>
      if !IsSuccessStatus(status) then Run(st, [StartEntry(url)], Fail(HttpStatusFailure(status, reason)))
      else Run(Installed(st, dest, manifestPath, body, platform, codec), [StartEntry(url), CompleteEntry(dest, body, platform)], Pass)
  }

  /** The verification block, then the download block unless the model verified, for the given paths and URL. */
  function EnsureModelAt(st: DiskState, dest: string, manifestPath: string, url: string, platform: Platform, codec: ManifestCodec): Run {
    var verdict := Verify(st.files, dest, manifestPath, platform, codec);
    if verdict.Hit? then Run(st, VerifyEntries(verdict), Pass)
    else
      var download := DownloadSpec(st, dest, manifestPath, url, platform, codec);
      Run(download.disk, VerifyEntries(verdict) + download.entries, download.outcome)
  }

  /** EnsureModelAsync as a transition, from the environment that fixes the paths and the URL. */
  function EnsureModelSpec(env: Env, st: DiskState, platform: Platform, codec: ManifestCodec): Run {
    EnsureModelAt(st, ModelPath(env), ManifestPath(env), ModelUrl(env), platform, codec)
  }

  /** Logs the outcome of the verification block. */
  method LogVerdict(verdict: Verdict, log: FileLogger)
    requires log.Valid()
    modifies log
    ensures log.Valid()
    ensures log.entries == old(log.entries) + VerifyEntries(verdict)
  {
    match verdict {
      case Hit(hash, size) =>
        log.Info("model.verify", [Field("sha256", Str(hash)), Field("size", Num(size))]);
      case Mismatch(expected, actual) =>
        log.Warn("model.hash_mismatch", [Field("expected", Str(expected)), Field("actual", Str(actual))]);
      case VerifyFailed(message) =>
        log.Warn("model.verify_failed", [Field("error", Str(message))]);
      case NotChecked =>
    }
  }

  /** Writes the downloaded bytes to the temporary file, then moves them into place and records the manifest. */
  method Install(disk: Disk, dest: string, manifestPath: string, body: Bytes, platform: Platform, codec: ManifestCodec)
    modifies disk
    ensures disk.State() == Installed(old(disk.State()), dest, manifestPath, body, platform, codec)
  {
    var tmp := dest + ".downloading";
    disk.Write(tmp, body);
    var bytes := disk.files[tmp];
    var sha := Hex.DigestString(platform.sha256(bytes));
    var size := |bytes|;
    if dest in disk.files {
      disk.Delete(dest);
    }
    TempDistinct(dest);
    disk.Move(tmp, dest);
    disk.Write(manifestPath, codec.write(Manifest(Paths.GetFileName(dest), sha, size)));
  }

  /** EnsureModelAsync: verify the cached model; on anything but a hit, download and install it. */
  method EnsureModel(env: Env, disk: Disk, platform: Platform, codec: ManifestCodec, log: FileLogger) returns (r: Outcome<Failure>)
    requires log.Valid()
    modifies disk, log
    ensures log.Valid()
    ensures var run := EnsureModelSpec(env, old(disk.State()), platform, codec);
      disk.State() == run.disk && log.entries == old(log.entries) + run.entries && r == run.outcome
  {
    var dest := ModelPath(env);
    var manifestPath := ManifestPath(env);
    r := EnsureModelIn(dest, manifestPath, ModelUrl(env), disk, platform, codec, log);
  }

  /** The body of EnsureModelAsync once the paths and the URL are known. */
  method EnsureModelIn(dest: string, manifestPath: string, url: string, disk: Disk, platform: Platform, codec: ManifestCodec, log: FileLogger)
    returns (r: Outcome<Failure>)
    requires log.Valid()
    modifies disk, log
    ensures log.Valid()
    ensures var run := EnsureModelAt(old(disk.State()), dest, manifestPath, url, platform, codec);
      disk.State() == run.disk && log.entries == old(log.entries) + run.entries && r == run.outcome
  {
    var verdict := Verify(disk.files, dest, manifestPath, platform, codec);
    ghost var download := DownloadSpec(disk.State(), dest, manifestPath, url, platform, codec);
    assert EnsureModelAt(disk.State(), dest, manifestPath, url, platform, codec) ==
      if verdict.Hit? then Run(disk.State(), VerifyEntries(verdict), Pass)
      else Run(download.disk, VerifyEntries(verdict) + download.entries, download.outcome);
    LogVerdict(verdict, log);
    if verdict.Hit? {
      return Pass;
    }
    r := Download(disk, dest, manifestPath, url, platform, codec, log);
  }

  method Download(disk: Disk, dest: string, manifestPath: string, url: string, platform: Platform, codec: ManifestCodec, log: FileLogger)
    returns (r: Outcome<Failure>)
    requires log.Valid()
    modifies disk, log
    ensures log.Valid()
    ensures var run := DownloadSpec(old(disk.State()), dest, manifestPath, url, platform, codec);
      disk.State() == run.disk && log.entries == old(log.entries) + run.entries && r == run.outcome
  {
    log.Info("model.download.start", [Field("url", Str(url))]);
    var reply := platform.httpGet(url);
    if reply.HttpFault? {
      return Fail(NetworkFailure(reply.message));
    }
    if !IsSuccessStatus(reply.status) {
      return Fail(HttpStatusFailure(reply.status, reply.reason));
    }
    Install(disk, dest, manifestPath, reply.body, platform, codec);
    var m := ManifestFor(dest, reply.body, platform);
    log.Info("model.download.complete", [Field("path", Str(dest)), Field("sha256", Str(m.sha256)), Field("size", Num(m.size))]);
    r := Pass;
  }

  // ---------------------------------------------------------------------------
  // Properties.

  lemma TempDistinct(dest: string)
    ensures dest + ".downloading" != dest
  {
    assert |dest + ".downloading"| > |dest|;
  }

  /**
   * The models root is WH_MODELS_DIR when not blank; otherwise WH_RUNTIME_DIR
   * (when not blank) or <LocalAppData>\wh, followed by models.
   */
  lemma ModelsRootChoice(env: Env)
    ensures var models, runtime := GetVariable(env, "WH_MODELS_DIR"), GetVariable(env, "WH_RUNTIME_DIR");
      && (!Text.IsNullOrWhiteSpace(models) ==> ModelsRoot(env) == models.value)
      && (Text.IsNullOrWhiteSpace(models) && !Text.IsNullOrWhiteSpace(runtime) ==>
            ModelsRoot(env) == Paths.Combine(runtime.value, "models"))
      && (Text.IsNullOrWhiteSpace(models) && Text.IsNullOrWhiteSpace(runtime) ==>
            ModelsRoot(env) == Paths.Combine(Paths.Combine(env.localAppData, "wh"), "models"))
  {
  }

  /**
   * The cache layout: the model's file name is the default name, the manifest
   * path is the model path with ".manifest.json" appended, and the model,
   * manifest and temporary paths are pairwise distinct.
   */
  lemma CacheLayout(env: Env)
    ensures Paths.GetFileName(ModelPath(env)) == DefaultModelFileName
    ensures ManifestPath(env) == ModelPath(env) + ".manifest.json"
    ensures TempPath(env) == ModelPath(env) + ".downloading"
    ensures ModelPath(env) != ManifestPath(env) && ModelPath(env) != TempPath(env) && ManifestPath(env) != TempPath(env)
  {
    DefaultNameIsPlain();
    Paths.FileNameOfCombine(ModelsRoot(env), DefaultModelFileName);
    Paths.CombineAppend(ModelsRoot(env), DefaultModelFileName, ".manifest.json");
    var dest := ModelPath(env);
    assert |dest + ".manifest.json"| == |dest| + 14;
    assert |dest + ".downloading"| == |dest| + 12;
  }

  lemma DefaultNameIsPlain()
    ensures Paths.IsPlainName(DefaultModelFileName)
  {
    forall i | 0 <= i < |DefaultModelFileName|
      ensures !Paths.IsDirectorySeparator(DefaultModelFileName[i])
    {
    }
  }

  /** WH_MODEL_URL wins whenever it is set, even to an empty or blank value; only an unset variable gives the default location. */
  lemma ModelUrlChoice(env: Env)
    ensures "WH_MODEL_URL" in env.vars ==> ModelUrl(env) == env.vars["WH_MODEL_URL"]
    ensures "WH_MODEL_URL" !in env.vars ==>
      ModelUrl(env) == "https://huggingface.co/ggerganov/whisper.cpp/resolve/main/ggml-tiny.en.bin"
  {
  }

  /** An empty WH_MODEL_URL is used as the URL, while an empty WH_MODELS_DIR is ignored. */
  lemma EmptyOverridesDiffer(env: Env)
    requires "WH_MODEL_URL" in env.vars && env.vars["WH_MODEL_URL"] == ""
    requires "WH_MODELS_DIR" in env.vars && env.vars["WH_MODELS_DIR"] == ""
    ensures ModelUrl(env) == ""
    ensures ModelsRoot(env) == Paths.Combine(RuntimeRoot(env), "models") != ""
  {
    var root := RuntimeRoot(env);
    assert Paths.Combine(root, "models")[|Paths.Combine(root, "models")| - 1] == 's';
  }

  /**
   * A run leaves the files untouched and succeeds exactly when the cached model
   * verifies; it then logs only model.verify and requests nothing.
   */
  lemma HitIsQuiet(env: Env, st: DiskState, platform: Platform, codec: ManifestCodec)
    ensures var run := EnsureModelSpec(env, st, platform, codec);
      var verdict := Verify(st.files, ModelPath(env), ManifestPath(env), platform, codec);
      && (verdict.Hit? <==> run.disk == st && run.outcome == Pass)
      && (verdict.Hit? ==> |run.entries| == 1 && run.entries[0].evt == "model.verify")
  {
    var run := EnsureModelSpec(env, st, platform, codec);
    if run.disk == st && run.outcome == Pass {
      assert |run.disk.mutations| == |st.mutations|;
    }
  }

  /**
   * No verification problem escapes: a failed run failed on the download, its
   * error comes from the HTTP reply for the model URL, and it changed no file.
   */
  lemma FailuresComeFromDownload(env: Env, st: DiskState, platform: Platform, codec: ManifestCodec)
    ensures var run := EnsureModelSpec(env, st, platform, codec);
      var reply := platform.httpGet(ModelUrl(env));
      run.outcome.Fail? ==>
        && run.disk == st
        && run.entries[|run.entries| - 1] == Entry(Level.Info, "model.download.start", [Field("url", Str(ModelUrl(env)))])
        && (if reply.HttpFault? then run.outcome.error == NetworkFailure(reply.message)
            else !IsSuccessStatus(reply.status) && run.outcome.error == HttpStatusFailure(reply.status, reply.reason))
  {
  }

  /**
   * A download that succeeds installs in a fixed order: write the temporary
   * file, delete the old model if there is one, rename the temporary file to
   * the model path, write the manifest. Afterwards the model holds the
   * downloaded bytes and the manifest records its name, lower-case base 16
   * digest and size.
   */
  lemma InstallOrder(env: Env, st: DiskState, platform: Platform, codec: ManifestCodec)
    ensures var run := EnsureModelSpec(env, st, platform, codec);
      var dest, manifestPath, tmp := ModelPath(env), ManifestPath(env), TempPath(env);
      var verdict := Verify(st.files, dest, manifestPath, platform, codec);
      var reply := platform.httpGet(ModelUrl(env));
      run.outcome == Pass && !verdict.Hit? ==>
        && reply.HttpResponse?
        && var body := reply.body;
           var m := Manifest(DefaultModelFileName, Hex.Base16(platform.sha256(body)), |body|);
           && run.disk.mutations == st.mutations + [Wrote(tmp, body)] + (if dest in st.files then [Deleted(dest)] else [])
                                    + [Moved(tmp, dest), Wrote(manifestPath, codec.write(m))]
           && run.disk.files == (st.files - {tmp})[dest := body][manifestPath := codec.write(m)]
  {
    var run := EnsureModelSpec(env, st, platform, codec);
    var dest, manifestPath := ModelPath(env), ManifestPath(env);
    var verdict := Verify(st.files, dest, manifestPath, platform, codec);
    var reply := platform.httpGet(ModelUrl(env));
    if run.outcome == Pass && !verdict.Hit? {
      CacheLayout(env);
      Hex.DigestStringIsBase16(platform.sha256(reply.body));
      InstalledShape(st, dest, manifestPath, reply.body, platform, codec);
    }
  }

  lemma InstalledShape(st: DiskState, dest: string, manifestPath: string, body: Bytes, platform: Platform, codec: ManifestCodec)
    ensures var tmp, written := dest + ".downloading", codec.write(ManifestFor(dest, body, platform));
      var after := Installed(st, dest, manifestPath, body, platform, codec);
      && after.mutations == st.mutations + [Wrote(tmp, body)] + (if dest in st.files then [Deleted(dest)] else [])
                            + [Moved(tmp, dest), Wrote(manifestPath, written)]
      && after.files == (st.files - {tmp})[dest := body][manifestPath := written]
  {
    var tmp := dest + ".downloading";
    TempDistinct(dest);
    var s1 := Written(st, tmp, body);
    assert dest in s1.files <==> dest in st.files;
    var s2 := if dest in s1.files then Removed(s1, dest) else s1;
    assert (s2.files - {tmp})[dest := body] == (st.files - {tmp})[dest := body];
  }

  /**
   * Finalisation is not atomic. Its intermediate states are these: after the
   * deletion there is no model while the old manifest is still in place, so a
   * rename that fails there loses the previous model; after the rename the new
   * model sits beside the old manifest until the new one is written.
   */
  lemma ReplacementIsNotAtomic(env: Env, st: DiskState, body: Bytes, platform: Platform, codec: ManifestCodec)
    requires ModelPath(env) in st.files && ManifestPath(env) in st.files
    ensures var dest, manifestPath, tmp := ModelPath(env), ManifestPath(env), TempPath(env);
      var s2 := Removed(Written(st, tmp, body), dest);
      && tmp in s2.files && manifestPath in s2.files
      && dest !in s2.files && s2.files[manifestPath] == st.files[manifestPath]
      && var s3 := Relocated(s2, tmp, dest);
         && manifestPath in s3.files
         && s3.files[dest] == body && s3.files[manifestPath] == st.files[manifestPath]
         && Installed(st, dest, manifestPath, body, platform, codec) == Written(s3, manifestPath, codec.write(ManifestFor(dest, body, platform)))
  {
    CacheLayout(env);
  }

  /** Right after a successful run, a second run on the same files is a cache hit, provided the manifest codec round-trips. */
  lemma SecondRunHits(env: Env, st: DiskState, platform: Platform, codec: ManifestCodec)
    requires RoundTrips(codec)
    ensures var run := EnsureModelSpec(env, st, platform, codec);
      run.outcome == Pass ==>
        && Verify(run.disk.files, ModelPath(env), ManifestPath(env), platform, codec).Hit?
        && EnsureModelSpec(env, run.disk, platform, codec).disk == run.disk
  {
    var run := EnsureModelSpec(env, st, platform, codec);
    var dest, manifestPath := ModelPath(env), ManifestPath(env);
    if run.outcome == Pass && !Verify(st.files, dest, manifestPath, platform, codec).Hit? {
      CacheLayout(env);
      var body := platform.httpGet(ModelUrl(env)).body;
      var m := Manifest(Paths.GetFileName(dest), Hex.DigestString(platform.sha256(body)), |body|);
      assert run.disk.files[dest] == body;
      assert codec.read(run.disk.files[manifestPath]) == Parsed(m);
    }
  }

  /**
   * Self-healing: when the manifest records the digest of some content d and
   * the model's digest is different (the file was changed or corrupted), the
   * model is not a hit and is downloaded again.
   */
  lemma ChangedModelIsReplaced(env: Env, st: DiskState, platform: Platform, codec: ManifestCodec, d: Bytes)
    requires ModelPath(env) in st.files && ManifestPath(env) in st.files
    requires codec.read(st.files[ManifestPath(env)]).Parsed?
    requires codec.read(st.files[ManifestPath(env)]).manifest.sha256 == Hex.Base16(d)
    requires platform.sha256(st.files[ModelPath(env)]) != d
    ensures Verify(st.files, ModelPath(env), ManifestPath(env), platform, codec).Mismatch?
    ensures EnsureModelSpec(env, st, platform, codec).entries[1].evt == "model.download.start"
  {
    var actual := platform.sha256(st.files[ModelPath(env)]);
    Hex.DigestStringIsBase16(actual);
    Hex.DigestsIgnoreCase(actual, d);
    var verdict := Verify(st.files, ModelPath(env), ManifestPath(env), platform, codec);
    assert |VerifyEntries(verdict)| == 1;
    DownloadStarts(st, ModelPath(env), ManifestPath(env), ModelUrl(env), platform, codec);
  }

  /** The download block always logs model.download.start first. */
  lemma DownloadStarts(st: DiskState, dest: string, manifestPath: string, url: string, platform: Platform, codec: ManifestCodec)
    ensures var run := DownloadSpec(st, dest, manifestPath, url, platform, codec);
      |run.entries| >= 1 && run.entries[0] == StartEntry(url)
  {
  }
}
