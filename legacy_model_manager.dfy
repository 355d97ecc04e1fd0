/**
 * The older model manager (ui/Services): a fixed model directory, one
 * download URL and an expected hash. The model is downloaded straight over
 * the final path whenever it is missing or does not verify.
 */
module LegacyModelManager {
  import opened Wrappers
  import opened Host
  import Text
  import Hex
  import Paths

  const SmallModelUrl: string := "https://huggingface.co/ggerganov/whisper.cpp/resolve/main/ggml-small.bin"
  const SmallModelSha256: string := "sha256-placeholder"
  const SmallModelFileName: string := "ggml-small.bin"

  /** Path.Combine(LocalApplicationData, "wh", "models"). */
  function ModelDir(env: Env): string {
    Paths.Combine(Paths.Combine(env.localAppData, "wh"), "models")
  }

  /**
   * VerifyHash: false for a null or empty expectation or a missing file;
   * otherwise the lower-case hex digest of the file compared ordinally with
   * the expectation lower-cased.
   */
  function VerifyHash(files: map<string, Bytes>, path: string, expected: Option<string>, platform: Platform): bool {
    if Text.IsNullOrEmpty(expected) || path !in files then false
    else Hex.DigestString(platform.sha256(files[path])) == Text.AsciiLower(expected.value)
  }

  /** EnsureModelAsync as a transition: the files afterwards and the returned path or the exception. */
  function EnsureModelSpec(modelDir: string, st: DiskState, platform: Platform): (DiskState, Result<string, Failure>) {
    var path := Paths.Combine(modelDir, SmallModelFileName);
    if path in st.files && VerifyHash(st.files, path, Some(SmallModelSha256), platform) then (st, Ok(path))
    else match platform.httpGet(SmallModelUrl)
      case HttpFault(message) => (st, Err(NetworkFailure(message)))
      case HttpResponse(status, reason, body) =>
        if !IsSuccessStatus(status) then (st, Err(HttpStatusFailure(status, reason)))
        else (Written(st, path, body), Ok(path))
  }

  class ModelManager {
    const modelDir: string
    const smallModel: (string, string)

    constructor (env: Env)
      ensures modelDir == ModelDir(env) && smallModel == (SmallModelUrl, SmallModelSha256)
    {
      modelDir := ModelDir(env);
      smallModel := (SmallModelUrl, SmallModelSha256);
    }

    method EnsureModel(disk: Disk, platform: Platform) returns (r: Result<string, Failure>)
      requires smallModel == (SmallModelUrl, SmallModelSha256)
      modifies disk
      ensures (disk.State(), r) == EnsureModelSpec(modelDir, old(disk.State()), platform)
    {
      var path := Paths.Combine(modelDir, SmallModelFileName);
      if path !in disk.files || !VerifyHash(disk.files, path, Some(smallModel.1), platform) {
        var response := platform.httpGet(smallModel.0);
        if response.HttpFault? {
          return Err(NetworkFailure(response.message));
        }
        if !IsSuccessStatus(response.status) {
          return Err(HttpStatusFailure(response.status, response.reason));
        }
        disk.Write(path, response.body);
      }
      r := Ok(path);
    }
  }

  // ---------------------------------------------------------------------------
  // Properties.

  /** A file verifies exactly when it exists, the expectation is not empty, and it is the file's lower-case base 16 digest in some ASCII case. */
  lemma VerifyHashMeaning(files: map<string, Bytes>, path: string, expected: Option<string>, platform: Platform)
    ensures VerifyHash(files, path, expected, platform) <==>
      && expected.Some? && expected.value != "" && path in files
      && Text.AsciiLower(expected.value) == Hex.Base16(platform.sha256(files[path]))
  {
    if path in files {
      Hex.DigestStringIsBase16(platform.sha256(files[path]));
    }
  }

  /** An expectation whose first character is not a hex digit in either case never verifies. */
  lemma {:induction false} NonHexNeverVerifies(files: map<string, Bytes>, path: string, expected: string, platform: Platform)
    requires |expected| > 0 && !Hex.IsLowerHexDigit(Text.AsciiLowerChar(expected[0]))
    ensures !VerifyHash(files, path, Some(expected), platform)
  {
    if path in files {
      var digest := platform.sha256(files[path]);
      VerifyHashMeaning(files, path, Some(expected), platform);
      Hex.Base16Shape(digest);
      Text.AsciiLowerAt(expected, 0);
      assert Text.AsciiLower(expected) != Hex.Base16(digest);
    }
  }

  /** The built-in expectation "sha256-placeholder" is not a lower-case hex string, so no file ever verifies against it. */
  lemma PlaceholderNeverVerifies(files: map<string, Bytes>, path: string, platform: Platform)
    ensures !VerifyHash(files, path, Some(SmallModelSha256), platform)
  {
    assert SmallModelSha256[0] == 's';
    NonHexNeverVerifies(files, path, SmallModelSha256, platform);
  }

  /**
   * Every call therefore downloads: it fails without touching the files when
   * the download fails, and otherwise overwrites the model path directly with
   * the body, with no temporary file. The returned path is always
   * <modelDir>\ggml-small.bin.
   */
  lemma EveryCallDownloads(modelDir: string, st: DiskState, platform: Platform)
    ensures var (st', r) := EnsureModelSpec(modelDir, st, platform);
      var path := Paths.Combine(modelDir, SmallModelFileName);
      var reply := platform.httpGet(SmallModelUrl);
      && (r.Ok? <==> reply.HttpResponse? && IsSuccessStatus(reply.status))
      && (r.Ok? ==> r.value == path && st' == Written(st, path, reply.body))
      && (r.Err? ==> st' == st)
  {
    PlaceholderNeverVerifies(st.files, Paths.Combine(modelDir, SmallModelFileName), platform);
  }

  /** With a genuine expectation, a file whose digest matches in any case is kept and the call does nothing. */
  lemma MatchingFileIsKept(files: map<string, Bytes>, path: string, platform: Platform)
    requires path in files
    ensures VerifyHash(files, path, Some(Hex.Base16(platform.sha256(files[path]))), platform) == (|platform.sha256(files[path])| > 0)
  {
    var digest := platform.sha256(files[path]);
    VerifyHashMeaning(files, path, Some(Hex.Base16(digest)), platform);
    Hex.Base16Shape(digest);
    Text.AsciiLowerFixed(Hex.Base16(digest));
  }
}
