/**
 * What the core reads from and writes to outside itself: the process
 * environment, the file system, the network and SHA-256, and the exceptions
 * that cross component boundaries.
 */
module Host {
  import opened Wrappers
  import Hex
  import Text

  type Bytes = Hex.Bytes

  /** Process environment variables and the LocalApplicationData folder. */
  datatype Env = Env(vars: map<string, string>, localAppData: string)

  /** Environment.GetEnvironmentVariable: null when the variable is not set. */
  function GetVariable(env: Env, name: string): Option<string> {
    if name in env.vars then Some(env.vars[name]) else None
  }

  /**
   * The outcome of an HTTP GET: a response with a status, the reason phrase
   * HttpResponseMessage.ReasonPhrase reports (empty when there is none) and a
   * body, or a thrown HttpRequestException.
   */
  datatype HttpReply = HttpResponse(status: int, reason: string, body: Bytes) | HttpFault(message: string)

  /** HttpResponseMessage.IsSuccessStatusCode. */
  predicate IsSuccessStatus(status: int) { 200 <= status <= 299 }

  /** Services used only through their results: SHA-256 and HTTP GET, each a fixed function. */
  datatype Platform = Platform(sha256: Bytes -> Bytes, httpGet: string -> HttpReply)

  /** A change to the file system, in the order it happened. */
  datatype Mutation = Wrote(path: string, bytes: Bytes) | Deleted(path: string) | Moved(source: string, target: string)

  /** The file system seen as a map from path to contents, plus the record of every change made to it. */
  datatype DiskState = DiskState(files: map<string, Bytes>, mutations: seq<Mutation>)

  /** The state after writing bytes to path, creating or truncating it. */
  function Written(st: DiskState, path: string, bytes: Bytes): DiskState {
    DiskState(st.files[path := bytes], st.mutations + [Wrote(path, bytes)])
  }

  /** The state after deleting path. */
  function Removed(st: DiskState, path: string): DiskState {
    DiskState(st.files - {path}, st.mutations + [Deleted(path)])
  }

  /** The state after renaming source to target. */
  function Relocated(st: DiskState, source: string, target: string): DiskState
    requires source in st.files
  {
    DiskState((st.files - {source})[target := st.files[source]], st.mutations + [Moved(source, target)])
  }

  class Disk {
    var files: map<string, Bytes>
    var mutations: seq<Mutation>

    function State(): DiskState
      reads this
    {
      DiskState(files, mutations)
    }

    constructor (initial: map<string, Bytes>)
      ensures files == initial && mutations == []
    {
      files := initial;
      mutations := [];
    }

    /** File.Create / File.WriteAllText / FileMode.Create: create or truncate, then write. */
    method Write(path: string, bytes: Bytes)
      modifies this
      ensures State() == Written(old(State()), path, bytes)
    {
      files := files[path := bytes];
      mutations := mutations + [Wrote(path, bytes)];
    }

    /** File.Delete. */
    method Delete(path: string)
      modifies this
      ensures State() == Removed(old(State()), path)
    {
      files := files - {path};
      mutations := mutations + [Deleted(path)];
    }

    /** File.Move: the source must exist and the target must not. */
    method Move(source: string, target: string)
      requires source in files && target !in files
      modifies this
      ensures State() == Relocated(old(State()), source, target)
    {
      files := (files - {source})[target := files[source]];
      mutations := mutations + [Moved(source, target)];
    }
  }

  /** The exceptions that leave the core's operations. */
  datatype Failure =
    | HttpStatusFailure(status: int, reason: string)  // HttpResponseMessage.EnsureSuccessStatusCode
    | NetworkFailure(message: string)      // HttpClient.GetAsync threw
    | InitFailure(rc: int)                 // Native.Init: wh_init returned non-zero
    | TranscribeFailure(rc: int)           // Native.TranscribeWav: wh_transcribe_wav returned non-zero
    | OutOfMemory                          // Marshal.PtrToStringUni could not allocate
    | SendInputFailure(sent: int, total: int)
    | BackspaceFailure(sent: int, total: int)
    | NoWavFailure

  /** Exception.Message of each failure. */
  function Message(f: Failure): string {
    match f
    case HttpStatusFailure(status, reason) =>
      "Response status code does not indicate success: " + Text.IntToString(status)
        + (if Text.IsNullOrWhiteSpace(Some(reason)) then "" else " (" + reason + ")") + "."
    case NetworkFailure(message) => message
    case InitFailure(rc) => "wh_init failed: " + Text.IntToString(rc)
    case TranscribeFailure(rc) => "wh_transcribe_wav failed: " + Text.IntToString(rc)
    case OutOfMemory => "Insufficient memory to continue the execution of the program."
    case SendInputFailure(sent, total) =>
      "SendInput failed: sent " + Text.IntToString(sent) + " of " + Text.IntToString(total)
    case BackspaceFailure(sent, total) =>
      "SendInput failed for backspaces: sent " + Text.IntToString(sent) + " of " + Text.IntToString(total)
    case NoWavFailure => "No WAV found at assets/audio/hello.wav."
  }

  lemma Code404()
    ensures Text.IntToString(404) == "404"
  {
    assert Text.NatToString(40) == "40";
  }

  /** A non-blank reason phrase appears in parentheses after the code; an empty one leaves the code last. */
  lemma StatusMessageForms(status: int)
    ensures Message(HttpStatusFailure(status, "Not Found"))
      == "Response status code does not indicate success: " + Text.IntToString(status) + " (Not Found)."
    ensures Message(HttpStatusFailure(status, ""))
      == "Response status code does not indicate success: " + Text.IntToString(status) + "."
  {
    assert !Text.IsWhiteSpace("Not Found"[0]);
  }

  /** The message EnsureSuccessStatusCode gives a 404 reply, with and without its standard reason phrase. */
  lemma StatusMessages()
    ensures Message(HttpStatusFailure(404, "Not Found")) == "Response status code does not indicate success: 404 (Not Found)."
    ensures Message(HttpStatusFailure(404, "")) == "Response status code does not indicate success: 404."
  {
    Code404();
    StatusMessageForms(404);
  }

}
