/**
 * Native (ui/WH/Native.cs): the managed gateway to the stub. It turns a
 * non-zero return code into an exception carrying the code, copies the
 * returned buffer into a managed string and frees the buffer in a finally
 * block.
 */
module NativeGateway {
  import opened Wrappers
  import opened Unicode
  import opened NativeStub
  import opened Host

  /** Marshalling a managed string (or null) to an LPWStr argument. */
  function Marshal(s: Option<string>): Option<Utf16> {
    if s.Some? then Some(Utf16Of(s.value)) else None
  }

  /** Native.Init as a transition. */
  function InitSpec(st: StubState, modelPath: Option<string>, throws: bool): (StubState, Outcome<Failure>) {
    var (st', rc) := InitStep(st, Marshal(modelPath), throws);
    (st', if rc != 0 then Fail(InitFailure(rc)) else Pass)
  }

  /** Native.TranscribeWav as a transition; copyFails is Marshal.PtrToStringUni running out of memory. */
  function TranscribeSpec(st: StubState, path: Option<string>, faults: TranscribeFaults, copyFails: bool): (StubState, Result<Utf16, Failure>) {
    var (st1, rc, out) := TranscribeStep(st, Marshal(path), true, faults);
    if rc != 0 then (st1, Err(TranscribeFailure(rc)))
    else
      var p := out.value;
      var copied := if p == 0 then Ok([]) else if copyFails then Err(OutOfMemory) else Ok(ReadUntilNul(st1.heap[p]));
      (if p != 0 then FreeStep(st1, p) else st1, copied)
  }

  method Init(lib: WhLibrary, modelPath: Option<string>, throws: bool) returns (r: Outcome<Failure>)
    modifies lib
    ensures (lib.State(), r) == InitSpec(old(lib.State()), modelPath, throws)
  {
    var rc := lib.WhInit(Marshal(modelPath), throws);
    if rc != 0 {
      return Fail(InitFailure(rc));
    }
    r := Pass;
  }

  method TranscribeWav(lib: WhLibrary, path: Option<string>, faults: TranscribeFaults, copyFails: bool) returns (r: Result<Utf16, Failure>)
    requires Valid(lib.State())
    modifies lib
    ensures (lib.State(), r) == TranscribeSpec(old(lib.State()), path, faults, copyFails)
  {
    var rc, out := lib.WhTranscribeWav(Marshal(path), true, faults);
    if rc != 0 {
      return Err(TranscribeFailure(rc));
    }
    var p := out.value;
    // try
    if p == 0 {
      r := Ok([]);
    } else if copyFails {
      r := Err(OutOfMemory);
    } else {
      r := Ok(ReadUntilNul(lib.heap[p]));
    }
    // finally
    if p != 0 {
      lib.WhFree(p);
    }
  }

  // ---------------------------------------------------------------------------
  // Properties.

  /** Init fails, with the code in the exception, exactly when wh_init returns non-zero: a null path (-1) or a throwing first initialisation (-3). */
  lemma InitFailures(st: StubState, modelPath: Option<string>, throws: bool)
    requires Valid(st)
    ensures var (st', r) := InitSpec(st, modelPath, throws);
      && Valid(st')
      && (modelPath.None? ==> r == Fail(InitFailure(-1)) && st' == st)
      && (modelPath.Some? && !st.initialized && throws ==> r == Fail(InitFailure(-3)) && st' == st)
      && (modelPath.Some? && (st.initialized || !throws) ==> r == Pass && st'.initialized)
  {
    InitCodes(st, Marshal(modelPath), throws);
  }

  /**
   * The buffer is released exactly once when the stub succeeded, even when the
   * copy fails, and never otherwise: no call leaks or double-frees, and the C
   * heap is the same after every call.
   */
  lemma FreedExactlyOnce(st: StubState, path: Option<string>, faults: TranscribeFaults, copyFails: bool)
    requires Valid(st)
    ensures var (st', r) := TranscribeSpec(st, path, faults, copyFails);
      var rc := TranscribeStep(st, Marshal(path), true, faults).1;
      && Valid(st') && st'.heap == st.heap
      && (rc != 0 ==> st'.frees == st.frees && r == Err(TranscribeFailure(rc)))
      && (rc == 0 ==> st'.frees == st.frees + [st.nextPtr])
      && (r.Err? ==> r.error == OutOfMemory || r.error == TranscribeFailure(rc))
  {
    TranscribeCodes(st, Marshal(path), true, faults);
    var (st1, rc, out) := TranscribeStep(st, Marshal(path), true, faults);
    if rc == 0 {
      assert st1.heap - {st.nextPtr} == st.heap;
    }
  }

  /** Before any successful Init, TranscribeWav throws with code -2 and changes nothing. */
  lemma TranscribeBeforeInit(st: StubState, path: Option<string>, faults: TranscribeFaults, copyFails: bool)
    requires !st.initialized
    ensures TranscribeSpec(st, path, faults, copyFails) == (st, Err(TranscribeFailure(-2)))
  {
  }

  /** On success the managed string is exactly the stub's canned transcript for the marshalled path. */
  lemma TranscribeSuccess(st: StubState, path: string)
    requires Valid(st) && st.initialized
    ensures TranscribeSpec(st, Some(path), NoFaults, false).1 == Ok(Transcript(Utf16Of(path)))
  {
    TranscriptReadsBack(Utf16Of(path));
  }

  /** Init with any model path, then TranscribeWav on a path containing hello.wav, returns "hello". */
  lemma InitThenHello(st: StubState, model: string, pre: string, post: string)
    requires Valid(st)
    ensures var (st1, r1) := InitSpec(st, Some(model), false);
      && r1 == Pass
      && TranscribeSpec(st1, Some(pre + "hello.wav" + post), NoFaults, false).1 == Ok(Utf16Of("hello"))
  {
    InitFailures(st, Some(model), false);
    var (st1, r1) := InitSpec(st, Some(model), false);
    TranscribeSuccess(st1, pre + "hello.wav" + post);
    HelloPathStrings(pre, post);
  }
}
