/**
 * The native transcription stub (wh.dll): wh_init stores the model path once,
 * wh_transcribe_wav returns a canned transcript in a malloc'd UTF-16 buffer
 * through an out-parameter, wh_free releases it. Failures are integer codes.
 *
 * Pointers are natural numbers with 0 for nullptr; the C heap is a map from
 * live pointers to the code units of their blocks.
 */
module NativeStub {
  import opened Wrappers
  import opened Unicode
  import Text

  type Ptr = nat

  /** The faults the stub's code paths can meet: an exception while copying or lowering the path (std::bad_alloc), and malloc returning null. */
  datatype TranscribeFaults = TranscribeFaults(throws: bool, mallocFails: bool)

  const NoFaults := TranscribeFaults(false, false)

  /** The globals, the C heap and every pointer passed to wh_free, in order. */
  datatype StubState = StubState(
    modelPath: Utf16,        // g_modelPath
    initialized: bool,       // g_initialized
    onceDone: bool,          // g_initOnce has run its function to completion
    heap: map<Ptr, Utf16>,
    nextPtr: Ptr,
    frees: seq<Ptr>)

  /** call_once marks the flag only when its function returns, and that function sets g_initialized; live pointers are non-null and below the allocation frontier. */
  predicate Valid(st: StubState) {
    && st.onceDone == st.initialized
    && st.nextPtr >= 1
    && forall p | p in st.heap :: 1 <= p < st.nextPtr
  }

  /** towlower restricted to ASCII. */
  function LowerUnit(u: u16): u16 {
    if 0x41 <= u <= 0x5A then u + 0x20 else u
  }

  function LowerUnits(s: Utf16): Utf16 {
    seq(|s|, i requires 0 <= i < |s| => LowerUnit(s[i]))
  }

  /** L"hello.wav" */
  const HelloWav: Utf16 := [0x68, 0x65, 0x6C, 0x6C, 0x6F, 0x2E, 0x77, 0x61, 0x76]
  /** L"hello" */
  const Hello: Utf16 := [0x68, 0x65, 0x6C, 0x6C, 0x6F]
  /** L"[transcription unavailable in stub build]" */
  const Unavailable: Utf16 :=
    [0x5B, 0x74, 0x72, 0x61, 0x6E, 0x73, 0x63, 0x72, 0x69, 0x70, 0x74, 0x69, 0x6F, 0x6E, 0x20, 0x75, 0x6E, 0x61, 0x76, 0x61, 0x69, 0x6C, 0x61, 0x62, 0x6C, 0x65, 0x20, 0x69, 0x6E, 0x20, 0x73, 0x74, 0x75, 0x62, 0x20, 0x62, 0x75, 0x69, 0x6C, 0x64, 0x5D]

  /** The canned transcript: "hello" when the lower-cased path contains hello.wav. */
  function Transcript(wav: Utf16): Utf16 {
    if Text.Contains(LowerUnits(wav), HelloWav) then Hello else Unavailable
  }

  /** Marshal.PtrToStringUni: the code units before the first NUL. */
  function ReadUntilNul(block: Utf16): Utf16 {
    if block == [] || block[0] == 0 then [] else [block[0]] + ReadUntilNul(block[1..])
  }

  /** wh_init as a transition; `throws` is the assignment to g_modelPath failing inside call_once. */
  function InitStep(st: StubState, path: Option<Utf16>, throws: bool): (StubState, int) {
    if path.None? then (st, -1)
    else if !st.onceDone && throws then (st, -3)
    else
      var st' := if st.onceDone then st else st.(modelPath := path.value, initialized := true, onceDone := true);
      (st', if st'.initialized then 0 else -2)
  }

  /** wh_transcribe_wav as a transition: the code and the out slot (None when out_utf16 is null). */
  function TranscribeStep(st: StubState, wav: Option<Utf16>, hasOut: bool, faults: TranscribeFaults): (r: (StubState, int, Option<Ptr>))
    ensures r.1 == 0 ==> r.2.Some? && r.2.value in r.0.heap
  {
    if !hasOut then (st, -1, None)
    else if wav.None? || !st.initialized then (st, -2, Some(0))
    else if faults.throws then (st, -4, Some(0))
    else if faults.mallocFails then (st, -3, Some(0))
    else
      var p := st.nextPtr;
      (st.(heap := st.heap[p := Transcript(wav.value) + [0]], nextPtr := p + 1), 0, Some(p))
  }

  /** wh_free as a transition: a null pointer is recorded and ignored. */
  function FreeStep(st: StubState, p: Ptr): StubState
    requires p == 0 || p in st.heap
  {
    if p == 0 then st.(frees := st.frees + [p]) else st.(heap := st.heap - {p}, frees := st.frees + [p])
  }

  class WhLibrary {
    var modelPath: Utf16
    var initialized: bool
    var onceDone: bool
    var heap: map<Ptr, Utf16>
    var nextPtr: Ptr
    var frees: seq<Ptr>

    function State(): StubState
      reads this
    {
      StubState(modelPath, initialized, onceDone, heap, nextPtr, frees)
    }

    constructor ()
      ensures State() == StubState([], false, false, map[], 1, [])
    {
      modelPath := [];
      initialized := false;
      onceDone := false;
      heap := map[];
      nextPtr := 1;
      frees := [];
    }

    method WhInit(path: Option<Utf16>, throws: bool) returns (rc: int)
      modifies this
      ensures (State(), rc) == InitStep(old(State()), path, throws)
    {
      if path.None? {
        return -1;
      }
      if !onceDone {
        if throws {
          return -3;
        }
        modelPath := path.value;
        initialized := true;
        onceDone := true;
      }
      rc := if initialized then 0 else -2;
    }

    /** dup_wstr: a fresh block holding s and its terminator, or null when malloc fails. */
    method DupWstr(s: Utf16, mallocFails: bool) returns (p: Ptr)
      modifies this
      ensures mallocFails ==> p == 0 && State() == old(State())
      ensures !mallocFails ==> p == old(nextPtr) && State() == old(State()).(heap := old(heap)[p := s + [0]], nextPtr := p + 1)
    {
      if mallocFails {
        return 0;
      }
      p := nextPtr;
      heap := heap[p := s + [0]];
      nextPtr := nextPtr + 1;
    }

    method WhTranscribeWav(wav: Option<Utf16>, hasOut: bool, faults: TranscribeFaults) returns (rc: int, out: Option<Ptr>)
      requires Valid(State())
      modifies this
      ensures (State(), rc, out) == TranscribeStep(old(State()), wav, hasOut, faults)
    {
      if !hasOut {
        return -1, None;
      }
      out := Some(0);
      if wav.None? || !initialized {
        return -2, out;
      }
      if faults.throws {
        return -4, out;
      }
      var path := wav.value;
      var lower := new u16[|path|](i requires 0 <= i < |path| => path[i]);
      assert lower[..] == path;
      LowerInPlace(lower);
      var result := if Text.IndexFrom(lower[..], HelloWav, 0).Some? then Hello else Unavailable;
      assert result == Transcript(path);
      var p := DupWstr(result, faults.mallocFails);
      out := Some(p);
      rc := if p != 0 then 0 else -3;
    }

    method WhFree(p: Ptr)
      requires p == 0 || p in heap
      modifies this
      ensures State() == FreeStep(old(State()), p)
    {
      frees := frees + [p];
      if p == 0 {
        return;
      }
      heap := heap - {p};
    }
  }

  /** The `for (auto& ch : lower) ch = towlower(ch)` loop. */
  method LowerInPlace(a: array<u16>)
    modifies a
    ensures a[..] == LowerUnits(old(a[..]))
  {
    for i := 0 to a.Length
      invariant a[..i] == LowerUnits(old(a[..]))[..i]
      invariant a[i..] == old(a[..])[i..]
    {
      a[i] := LowerUnit(a[i]);
    }
  }

  // ---------------------------------------------------------------------------
  // Properties.

  /**
   * wh_init returns -1 for a null path and changes nothing; -3 when the first
   * initialisation throws, leaving the stub uninitialised; 0 otherwise. The
   * -2 code is unreachable.
   */
  lemma InitCodes(st: StubState, path: Option<Utf16>, throws: bool)
    requires Valid(st)
    ensures var (st', rc) := InitStep(st, path, throws);
      && Valid(st')
      && (rc == -1 <==> path.None?)
      && (rc == -3 <==> path.Some? && !st.initialized && throws)
      && (rc == 0 <==> path.Some? && (st.initialized || !throws))
      && (rc != 0 ==> st' == st)
      && (rc == 0 ==> st'.initialized && st'.modelPath == if st.initialized then st.modelPath else path.value)
  {
  }

  /** Once initialised, every later wh_init returns 0 and keeps the first path. */
  lemma InitOnce(st: StubState, first: Utf16, later: Option<Utf16>, throws: bool)
    requires Valid(st) && !st.initialized
    ensures var (st1, rc1) := InitStep(st, Some(first), false);
      && rc1 == 0 && st1.modelPath == first
      && (later.Some? ==> InitStep(st1, later, throws) == (st1, 0))
  {
  }

  /**
   * wh_transcribe_wav: -1 without an out slot; otherwise the slot is null on
   * every failure (-2 for a null path or no initialisation, -4 for an
   * exception, -3 when malloc fails); on success it holds a fresh pointer to
   * the transcript and its terminator, and nothing else on the heap changes.
   */
  lemma TranscribeCodes(st: StubState, wav: Option<Utf16>, hasOut: bool, faults: TranscribeFaults)
    requires Valid(st)
    ensures var (st', rc, out) := TranscribeStep(st, wav, hasOut, faults);
      && Valid(st') && st'.frees == st.frees && st'.modelPath == st.modelPath && st'.initialized == st.initialized
      && (rc == -1 <==> !hasOut) && (out.None? <==> !hasOut)
      && (hasOut && rc != 0 ==> out == Some(0) && st' == st)
      && (rc == -2 <==> hasOut && (wav.None? || !st.initialized))
      && (rc == 0 <==> hasOut && wav.Some? && st.initialized && !faults.throws && !faults.mallocFails)
      && (rc == 0 ==>
            && out.value != 0 && out.value !in st.heap
            && st'.heap == st.heap[out.value := Transcript(wav.value) + [0]])
  {
  }

  lemma LowerUnitsConcat(a: Utf16, b: Utf16)
    ensures LowerUnits(a + b) == LowerUnits(a) + LowerUnits(b)
  {
  }

  /** Matching ignores ASCII case: lowering the path first changes nothing. */
  lemma TranscriptIgnoresCase(wav: Utf16)
    ensures Transcript(LowerUnits(wav)) == Transcript(wav)
  {
    assert LowerUnits(LowerUnits(wav)) == LowerUnits(wav);
  }

  /** L"hello.wav" is the UTF-16 encoding of "hello.wav". */
  lemma HelloWavLiteral()
    ensures HelloWav == Utf16Of("hello.wav")
  {
    assert "hello" + ".wav" == "hello.wav";
    Utf16OfConcat("hello", ".wav");
    HelloLiteral();
    assert Utf16Of(".wav") == [0x2E, 0x77, 0x61, 0x76];
    assert HelloWav == Hello + [0x2E, 0x77, 0x61, 0x76];
  }

  /** L"hello.wav" is already lower case. */
  lemma HelloWavLower()
    ensures LowerUnits(HelloWav) == HelloWav
  {
    forall i | 0 <= i < |HelloWav|
      ensures LowerUnits(HelloWav)[i] == HelloWav[i]
    {
      assert !(0x41 <= HelloWav[i] <= 0x5A);
    }
  }

  /** L"hello" is the UTF-16 encoding of "hello". */
  lemma HelloLiteral()
    ensures Hello == Utf16Of("hello")
  {
  }

  /** Any path with hello.wav in it, in any ASCII case, gives "hello". */
  lemma HelloPaths(pre: Utf16, name: Utf16, post: Utf16)
    requires LowerUnits(name) == HelloWav
    ensures Transcript(pre + name + post) == Hello
  {
    LowerUnitsConcat(pre + name, post);
    LowerUnitsConcat(pre, name);
    Text.ContainsInfix(LowerUnits(pre), HelloWav, LowerUnits(post));
  }

  /** A path string containing "hello.wav" gives "hello" once marshalled to UTF-16. */
  lemma HelloPathStrings(pre: string, post: string)
    ensures Transcript(Utf16Of(pre + "hello.wav" + post)) == Utf16Of("hello")
  {
    Utf16OfConcat(pre + "hello.wav", post);
    Utf16OfConcat(pre, "hello.wav");
    HelloWavLiteral();
    HelloWavLower();
    HelloLiteral();
    HelloPaths(Utf16Of(pre), HelloWav, Utf16Of(post));
  }

  lemma {:induction false} ReadBack(s: Utf16)
    requires forall i | 0 <= i < |s| :: s[i] != 0
    ensures ReadUntilNul(s + [0]) == s
  {
    if s != [] {
      assert (s + [0])[1..] == s[1..] + [0];
      ReadBack(s[1..]);
    }
  }

  /** Reading a transcript block back up to its terminator yields the whole transcript. */
  lemma TranscriptReadsBack(wav: Utf16)
    ensures ReadUntilNul(Transcript(wav) + [0]) == Transcript(wav)
  {
    ReadBack(Transcript(wav));
  }
}
