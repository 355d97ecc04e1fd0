/**
 * SendInputTextInjector: typing text into the focused window by synthesising
 * keyboard events. Every UTF-16 code unit becomes one Unicode-mode key-down
 * and key-up pair; the whole text goes to the operating system in one
 * SendInput batch, and replacing the last text first sends a batch of
 * backspaces.
 */
module TextInjection {
  import opened Wrappers
  import opened Unicode
  import Host

  const INPUT_KEYBOARD: nat := 1
  const KEYEVENTF_KEYUP: bv32 := 0x0002
  const KEYEVENTF_UNICODE: bv32 := 0x0004
  const VK_BACK: u16 := 0x08

  /**
   * One INPUT record of keyboard type: the KEYBDINPUT fields the injector sets.
   * Its time and dwExtraInfo are always zero and are not represented.
   */
  datatype Input = KeyboardInput(inputType: nat, wVk: u16, wScan: u16, dwFlags: bv32)

  function DownUnicode(codeUnit: u16): Input {
    KeyboardInput(INPUT_KEYBOARD, 0, codeUnit, KEYEVENTF_UNICODE)
  }

  function UpUnicode(codeUnit: u16): Input {
    KeyboardInput(INPUT_KEYBOARD, 0, codeUnit, KEYEVENTF_UNICODE | KEYEVENTF_KEYUP)
  }

  function DownVk(vk: u16): Input {
    KeyboardInput(INPUT_KEYBOARD, vk, 0, 0)
  }

  function UpVk(vk: u16): Input {
    KeyboardInput(INPUT_KEYBOARD, vk, 0, KEYEVENTF_KEYUP)
  }

  predicate IsKeyUp(e: Input) { e.dwFlags & KEYEVENTF_KEYUP != 0 }

  predicate IsUnicodeMode(e: Input) { e.dwFlags & KEYEVENTF_UNICODE != 0 }

  /** `text ?? string.Empty`. */
  function TextOrEmpty(text: Option<Utf16>): Utf16 {
    if text.Some? then text.value else []
  }

  /** The events Insert adds for one rune: the value itself when it fits a code unit, otherwise its surrogate pair. */
  function RuneEvents(v: int): seq<Input>
    requires IsScalar(v)
  {
    if v <= 0xFFFF then [DownUnicode(v as u16), UpUnicode(v as u16)]
    else
      var pair := RuneUnits(v);
      [DownUnicode(pair[0]), UpUnicode(pair[0]), DownUnicode(pair[1]), UpUnicode(pair[1])]
  }

  /** The batch Insert builds: rune by rune, in the order String.EnumerateRunes yields them. */
  function InsertEvents(s: Utf16): seq<Input>
    decreases |s|
  {
    if s == [] then [] else RuneEvents(FirstRune(s).0) + InsertEvents(s[FirstRune(s).1..])
  }

  /** Reference sequence: one Unicode-mode down/up pair per code unit, in order. */
  function Keystrokes(t: Utf16): seq<Input> {
    if t == [] then [] else [DownUnicode(t[0]), UpUnicode(t[0])] + Keystrokes(t[1..])
  }

  /** n virtual-key backspace presses, each a down/up pair. */
  function Backspaces(n: nat): seq<Input> {
    if n == 0 then [] else Backspaces(n - 1) + [DownVk(VK_BACK), UpVk(VK_BACK)]
  }

  /** The code units that the Unicode-mode key-down events carry, in order. */
  function DownUnits(events: seq<Input>): Utf16 {
    if events == [] then []
    else (if IsUnicodeMode(events[0]) && !IsKeyUp(events[0]) then [events[0].wScan] else [])
         + DownUnits(events[1..])
  }

  // ---------------------------------------------------------------------------
  // The injector's observable state and the effect of each operation on it.

  /** Every batch submitted to SendInput so far, and the recorded last count. */
  datatype InjectorState = InjectorState(batches: seq<seq<Input>>, lastCount: int)

  /** The operating system's answer to SendInput: how many events of the latest batch it accepted, given every batch so far. */
  type Acceptance = seq<seq<Input>> -> nat

  /** Every batch is accepted in full. */
  ghost predicate AcceptsAll(answer: Acceptance) {
    forall h: seq<seq<Input>> | h != [] :: answer(h) == |h[|h| - 1]|
  }

  /** Insert(text) as a state transition. */
  function InsertStep(st: InjectorState, answer: Acceptance, text: Option<Utf16>): (InjectorState, Outcome<Host.Failure>) {
    var s := TextOrEmpty(text);
    if |s| == 0 then (st.(lastCount := 0), Pass)
    else
      var batch := InsertEvents(s);
      var batches := st.batches + [batch];
      var sent := answer(batches);
      if sent != |batch| then (st.(batches := batches), Fail(Host.SendInputFailure(sent, |batch|)))
      else (InjectorState(batches, |s|), Pass)
  }

  /** ReplaceLast(charCount, text) as a state transition. */
  function ReplaceLastStep(st: InjectorState, answer: Acceptance, charCount: int, text: Option<Utf16>): (InjectorState, Outcome<Host.Failure>) {
    if charCount > 0 then
      var batch := Backspaces(charCount);
      var batches := st.batches + [batch];
      var sent := answer(batches);
      if sent != |batch| then (st.(batches := batches), Fail(Host.BackspaceFailure(sent, |batch|)))
      else InsertStep(st.(batches := batches), answer, text)
    else InsertStep(st, answer, text)
  }

  // ---------------------------------------------------------------------------
  // The operating system's input queue and the injector.

  /** The SendInput entry point: it records each batch and answers with the count its acceptance function gives. */
  class InputQueue {
    var batches: seq<seq<Input>>
    const answer: Acceptance

    constructor (answer: Acceptance)
      ensures batches == [] && this.answer == answer
    {
      batches := [];
      this.answer := answer;
    }

    method SendInput(batch: seq<Input>) returns (sent: nat)
      modifies this
      ensures batches == old(batches) + [batch]
      ensures sent == answer(batches)
    {
      batches := batches + [batch];
      sent := answer(batches);
    }
  }

  /** The loop in Insert that walks the runes of s and collects their events. */
  method EncodeBatch(s: Utf16) returns (list: seq<Input>)
    ensures list == InsertEvents(s)
  {
    list := [];
    var i := 0;
    while i < |s|
      invariant 0 <= i <= |s|
      invariant list + InsertEvents(s[i..]) == InsertEvents(s)
      decreases |s| - i
    {
      var (v, n) := FirstRune(s[i..]);
      InsertEventsStep(s, i);
      ghost var done := list;
      list := AppendRune(list, v);
      LoopStep(InsertEvents(s), done, InsertEvents(s[i..]), RuneEvents(v), InsertEvents(s[i + n..]), list);
      i := i + n;
    }
    assert s[|s|..] == [];
  }

  /** One iteration of that loop: a code unit's down/up pair, or the down/up pairs of both surrogates. */
  method AppendRune(list: seq<Input>, v: int) returns (list': seq<Input>)
    requires IsScalar(v)
    ensures list' == list + RuneEvents(v)
  {
    if v <= 0xFFFF {
      var cu := v as u16;
      list' := list + [DownUnicode(cu), UpUnicode(cu)];
    } else {
      var pair := RuneUnits(v);
      list' := list + [DownUnicode(pair[0]), UpUnicode(pair[0]), DownUnicode(pair[1]), UpUnicode(pair[1])];
    }
  }

  class SendInputTextInjector {
    var lastCount: int
    const os: InputQueue

    function State(): InjectorState
      reads this, os
    {
      InjectorState(os.batches, lastCount)
    }

    constructor (os: InputQueue)
      ensures this.os == os && lastCount == 0
    {
      this.os := os;
      lastCount := 0;
    }

    /** Types text at the caret of the focused control. */
    method Insert(text: Option<Utf16>) returns (r: Outcome<Host.Failure>)
      modifies this, os
      ensures (State(), r) == InsertStep(old(State()), os.answer, text)
    {
      var s := TextOrEmpty(text);
      if |s| > 0 {
        var list := EncodeBatch(s);
        var sent := os.SendInput(list);
        if sent != |list| {
          return Fail(Host.SendInputFailure(sent, |list|));
        }
      }
      lastCount := |s|;
      r := Pass;
    }

    /** Deletes charCount characters before the caret with backspaces, then types text. */
    method ReplaceLast(charCount: int, text: Option<Utf16>) returns (r: Outcome<Host.Failure>)
      modifies this, os
      ensures (State(), r) == ReplaceLastStep(old(State()), os.answer, charCount, text)
    {
      if charCount > 0 {
        var backs: seq<Input> := [];
        for i := 0 to charCount
          invariant backs == Backspaces(i)
        {
          backs := backs + [DownVk(VK_BACK), UpVk(VK_BACK)];
        }
        var sent := os.SendInput(backs);
        if sent != |backs| {
          return Fail(Host.BackspaceFailure(sent, |backs|));
        }
      }
      r := Insert(text);
    }
  }

  // ---------------------------------------------------------------------------
  // Properties of the event sequences.

  /** The loop invariant of EncodeBatch survives appending the events of one rune. */
  lemma LoopStep(total: seq<Input>, done: seq<Input>, here: seq<Input>, rune: seq<Input>, after: seq<Input>, list: seq<Input>)
    requires done + here == total && here == rune + after && list == done + rune
    ensures list + after == total
  {
    Associative(done, rune, after);
  }

  lemma Associative(a: seq<Input>, b: seq<Input>, c: seq<Input>)
    ensures a + (b + c) == (a + b) + c
  {
  }

  /** One step of Insert's loop: the events from offset i are the first rune's, then the rest's. */
  lemma InsertEventsStep(s: Utf16, i: nat)
    requires i < |s|
    ensures var (v, n) := FirstRune(s[i..]);
      i + n <= |s| && InsertEvents(s[i..]) == RuneEvents(v) + InsertEvents(s[i + n..])
  {
    var n := FirstRune(s[i..]).1;
    assert s[i..][n..] == s[i + n..];
  }

  lemma {:induction false} KeystrokesConcat(a: Utf16, b: Utf16)
    ensures Keystrokes(a + b) == Keystrokes(a) + Keystrokes(b)
  {
    if a == [] {
      assert a + b == b;
    } else {
      assert (a + b)[1..] == a[1..] + b;
      KeystrokesConcat(a[1..], b);
    }
  }

  /** Event 2k is the key-down and event 2k+1 the key-up of code unit k. */
  lemma {:induction false} KeystrokesAt(t: Utf16)
    ensures |Keystrokes(t)| == 2 * |t|
    ensures forall k | 0 <= k < |t| ::
      Keystrokes(t)[2 * k] == DownUnicode(t[k]) && Keystrokes(t)[2 * k + 1] == UpUnicode(t[k])
  {
    if t != [] {
      var rest := t[1..];
      var tail := Keystrokes(rest);
      KeystrokesAt(rest);
      var all := [DownUnicode(t[0]), UpUnicode(t[0])] + tail;
      assert Keystrokes(t) == all;
      forall k | 1 <= k < |t|
        ensures all[2 * k] == DownUnicode(t[k]) && all[2 * k + 1] == UpUnicode(t[k])
      {
        var j := k - 1;
        assert 2 * k == 2 * j + 2;
        assert rest[j] == t[k];
        assert all[2 * k] == tail[2 * j];
        assert all[2 * k + 1] == tail[2 * j + 1];
      }
    }
  }

  /** Insert's batch is one down/up pair per code unit, with unpaired surrogates replaced by U+FFFD. */
  lemma {:induction false} InsertEventsAreKeystrokes(s: Utf16)
    ensures InsertEvents(s) == Keystrokes(Scrubbed(s))
    decreases |s|
  {
    if s != [] {
      var (v, n) := FirstRune(s);
      var u := RuneUnits(v);
      ScrubbedByRunes(s);
      assert RuneEvents(v) == Keystrokes(u) by {
        if v <= 0xFFFF {
          assert Keystrokes(u) == [DownUnicode(u[0]), UpUnicode(u[0])] + Keystrokes([]);
        } else {
          assert Keystrokes(u[1..]) == [DownUnicode(u[1]), UpUnicode(u[1])] + Keystrokes([]);
        }
      }
      InsertEventsAreKeystrokes(s[n..]);
      KeystrokesConcat(u, Scrubbed(s[n..]));
    }
  }

  /** There are always exactly two events per UTF-16 code unit. */
  lemma InsertEventCount(s: Utf16)
    ensures |InsertEvents(s)| == 2 * |s|
  {
    InsertEventsAreKeystrokes(s);
    KeystrokesAt(Scrubbed(s));
  }

  lemma UnicodeFlags(u: u16)
    ensures IsUnicodeMode(DownUnicode(u)) && !IsKeyUp(DownUnicode(u))
    ensures IsUnicodeMode(UpUnicode(u)) && IsKeyUp(UpUnicode(u))
  {
  }

  /** Every event is a Unicode-mode keyboard event with wVk = 0; even positions are key-downs and odd positions key-ups of the same unit. */
  lemma InsertEventShapes(s: Utf16)
    ensures |InsertEvents(s)| == 2 * |s|
    ensures forall i | 0 <= i < |InsertEvents(s)| ::
      var e := InsertEvents(s)[i];
      && e.inputType == INPUT_KEYBOARD && e.wVk == 0 && IsUnicodeMode(e)
      && (IsKeyUp(e) <==> i % 2 == 1)
      && e.wScan == Scrubbed(s)[i / 2]
  {
    var t := Scrubbed(s);
    var events := InsertEvents(s);
    InsertEventsAreKeystrokes(s);
    KeystrokesAt(t);
    forall i | 0 <= i < |events|
      ensures var e := events[i];
        && e.inputType == INPUT_KEYBOARD && e.wVk == 0 && IsUnicodeMode(e)
        && (IsKeyUp(e) <==> i % 2 == 1)
        && e.wScan == t[i / 2]
    {
      var k := i / 2;
      UnicodeFlags(t[k]);
      if i % 2 == 0 {
        assert i == 2 * k;
        assert events[i] == DownUnicode(t[k]);
      } else {
        assert i == 2 * k + 1;
        assert events[i] == UpUnicode(t[k]);
      }
    }
  }

  lemma {:induction false} DownUnitsOfKeystrokes(t: Utf16)
    ensures DownUnits(Keystrokes(t)) == t
  {
    if t != [] {
      var e := Keystrokes(t);
      assert e[2..] == Keystrokes(t[1..]);
      assert DownUnits(e[1..]) == DownUnits(e[2..]);
      DownUnitsOfKeystrokes(t[1..]);
    }
  }

  /**
   * For text that is well formed, the key-down events carry exactly its UTF-16
   * code units, in order, and there are two events per code unit.
   */
  lemma WellFormedRoundTrip(s: Utf16)
    requires WellFormed(s)
    ensures InsertEvents(s) == Keystrokes(s)
    ensures DownUnits(InsertEvents(s)) == s && |InsertEvents(s)| == 2 * |s|
  {
    ScrubbedWellFormed(s);
    InsertEventsAreKeystrokes(s);
    DownUnitsOfKeystrokes(s);
    KeystrokesAt(s);
  }

  /** Pairing the key-down events of typed text gives back the UTF-16 encoding of that text, surrogate pairs included. */
  lemma SurrogateRoundTrip(str: string)
    ensures DownUnits(InsertEvents(Utf16Of(str))) == Utf16Of(str)
  {
    Utf16OfWellFormed(str);
    WellFormedRoundTrip(Utf16Of(str));
  }

  /** A character up to U+FFFF gives one down/up pair; a supplementary character gives the high surrogate's pair, then the low surrogate's. */
  lemma CharacterEvents(c: char)
    ensures c as int <= 0xFFFF ==> InsertEvents(Utf16Of([c])) == [DownUnicode(c as int as u16), UpUnicode(c as int as u16)]
    ensures c as int > 0xFFFF ==>
      var hi, lo := HighSurrogateOf(c as int), LowSurrogateOf(c as int);
      && IsHighSurrogate(hi) && IsLowSurrogate(lo) && PairValue(hi, lo) == c as int
      && InsertEvents(Utf16Of([c])) == [DownUnicode(hi), UpUnicode(hi), DownUnicode(lo), UpUnicode(lo)]
  {
    var u := Utf16Of([c]);
    assert [c][1..] == [];
    assert u == RuneUnits(c as int) + Utf16Of([]);
    Utf16OfWellFormed([c]);
    WellFormedRoundTrip(u);
    if c as int > 0xFFFF {
      ScalarRoundTrip(c as int);
      assert Keystrokes(u) == [DownUnicode(u[0]), UpUnicode(u[0])] + ([DownUnicode(u[1]), UpUnicode(u[1])] + Keystrokes([]));
    } else {
      assert Keystrokes(u) == [DownUnicode(u[0]), UpUnicode(u[0])] + Keystrokes([]);
    }
  }

  /** The backspace batch: n pairs of VK_BACK down then up, with wScan = 0 and no Unicode flag. */
  lemma {:induction false} BackspacesShape(n: nat)
    ensures |Backspaces(n)| == 2 * n
    ensures forall k | 0 <= k < n :: Backspaces(n)[2 * k] == DownVk(VK_BACK) && Backspaces(n)[2 * k + 1] == UpVk(VK_BACK)
    ensures forall i | 0 <= i < 2 * n :: Backspaces(n)[i].wScan == 0 && !IsUnicodeMode(Backspaces(n)[i]) && (IsKeyUp(Backspaces(n)[i]) <==> i % 2 == 1)
  {
    if n > 0 {
      BackspacesShape(n - 1);
      forall i | 0 <= i < 2 * n
        ensures Backspaces(n)[i].wScan == 0 && !IsUnicodeMode(Backspaces(n)[i]) && (IsKeyUp(Backspaces(n)[i]) <==> i % 2 == 1)
      {
        var k := i / 2;
        assert i == 2 * k || i == 2 * k + 1;
      }
    }
  }

  // ---------------------------------------------------------------------------
  // Properties of the operations.

  /**
   * Insert submits nothing for null or empty text and records 0; otherwise it
   * submits one batch of two events per code unit, fails exactly when the
   * system accepts fewer, and records the UTF-16 length only on success.
   */
  lemma InsertContract(st: InjectorState, answer: Acceptance, text: Option<Utf16>)
    ensures var s := TextOrEmpty(text);
      var (st', r) := InsertStep(st, answer, text);
      && (s == [] ==> st'.batches == st.batches && st'.lastCount == 0 && r == Pass)
      && (s != [] ==> st'.batches == st.batches + [Keystrokes(Scrubbed(s))])
      && (s != [] ==> (r == Pass <==> answer(st'.batches) == 2 * |s|))
      && (r.Fail? ==> r.error == Host.SendInputFailure(answer(st'.batches), 2 * |s|) && st'.lastCount == st.lastCount)
      && (r.Pass? ==> st'.lastCount == |s|)
  {
    var s := TextOrEmpty(text);
    InsertEventCount(s);
    InsertEventsAreKeystrokes(s);
  }

  /**
   * ReplaceLast with a positive count submits its backspace batch first; if
   * that batch is not accepted in full it fails before any insertion event,
   * otherwise it behaves as Insert. A count of zero or less is Insert.
   */
  lemma ReplaceLastContract(st: InjectorState, answer: Acceptance, n: int, text: Option<Utf16>)
    ensures n <= 0 ==> ReplaceLastStep(st, answer, n, text) == InsertStep(st, answer, text)
    ensures n > 0 ==>
      var backs := st.batches + [Backspaces(n)];
      var (st', r) := ReplaceLastStep(st, answer, n, text);
      && |Backspaces(n)| == 2 * n
      && |st'.batches| > |st.batches| && st'.batches[..|st.batches| + 1] == backs
      && (answer(backs) != 2 * n ==> st' == st.(batches := backs) && r == Fail(Host.BackspaceFailure(answer(backs), 2 * n)))
      && (answer(backs) == 2 * n ==> (st', r) == InsertStep(st.(batches := backs), answer, text))
  {
    if n > 0 {
      BackspacesShape(n);
      var backs := st.batches + [Backspaces(n)];
      var (st', r) := ReplaceLastStep(st, answer, n, text);
      InsertContract(st.(batches := backs), answer, text);
      if answer(backs) == 2 * n && TextOrEmpty(text) != [] {
        assert st'.batches[..|st.batches| + 1] == backs;
      }
    }
  }

  /**
   * Replacing with an accepting system: exactly n backspace pairs, then the
   * keystrokes of the new text, with nothing in between; the recorded count is
   * the new text's length.
   */
  lemma ReplaceCorrectness(st: InjectorState, answer: Acceptance, n: nat, s: Utf16)
    requires AcceptsAll(answer) && n > 0 && WellFormed(s)
    ensures var (st', r) := ReplaceLastStep(st, answer, n, Some(s));
      && r == Pass && st'.lastCount == |s|
      && st'.batches == st.batches + [Backspaces(n)] + (if s == [] then [] else [Keystrokes(s)])
  {
    var backs := st.batches + [Backspaces(n)];
    assert answer(backs) == |Backspaces(n)|;
    ReplaceLastContract(st, answer, n, Some(s));
    WellFormedRoundTrip(s);
    if s != [] {
      assert answer(backs + [InsertEvents(s)]) == |InsertEvents(s)|;
    }
  }
}
