/**
 * Args: the command line. `--e2e-wav <path>` sets the end-to-end WAV path;
 * every other argument is ignored.
 */
module CommandLine {
  import opened Wrappers
  import Text

  const E2eWavFlag: string := "--e2e-wav"

  /**
   * The value the parse ends with, scanning from the front: the flag with an
   * argument after it sets the value to that argument and both are consumed;
   * anything else is skipped.
   */
  function Scan(args: seq<string>, current: Option<string>): Option<string>
    decreases |args|
  {
    if args == [] then current
    else if args[0] == E2eWavFlag && |args| >= 2 then Scan(args[2..], Some(args[1]))
    else Scan(args[1..], current)
  }

  /** The scan ends on the flag with nothing after it: an argument appended next would become its value. */
  predicate Dangling(args: seq<string>)
    decreases |args|
  {
    if args == [] then false
    else if args[0] == E2eWavFlag && |args| >= 2 then Dangling(args[2..])
    else if |args| == 1 then args[0] == E2eWavFlag
    else Dangling(args[1..])
  }

  class Args {
    var e2eWavPath: Option<string>

    constructor ()
      ensures e2eWavPath == None
    {
      e2eWavPath := None;
    }

    /** IsE2e: a path is set and is not blank. */
    function IsE2e(): (r: bool)
      reads this
      ensures r <==> e2eWavPath.Some? && exists i | 0 <= i < |e2eWavPath.value| :: !Text.IsWhiteSpace(e2eWavPath.value[i])
    {
      !Text.IsNullOrWhiteSpace(e2eWavPath)
    }

    /** Args.Parse. */
    static method Parse(args: seq<string>) returns (a: Args)
      ensures fresh(a)
      ensures a.e2eWavPath == Scan(args, None)
    {
      a := new Args();
      var i := 0;
      while i < |args|
        invariant 0 <= i <= |args|
        invariant Scan(args, None) == Scan(args[i..], a.e2eWavPath)
        decreases |args| - i
      {
        var arg := args[i];
        if arg == E2eWavFlag && i + 1 < |args| {
          i := i + 1;
          a.e2eWavPath := Some(args[i]);
          assert args[i - 1..][2..] == args[i + 1..];
          i := i + 1;
          continue;
        }
        assert args[i..][1..] == args[i + 1..];
        i := i + 1;
      }
    }
  }

  // ---------------------------------------------------------------------------
  // Properties.

  /** Scanning a prefix that does not dangle, then the rest, is scanning the whole. */
  lemma {:induction false} ScanConcat(a: seq<string>, b: seq<string>, current: Option<string>)
    requires !Dangling(a)
    ensures Scan(a + b, current) == Scan(b, Scan(a, current))
    decreases |a|
  {
    if a == [] {
      assert a + b == b;
    } else if a[0] == E2eWavFlag && |a| >= 2 {
      assert (a + b)[2..] == a[2..] + b;
      ScanConcat(a[2..], b, Some(a[1]));
    } else {
      assert (a + b)[1..] == a[1..] + b;
      ScanConcat(a[1..], b, current);
    }
  }

  /** Without the flag the path stays null. */
  lemma {:induction false} NoFlagMeansNone(args: seq<string>)
    requires forall i | 0 <= i < |args| :: args[i] != E2eWavFlag
    ensures Scan(args, None) == None
    decreases |args|
  {
    if args != [] {
      NoFlagMeansNone(args[1..]);
    }
  }

  /** A complete occurrence appended last wins, and its value is taken verbatim, even when it is the flag itself. */
  lemma LastCompleteOccurrenceWins(args: seq<string>, value: string)
    requires !Dangling(args)
    ensures Scan(args + [E2eWavFlag, value], None) == Some(value)
    ensures !Dangling(args + [E2eWavFlag, value])
  {
    ScanConcat(args, [E2eWavFlag, value], None);
    DanglingConcat(args, [E2eWavFlag, value]);
    assert [E2eWavFlag, value][2..] == [];
  }

  /** A trailing flag with nothing after it changes nothing. */
  lemma TrailingFlagIgnored(args: seq<string>)
    requires !Dangling(args)
    ensures Scan(args + [E2eWavFlag], None) == Scan(args, None)
    ensures Dangling(args + [E2eWavFlag])
  {
    ScanConcat(args, [E2eWavFlag], None);
    DanglingConcat(args, [E2eWavFlag]);
  }

  /** Any other argument is ignored: the match is exact and case-sensitive. */
  lemma OtherArgumentIgnored(args: seq<string>, other: string)
    requires !Dangling(args) && other != E2eWavFlag
    ensures Scan(args + [other], None) == Scan(args, None)
    ensures !Dangling(args + [other])
  {
    ScanConcat(args, [other], None);
    DanglingConcat(args, [other]);
  }

  lemma {:induction false} DanglingConcat(a: seq<string>, b: seq<string>)
    requires !Dangling(a)
    ensures Dangling(a + b) == Dangling(b)
    decreases |a|
  {
    if a == [] {
      assert a + b == b;
    } else if a[0] == E2eWavFlag && |a| >= 2 {
      assert (a + b)[2..] == a[2..] + b;
      DanglingConcat(a[2..], b);
    } else {
      assert (a + b)[1..] == a[1..] + b;
      DanglingConcat(a[1..], b);
    }
  }

  /** The flag is matched exactly: an upper-case spelling is not the flag. */
  lemma FlagIsCaseSensitive()
    ensures Scan(["--E2E-WAV", "hello.wav"], None) == None
  {
    assert "--E2E-WAV" != E2eWavFlag by { assert "--E2E-WAV"[2] != E2eWavFlag[2]; }
    assert "hello.wav" != E2eWavFlag by { assert "hello.wav"[0] != E2eWavFlag[0]; }
    NoFlagMeansNone(["--E2E-WAV", "hello.wav"]);
  }
}
