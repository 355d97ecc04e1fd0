/**
 * FileLogger: one text line per log call, "<timestamp> <LEVEL> <event>"
 * followed by ` key="value"` for each field in argument order. Nothing is
 * escaped. The clock is a parameter: the timestamp of the k-th line of the
 * file (counting from 0) is clock(k).
 */
module Logging {
  import opened Wrappers
  import Text

  datatype Level = Info | Warn | Error

  function LevelName(level: Level): string {
    match level
    case Info => "INFO"
    case Warn => "WARN"
    case Error => "ERROR"
  }

  /** A field value: StringBuilder.Append(object) writes a string as is, a number in decimal and null as nothing. */
  datatype Value = Str(s: string) | Num(n: int) | Null

  function Render(v: Value): string {
    match v
    case Str(s) => s
    case Num(n) => Text.IntToString(n)
    case Null => ""
  }

  datatype Field = Field(key: string, value: Value)

  function Segment(f: Field): string {
    " " + f.key + "=\"" + Render(f.value) + "\""
  }

  function Segments(fields: seq<Field>): string {
    if fields == [] then "" else Segment(fields[0]) + Segments(fields[1..])
  }

  /** The line FileLogger.Write emits for one call (without the line terminator). */
  function FormatLine(ts: string, level: Level, evt: string, fields: seq<Field>): string {
    ts + " " + LevelName(level) + " " + evt + Segments(fields)
  }

  /** One call to Info, Warn or Error, as a caller sees it. */
  datatype Entry = Entry(level: Level, evt: string, fields: seq<Field>)

  /** The lines a file opened with `start` lines holds after the given calls: the k-th call is on line start + k. */
  function Formatted(clock: nat -> string, start: nat, entries: seq<Entry>): (lines: seq<string>)
    ensures |lines| == |entries|
  {
    if entries == [] then []
    else
      var e := entries[|entries| - 1];
      Formatted(clock, start, entries[..|entries| - 1]) + [FormatLine(clock(start + |entries| - 1), e.level, e.evt, e.fields)]
  }

  /** One more call adds its line at the end. */
  lemma FormattedSnoc(clock: nat -> string, start: nat, entries: seq<Entry>, level: Level, evt: string, fields: seq<Field>)
    ensures Formatted(clock, start, entries + [Entry(level, evt, fields)])
      == Formatted(clock, start, entries) + [FormatLine(clock(start + |entries|), level, evt, fields)]
  {
    assert (entries + [Entry(level, evt, fields)])[..|entries|] == entries;
  }

  lemma SliceSnoc<T>(xs: seq<T>, start: nat, x: T)
    requires start <= |xs|
    ensures (xs + [x])[start..] == xs[start..] + [x]
  {
  }

  /** Writing the line of one more call keeps the file in step with the calls. */
  lemma AppendLine(clock: nat -> string, start: nat, lines: seq<string>, entries: seq<Entry>, e: Entry, line: string)
    requires |lines| >= start && lines[start..] == Formatted(clock, start, entries)
    requires line == FormatLine(clock(|lines|), e.level, e.evt, e.fields)
    ensures (lines + [line])[start..] == Formatted(clock, start, entries + [e])
  {
    assert |lines| == start + |entries|;
    FormattedSnoc(clock, start, entries, e.level, e.evt, e.fields);
    SliceSnoc(lines, start, line);
  }

  /** Each call has its own line, in call order, stamped with the clock reading for that line. */
  lemma {:induction false} FormattedLine(clock: nat -> string, start: nat, entries: seq<Entry>, k: nat)
    requires k < |entries|
    ensures Formatted(clock, start, entries)[k] == FormatLine(clock(start + k), entries[k].level, entries[k].evt, entries[k].fields)
  {
    var init := entries[..|entries| - 1];
    if k < |init| {
      FormattedLine(clock, start, init, k);
      assert entries[k] == init[k];
    }
  }

  /** Builds the line the way Write does: the header, then one segment per field in order. */
  method Compose(ts: string, level: Level, evt: string, fields: seq<Field>) returns (line: string)
    ensures line == FormatLine(ts, level, evt, fields)
  {
    line := ts + " " + LevelName(level) + " " + evt;
    for i := 0 to |fields|
      invariant line == FormatLine(ts, level, evt, fields[..i])
    {
      FieldsInOrder(ts, level, evt, fields[..i], fields[i]);
      assert fields[..i + 1] == fields[..i] + [fields[i]];
      line := line + " " + fields[i].key + "=\"" + Render(fields[i].value) + "\"";
    }
    assert fields[..|fields|] == fields;
  }

  class FileLogger {
    const path: string
    /** The timestamp written on the k-th line of the file. */
    const clock: nat -> string
    /** The number of lines the file held before it was opened for appending. */
    const start: nat
    var lines: seq<string>
    var entries: seq<Entry>

    /** Every line written since opening is the formatted entry, stamped with its position's time. */
    ghost predicate Valid()
      reads this
    {
      |lines| >= start && lines[start..] == Formatted(clock, start, entries)
    }

    /** Opens the file for appending and writes the `log.open` record. */
    constructor (path: string, existing: seq<string>, clock: nat -> string)
      ensures Valid()
      ensures this.path == path && this.clock == clock && start == |existing|
      ensures entries == [Entry(Level.Info, "log.open", [Field("path", Str(path))])]
      ensures lines == existing + [FormatLine(clock(|existing|), Level.Info, "log.open", [Field("path", Str(path))])]
    {
      this.path := path;
      this.clock := clock;
      start := |existing|;
      lines := existing;
      entries := [];
      new;
      Info("log.open", [Field("path", Str(path))]);
    }

    method Write(level: Level, evt: string, fields: seq<Field>)
      requires Valid()
      modifies this
      ensures Valid()
      ensures entries == old(entries) + [Entry(level, evt, fields)]
      ensures lines == old(lines) + [FormatLine(clock(|old(lines)|), level, evt, fields)]
    {
      var ts := clock(|lines|);
      var line := Compose(ts, level, evt, fields);
      AppendLine(clock, start, lines, entries, Entry(level, evt, fields), line);
      lines := lines + [line];
      entries := entries + [Entry(level, evt, fields)];
    }

    method Info(evt: string, fields: seq<Field>)
      requires Valid()
      modifies this
      ensures Valid()
      ensures entries == old(entries) + [Entry(Level.Info, evt, fields)]
      ensures lines[..start] == old(lines)[..start]
    {
      Write(Level.Info, evt, fields);
    }

    method Warn(evt: string, fields: seq<Field>)
      requires Valid()
      modifies this
      ensures Valid()
      ensures entries == old(entries) + [Entry(Level.Warn, evt, fields)]
      ensures lines[..start] == old(lines)[..start]
    {
      Write(Level.Warn, evt, fields);
    }

    method Error(evt: string, fields: seq<Field>)
      requires Valid()
      modifies this
      ensures Valid()
      ensures entries == old(entries) + [Entry(Level.Error, evt, fields)]
      ensures lines[..start] == old(lines)[..start]
    {
      Write(Level.Error, evt, fields);
    }
  }

  // ---------------------------------------------------------------------------
  // Reading a line back.

  /** The first position at or after i holding c, or |s| when there is none. */
  function Find(s: string, c: char, i: nat): (r: nat)
    requires i <= |s|
    decreases |s| - i
    ensures i <= r <= |s|
    ensures r < |s| ==> s[r] == c
    ensures forall j | i <= j < r :: s[j] != c
  {
    if i == |s| then |s| else if s[i] == c then i else Find(s, c, i + 1)
  }

  predicate Free(s: string, c: char) { forall i | 0 <= i < |s| :: s[i] != c }

  function ParseLevel(name: string): Option<Level> {
    if name == "INFO" then Some(Level.Info)
    else if name == "WARN" then Some(Level.Warn)
    else if name == "ERROR" then Some(Level.Error)
    else None
  }

  /** Splits a run of ` key="value"` segments: a key ends at the first '=', a value at the next '"'. */
  function ParseFields(s: string): Option<seq<(string, string)>>
    decreases |s|
  {
    if s == "" then Some([])
    else if s[0] != ' ' then None
    else
      var e := Find(s, '=', 1);
      if e + 1 >= |s| || s[e + 1] != '"' then None
      else
        var q := Find(s, '"', e + 2);
        if q == |s| then None
        else match ParseFields(s[q + 1..])
          case Some(rest) => Some([(s[1..e], s[e + 2..q])] + rest)
          case None => None
  }

  datatype Record = Record(ts: string, level: Level, evt: string, fields: seq<(string, string)>)

  /** Reads a line back: the timestamp and level end at a space, the event name at the next space or the end. */
  function ParseLine(line: string): Option<Record> {
    var a := Find(line, ' ', 0);
    if a == |line| then None
    else
      var b := Find(line, ' ', a + 1);
      if b == |line| then None
      else
        var e := Find(line, ' ', b + 1);
        Assemble(line[..a], ParseLevel(line[a + 1..b]), line[b + 1..e], ParseFields(line[e..]))
  }

  /** A record from its parts, when the level name and the fields could be read. */
  function Assemble(ts: string, level: Option<Level>, evt: string, fields: Option<seq<(string, string)>>): Option<Record> {
    if level.Some? && fields.Some? then Some(Record(ts, level.value, evt, fields.value)) else None
  }

  /** A field survives the round trip when its key has no '=' and its rendered value no '"'. */
  predicate Readable(f: Field) { Free(f.key, '=') && Free(Render(f.value), '"') }

  function Rendered(fields: seq<Field>): seq<(string, string)> {
    seq(|fields|, i requires 0 <= i < |fields| => (fields[i].key, Render(fields[i].value)))
  }

  // ---------------------------------------------------------------------------
  // Properties of the format.

  lemma {:induction false} SegmentsConcat(a: seq<Field>, b: seq<Field>)
    ensures Segments(a + b) == Segments(a) + Segments(b)
  {
    if a == [] {
      assert a + b == b;
    } else {
      assert (a + b)[1..] == a[1..] + b;
      SegmentsConcat(a[1..], b);
    }
  }

  /** Fields appear in argument order: one more field appends exactly its segment. */
  lemma FieldsInOrder(ts: string, level: Level, evt: string, fields: seq<Field>, f: Field)
    ensures FormatLine(ts, level, evt, fields + [f]) == FormatLine(ts, level, evt, fields) + " " + f.key + "=\"" + Render(f.value) + "\""
  {
    SegmentsConcat(fields, [f]);
    assert [f][1..] == [];
    var header := ts + " " + LevelName(level) + " " + evt;
    assert header + (Segments(fields) + Segment(f)) == (header + Segments(fields)) + Segment(f);
    AppendSegment(header + Segments(fields), f.key, Render(f.value));
  }

  lemma AppendSegment(x: string, key: string, v: string)
    ensures x + (" " + key + "=\"" + v + "\"") == x + " " + key + "=\"" + v + "\""
  {
  }

  lemma ParseLevelName(level: Level)
    ensures ParseLevel(LevelName(level)) == Some(level)
    ensures Free(LevelName(level), ' ')
  {
  }

  lemma FindAt(s: string, c: char, i: nat, r: nat)
    requires i <= r < |s| && s[r] == c
    requires forall j | i <= j < r :: s[j] != c
    ensures Find(s, c, i) == r
  {
  }

  /** One readable segment in front of tail is split off exactly. */
  lemma SegmentParse(key: string, v: string, tail: string, s: string)
    requires Free(key, '=') && Free(v, '"')
    requires s == [' '] + key + ['=', '"'] + v + ['"'] + tail
    ensures ParseFields(s) == if ParseFields(tail).Some? then Some([(key, v)] + ParseFields(tail).value) else None
  {
    var e := 1 + |key|;
    var q := e + 2 + |v|;
    SegmentLayout(key, v, tail, s);
    SegmentFinds(s, key, v, e, q);
    ParseFieldsAt(s, e, q);
  }

  /** A key free of '=' and a value free of '"' put the first '=' and the next '"' right after them. */
  lemma SegmentFinds(s: string, key: string, v: string, e: nat, q: nat)
    requires Free(key, '=') && Free(v, '"')
    requires e == 1 + |key| && q == e + 2 + |v| && q < |s|
    requires s[e] == '=' && s[q] == '"' && s[1..e] == key && s[e + 2..q] == v
    ensures Find(s, '=', 1) == e && Find(s, '"', e + 2) == q
  {
    FreeSlice(s, 1, key, '=');
    FreeSlice(s, e + 2, v, '"');
    FindAt(s, '=', 1, e);
    FindAt(s, '"', e + 2, q);
  }

  /** Where the parts of a segment sit in the text. */
  lemma SegmentLayout(key: string, v: string, tail: string, s: string)
    requires s == [' '] + key + ['=', '"'] + v + ['"'] + tail
    ensures var e := 1 + |key|; var q := e + 2 + |v|;
      && |s| == q + 1 + |tail|
      && s[0] == ' ' && s[e] == '=' && s[e + 1] == '"' && s[q] == '"'
      && s[1..e] == key && s[e + 2..q] == v && s[q + 1..] == tail
  {
  }

  /** With the '=' and the closing '"' found, ParseFields reads the key and value between them. */
  lemma ParseFieldsAt(s: string, e: nat, q: nat)
    requires 1 <= e && e + 2 <= q < |s| && s[0] == ' ' && s[e + 1] == '"'
    requires Find(s, '=', 1) == e && Find(s, '"', e + 2) == q
    ensures ParseFields(s) == if ParseFields(s[q + 1..]).Some? then Some([(s[1..e], s[e + 2..q])] + ParseFields(s[q + 1..]).value) else None
  {
  }

  lemma {:induction false} FieldsRoundTrip(fields: seq<Field>)
    requires forall k | 0 <= k < |fields| :: Readable(fields[k])
    ensures ParseFields(Segments(fields)) == Some(Rendered(fields))
  {
    if fields == [] {
      assert Rendered(fields) == [];
    } else {
      var f := fields[0];
      assert Readable(f);
      var key, v, tail := f.key, Render(f.value), Segments(fields[1..]);
      SegmentsCons(fields);
      SegmentParse(key, v, tail, Segments(fields));
      FieldsRoundTrip(fields[1..]);
      assert Rendered(fields) == [(key, v)] + Rendered(fields[1..]);
    }
  }

  /** The first segment written out character by character. */
  lemma SegmentsCons(fields: seq<Field>)
    requires fields != []
    ensures Segments(fields) == [' '] + fields[0].key + ['=', '"'] + Render(fields[0].value) + ['"'] + Segments(fields[1..])
  {
  }

  /** The header splits at the first two spaces and the event name ends where the segments begin. */
  lemma HeaderParse(ts: string, name: string, evt: string, rest: string, line: string)
    requires Free(ts, ' ') && Free(name, ' ') && Free(evt, ' ')
    requires rest == [] || rest[0] == ' '
    requires line == ts + [' '] + name + [' '] + evt + rest
    ensures ParseLine(line) == Assemble(ts, ParseLevel(name), evt, ParseFields(rest))
  {
    var a := |ts|;
    var b := a + 1 + |name|;
    var e := b + 1 + |evt|;
    HeaderLayout(ts, name, evt, rest, line);
    HeaderFinds(line, ts, name, evt, a, b, e);
    ParseLineAt(line, a, b, e);
  }

  /** With the three spaces found, ParseLine reads the parts between them. */
  lemma ParseLineAt(line: string, a: nat, b: nat, e: nat)
    requires a < b < e <= |line|
    requires Find(line, ' ', 0) == a && Find(line, ' ', a + 1) == b && Find(line, ' ', b + 1) == e
    ensures ParseLine(line) == Assemble(line[..a], ParseLevel(line[a + 1..b]), line[b + 1..e], ParseFields(line[e..]))
  {
  }

  /** Parts free of spaces put the first three spaces of the line exactly between them. */
  lemma HeaderFinds(line: string, ts: string, name: string, evt: string, a: nat, b: nat, e: nat)
    requires Free(ts, ' ') && Free(name, ' ') && Free(evt, ' ')
    requires a == |ts| && b == a + 1 + |name| && e == b + 1 + |evt| && e <= |line|
    requires line[..a] == ts && line[a + 1..b] == name && line[b + 1..e] == evt
    requires line[a] == ' ' && line[b] == ' ' && (e < |line| ==> line[e] == ' ')
    ensures Find(line, ' ', 0) == a && Find(line, ' ', a + 1) == b && Find(line, ' ', b + 1) == e
  {
    FreeSlice(line, 0, ts, ' ');
    FreeSlice(line, a + 1, name, ' ');
    FreeSlice(line, b + 1, evt, ' ');
    FindAt(line, ' ', 0, a);
    FindAt(line, ' ', a + 1, b);
    if e < |line| {
      FindAt(line, ' ', b + 1, e);
    } else {
      FindNone(line, ' ', b + 1);
    }
  }

  lemma FindNone(s: string, c: char, i: nat)
    requires i <= |s|
    requires forall j | i <= j < |s| :: s[j] != c
    ensures Find(s, c, i) == |s|
  {
  }

  /** Where the parts of a header sit in the line. */
  lemma HeaderLayout(ts: string, name: string, evt: string, rest: string, line: string)
    requires rest == [] || rest[0] == ' '
    requires line == ts + [' '] + name + [' '] + evt + rest
    ensures var a := |ts|; var b := a + 1 + |name|; var e := b + 1 + |evt|;
      && |line| == e + |rest|
      && line[a] == ' ' && line[b] == ' ' && (rest != [] ==> line[e] == ' ')
      && line[..a] == ts && line[a + 1..b] == name && line[b + 1..e] == evt && line[e..] == rest
  {
  }

  /** A part free of c, placed at offset off, leaves those positions of the line free of c. */
  lemma FreeSlice(line: string, off: nat, part: string, c: char)
    requires off + |part| <= |line| && line[off..off + |part|] == part && Free(part, c)
    ensures forall j | off <= j < off + |part| :: line[j] != c
  {
    forall j | off <= j < off + |part|
      ensures line[j] != c
    {
      assert line[j] == part[j - off];
    }
  }

  /**
   * A line reads back as the timestamp, level, event and rendered fields it was
   * written from, provided the timestamp and event name hold no space and every
   * field is readable.
   */
  lemma LineRoundTrip(ts: string, level: Level, evt: string, fields: seq<Field>)
    requires Free(ts, ' ') && Free(evt, ' ')
    requires forall k | 0 <= k < |fields| :: Readable(fields[k])
    ensures ParseLine(FormatLine(ts, level, evt, fields)) == Some(Record(ts, level, evt, Rendered(fields)))
  {
    var rest := Segments(fields);
    ParseLevelName(level);
    FieldsRoundTrip(fields);
    assert FormatLine(ts, level, evt, fields) == ts + [' '] + LevelName(level) + [' '] + evt + rest;
    HeaderParse(ts, LevelName(level), evt, rest, FormatLine(ts, level, evt, fields));
  }

  /** Values are not escaped: a quote inside a value lets two different calls write the same line. */
  lemma UnescapedValuesCollide()
    ensures var one := [Field("a", Str("x\" b=\"y"))];
            var two := [Field("a", Str("x")), Field("b", Str("y"))];
            one != two && FormatLine("t", Level.Info, "e", one) == FormatLine("t", Level.Info, "e", two)
  {
    var one := [Field("a", Str("x\" b=\"y"))];
    var two := [Field("a", Str("x")), Field("b", Str("y"))];
    assert one[0] != two[0];
    assert Segments(two) == Segment(two[0]) + (Segment(two[1]) + Segments([]));
    assert Segments(one) == Segment(one[0]) + Segments([]);
  }
}
