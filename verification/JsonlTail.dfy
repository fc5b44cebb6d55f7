/** Cursor-safe reading of an append-only transcript (jsonl_tail.py). */
module JsonlTail {
  import opened Wrappers
  import opened Lines

  newtype byte = x: int | 0 <= x < 256
  type Bytes = seq<byte>

  const LF: byte := 10
  const CR: byte := 13
  const BYTE_LINE_ENDS := LineEnds({LF, CR}, CR, LF)
  const BYTE_SPACE: set<byte> := {9, 10, 11, 12, 13, 32}

  /** ASCII white space is stripped; only LF and CR end a line of bytes. */
  lemma SpacesAre(b: byte)
    ensures b in BYTE_SPACE <==> 9 <= b <= 13 || b == 32
    ensures b in BYTE_LINE_ENDS.all <==> b == 10 || b == 13
  {
  }

  /** Length of the prefix that holds only complete lines: `rfind(b"\n") + 1`. */
  function LineEnd(data: Bytes): (n: nat)
    ensures n <= |data|
    ensures n > 0 ==> data[n - 1] == LF
    ensures forall i | n <= i < |data| :: data[i] != LF
  {
    if data == [] || data[|data| - 1] == LF then |data| else LineEnd(data[..|data| - 1])
  }

  /** What `seek(start); read()` returns; past the end it is empty. */
  function From(file: Bytes, start: nat): (data: Bytes) {
    if start <= |file| then file[start..] else []
  }

  /** The parsed records of `lines`, in order; blank and unparseable lines give none. */
  function Records<E>(lines: seq<Bytes>, loads: Bytes -> Option<E>): (records: seq<E>)
  {
    if lines == [] then [] else RecordOf(lines[0], loads) + Records(lines[1..], loads)
  }

  function RecordOf<E>(raw: Bytes, loads: Bytes -> Option<E>): (records: seq<E>) {
    var line := Strip(raw, BYTE_SPACE);
    if line != [] && loads(line).Some? then [loads(line).value] else []
  }

  /** The records of a stretch of file. */
  function Parse<E>(data: Bytes, loads: Bytes -> Option<E>): (records: seq<E>) {
    Records(SplitLines(data, BYTE_LINE_ENDS), loads)
  }

  /** `read_records`: `file` is None when the path is empty or cannot be read. */
  method ReadRecords<E>(file: Option<Bytes>, offset: int, tail: bool, loads: Bytes -> Option<E>)
    returns (records: seq<E>, cursor: nat)
    ensures var start := if offset < 0 then 0 else offset;
            var data := From(file.GetOr([]), start);
            var cut := if tail then LineEnd(data) else |data|;
            cursor == start + cut && records == Parse(data[..cut], loads)
  {
    var start: nat := if offset < 0 then 0 else offset;
    records := [];
    if file.None? {
      return [], start;
    }
    var data := From(file.value, start);
    if tail {
      var cut := LineEnd(data);
      if cut == 0 {
        return [], start;
      }
      data := data[..cut];
    }
    cursor := start + |data|;
    var lines := SplitLines(data, BYTE_LINE_ENDS);
    for i := 0 to |lines|
      invariant records == Records(lines[..i], loads)
    {
      RecordsOneMore(lines, i, loads);
      var line := Strip(lines[i], BYTE_SPACE);
      if line == [] {
        continue;
      }
      var entry := loads(line);
      if entry.Some? {
        records := records + [entry.value];
      }
    }
    assert lines[..|lines|] == lines;
    assert tail || data[..|data|] == data;
  }

  /** What a line gives: nothing if it is blank, otherwise what its text parses to. */
  function Given<E>(line: Bytes, loads: Bytes -> Option<E>): (e: Option<E>) {
    var text := Strip(line, BYTE_SPACE);
    if text == [] then None else loads(text)
  }

  function GivenBy<E>(lines: seq<Bytes>, loads: Bytes -> Option<E>): (given: seq<Option<E>>) {
    seq(|lines|, i requires 0 <= i < |lines| => Given(lines[i], loads))
  }

  /** The records are what the lines give, in order: no line is left out, repeated or read twice. */
  lemma {:induction false} RecordsByLine<E(!new)>(lines: seq<Bytes>, loads: Bytes -> Option<E>) returns (at: seq<nat>)
    ensures Filters(Records(lines, loads), GivenBy(lines, loads), at)
    decreases |lines|
  {
    hide Given, Strip, Filters;
    if lines == [] {
      at := [];
      NoRecords(lines, loads);
    } else {
      var n := |lines| - 1;
      at := RecordsByLine(lines[..n], loads);
      RecordsOneMore(lines, n, loads);
      assert lines[..n + 1] == lines;
      LineGives(lines[n], loads);
      var before, given := Records(lines[..n], loads), Given(lines[n], loads);
      FiltersOneMore(before, GivenBy(lines[..n], loads), at, given);
      assert GivenBy(lines, loads) == GivenBy(lines[..n], loads) + [given];
      assert Records(lines, loads) == if given.Some? then before + [given.value] else before;
      at := if given.Some? then at + [n] else at;
    }
  }

  lemma NoRecords<E(!new)>(lines: seq<Bytes>, loads: Bytes -> Option<E>)
    requires lines == []
    ensures Filters(Records(lines, loads), GivenBy(lines, loads), [])
  {
  }

  lemma LineGives<E>(line: Bytes, loads: Bytes -> Option<E>)
    ensures RecordOf(line, loads) == if Given(line, loads).Some? then [Given(line, loads).value] else []
  {
    hide Strip;
  }

  lemma {:induction false} RecordsAppend<E>(a: seq<Bytes>, b: seq<Bytes>, loads: Bytes -> Option<E>)
    ensures Records(a + b, loads) == Records(a, loads) + Records(b, loads)
    decreases |a|
  {
    if a == [] {
      assert a + b == b && Records(a, loads) == [];
    } else {
      assert (a + b)[1..] == a[1..] + b && (a + b)[0] == a[0];
      RecordsAppend(a[1..], b, loads);
    }
  }

  lemma RecordsOneMore<E>(lines: seq<Bytes>, i: nat, loads: Bytes -> Option<E>)
    requires i < |lines|
    ensures Records(lines[..i + 1], loads) == Records(lines[..i], loads) + RecordOf(lines[i], loads)
  {
    assert lines[..i + 1] == lines[..i] + [lines[i]];
    RecordsAppend(lines[..i], [lines[i]], loads);
    assert Records([lines[i]], loads) == RecordOf(lines[i], loads) + Records([], loads);
  }

  /** Reading up to a line end and then on from there parses each line exactly once. */
  lemma ParseAppend<E>(a: Bytes, b: Bytes, loads: Bytes -> Option<E>)
    requires a == [] || a[|a| - 1] == LF
    ensures Parse(a + b, loads) == Parse(a, loads) + Parse(b, loads)
  {
    SplitLinesAppend(a, b, BYTE_LINE_ENDS);
    RecordsAppend(SplitLines(a, BYTE_LINE_ENDS), SplitLines(b, BYTE_LINE_ENDS), loads);
  }

  /**
    One read after another is one read: with `cursor` where an earlier read of a shorter
    file stopped, the complete lines past `start` end where those past `cursor` do.
   */
  lemma LineEndResume(file: Bytes, start: nat, cursor: nat)
    requires start <= cursor <= |file|
    requires cursor == start || file[cursor - 1] == LF
    ensures start + LineEnd(file[start..]) == cursor + LineEnd(file[cursor..])
  {
  }
}
