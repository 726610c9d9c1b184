/** `load_sequences`: the FASTA reader. The file is given as the sequence of lines Python's file
    iteration yields (each usually still ending in its newline). */
module IoUtils {
  import opened Wrappers

  /** The characters `str.rstrip()` with no argument removes: those `str.isspace()` accepts. */
  predicate IsSpace(c: char) {
    || c == '\t' || c == '\n' || c == '\U{0b}' || c == '\U{0c}' || c == '\r'
    || ('\U{1c}' <= c <= '\U{1f}') || c == ' ' || c == '\U{85}' || c == '\U{a0}'
    || c == '\U{1680}' || ('\U{2000}' <= c <= '\U{200a}') || c == '\U{2028}' || c == '\U{2029}'
    || c == '\U{202f}' || c == '\U{205f}' || c == '\U{3000}'
  }

  /** `s.rstrip()`: the longest prefix of `s` that does not end in whitespace. */
  function Rstrip(s: string): (r: string)
    ensures r <= s
    ensures r == [] || !IsSpace(r[|r| - 1])
    ensures forall i | |r| <= i < |s| :: IsSpace(s[i])
  {
    if s == [] || !IsSpace(s[|s| - 1]) then s else Rstrip(s[..|s| - 1])
  }

  /** Stripping twice strips nothing more. */
  lemma RstripIdempotent(s: string)
    ensures Rstrip(Rstrip(s)) == Rstrip(s)
  {
  }

  /** `line.startswith(">")`. */
  predicate IsHeader(line: string) {
    |line| > 0 && line[0] == '>'
  }

  /** `line.removeprefix(">").rstrip()` on a header line. */
  function HeaderName(line: string): (r: string)
    requires IsHeader(line)
    ensures r <= line[1..]
    ensures r == [] || !IsSpace(r[|r| - 1])
    ensures forall i | |r| < i < |line| :: IsSpace(line[i])
  {
    Rstrip(line[1..])
  }

  /** `"".join(parts)`. */
  function Concat(parts: seq<string>): string {
    if parts == [] then "" else Concat(parts[..|parts| - 1]) + parts[|parts| - 1]
  }

  /** Joining two runs of parts is joining each and concatenating. */
  lemma {:induction false} ConcatAppend(a: seq<string>, b: seq<string>)
    ensures Concat(a + b) == Concat(a) + Concat(b)
    decreases |b|
  {
    if b == [] {
      assert a + b == a;
    } else {
      var b', p := b[..|b| - 1], b[|b| - 1];
      assert a + b == (a + b') + [p];
      assert (a + b)[..|a + b| - 1] == a + b';
      ConcatAppend(a, b');
    }
  }

  predicate NoHeaders(lines: seq<string>) {
    forall i | 0 <= i < |lines| :: !IsHeader(lines[i])
  }

  /** The names of all header lines. */
  function HeaderNames(lines: seq<string>): set<string> {
    set i | 0 <= i < |lines| && IsHeader(lines[i]) :: HeaderName(lines[i])
  }

  /** The body of a record as the reader keeps it: each non-empty line, right-stripped
      (an empty string never comes out of file iteration, and is skipped). */
  function Stripped(body: seq<string>): (r: seq<string>)
    ensures |r| <= |body|
    ensures forall j | 0 <= j < |r| :: r[j] == [] || !IsSpace(r[j][|r[j]| - 1])
  {
    if body == [] then []
    else
      var rest := Stripped(body[..|body| - 1]);
      var line := body[|body| - 1];
      if line == "" then rest else rest + [Rstrip(line)]
  }

  /** A header and the lines that followed it up to the next header. */
  datatype Record = Record(header: string, body: seq<string>)

  /** The records of a file, in order: a header line opens a new record, any other non-empty
      line is added, right-stripped, to the body of the open record, and a line before the
      first header belongs to no record. */
  function Records(lines: seq<string>): seq<Record> {
    if lines == [] then []
    else
      var rs := Records(lines[..|lines| - 1]);
      var line := lines[|lines| - 1];
      if IsHeader(line) then rs + [Record(HeaderName(line), [])]
      else if line == "" || rs == [] then rs
      else
        var last := rs[|rs| - 1];
        rs[..|rs| - 1] + [Record(last.header, last.body + [Rstrip(line)])]
  }

  /** The dictionary built from records, in order: a record with a body sets its header to the
      joined body, overwriting an earlier record of that name; a record without one adds
      nothing. */
  function Collect(rs: seq<Record>): map<string, string> {
    if rs == [] then map[]
    else
      var m := Collect(rs[..|rs| - 1]);
      var r := rs[|rs| - 1];
      if r.body != [] then m[r.header := Concat(r.body)] else m
  }

  /** What `load_sequences` returns for a file. */
  function SequencesOf(lines: seq<string>): map<string, string> {
    Collect(Records(lines))
  }

  /** `load_sequences`: the reader's loop, with `header` as an `Option` (`None` before the
      first header). Lines before the first header are collected too, and dropped when that
      header resets `bodyLines`. */
  method LoadSequences(lines: seq<string>) returns (sequences: map<string, string>)
    ensures sequences == SequencesOf(lines)
  {
    sequences := map[];
    var header: Option<string> := None;
    var bodyLines: seq<string> := [];
    for k := 0 to |lines|
      invariant header.None? <==> Records(lines[..k]) == []
      invariant header.None? ==> sequences == map[]
      invariant header.Some? ==> var rs := Records(lines[..k]);
        && rs[|rs| - 1] == Record(header.value, bodyLines)
        && sequences == Collect(rs[..|rs| - 1])
    {
      var line := lines[k];
      assert lines[..k + 1] == lines[..k] + [line];
      ghost var rs := Records(lines[..k]);
      if IsHeader(line) {
        RecordsAfterHeader(lines[..k], line);
        if header.Some? {
          CollectLast(rs);
          if bodyLines != [] {
            sequences := sequences[header.value := Concat(bodyLines)];
          }
        }
        bodyLines := [];
        header := Some(HeaderName(line));
      } else if line != "" {
        if header.None? {
          RecordsAfterOther(lines[..k], line);
        } else {
          RecordsAfterBodyLine(lines[..k], line);
        }
        bodyLines := bodyLines + [Rstrip(line)];
      } else {
        RecordsAfterOther(lines[..k], line);
      }
    }
    assert lines[..|lines|] == lines;
    if header.Some? {
      CollectLast(Records(lines));
      if bodyLines != [] {
        sequences := sequences[header.value := Concat(bodyLines)];
      }
    }
  }

  /** A header line opens a new, empty record. */
  lemma RecordsAfterHeader(prefix: seq<string>, line: string)
    requires IsHeader(line)
    ensures var rs := Records(prefix + [line]);
      rs != [] && rs[..|rs| - 1] == Records(prefix) && rs[|rs| - 1] == Record(HeaderName(line), [])
  {
    assert (prefix + [line])[..|prefix|] == prefix;
  }

  /** An empty line, or a line before the first header, changes no record. */
  lemma RecordsAfterOther(prefix: seq<string>, line: string)
    requires !IsHeader(line) && (line == "" || Records(prefix) == [])
    ensures Records(prefix + [line]) == Records(prefix)
  {
    assert (prefix + [line])[..|prefix|] == prefix;
  }

  /** Any other line is added, stripped, to the body of the open record. */
  lemma RecordsAfterBodyLine(prefix: seq<string>, line: string)
    requires !IsHeader(line) && line != "" && Records(prefix) != []
    ensures var rs, rs' := Records(prefix), Records(prefix + [line]);
      && rs' != [] && rs'[..|rs'| - 1] == rs[..|rs| - 1]
      && rs'[|rs'| - 1] == Record(rs[|rs| - 1].header, rs[|rs| - 1].body + [Rstrip(line)])
  {
    assert (prefix + [line])[..|prefix|] == prefix;
  }

  /** Collecting records is collecting all but the last, then the last. */
  lemma CollectLast(rs: seq<Record>)
    requires rs != []
    ensures var r := rs[|rs| - 1];
      Collect(rs) == if r.body != [] then Collect(rs[..|rs| - 1])[r.header := Concat(r.body)]
        else Collect(rs[..|rs| - 1])
  {
  }

  /** A file that opens with a header has at least one record. */
  lemma {:induction false} RecordsOpenWithHeader(lines: seq<string>)
    requires lines != [] && IsHeader(lines[0])
    ensures Records(lines) != []
    decreases |lines|
  {
    if |lines| > 1 {
      var init := lines[..|lines| - 1];
      assert init[0] == lines[0];
      RecordsOpenWithHeader(init);
    }
  }

  /** Lines without a header belong to no record. */
  lemma {:induction false} RecordsOfPreamble(lines: seq<string>)
    requires NoHeaders(lines)
    ensures Records(lines) == []
    decreases |lines|
  {
    if lines != [] {
      var init := lines[..|lines| - 1];
      assert NoHeaders(init) by {
        forall i | 0 <= i < |init| ensures !IsHeader(init[i]) {
          assert init[i] == lines[i];
        }
      }
      RecordsOfPreamble(init);
    }
  }

  /** A header followed by header-free lines makes one record whose body is those lines,
      stripped, in order. */
  lemma {:induction false} RecordsOfSegment(pre: seq<string>, h: string, body: seq<string>)
    requires IsHeader(h) && NoHeaders(body)
    ensures Records(pre + [h] + body) == Records(pre) + [Record(HeaderName(h), Stripped(body))]
    decreases |body|
  {
    var lines := pre + [h] + body;
    if body == [] {
      assert lines[..|lines| - 1] == pre;
    } else {
      var init, line := body[..|body| - 1], body[|body| - 1];
      assert NoHeaders(init) by {
        forall i | 0 <= i < |init| ensures !IsHeader(init[i]) {
          assert init[i] == body[i];
        }
      }
      assert !IsHeader(line) by { assert line == body[|body| - 1]; }
      assert lines[..|lines| - 1] == pre + [h] + init;
      assert lines[|lines| - 1] == line;
      RecordsOfSegment(pre, h, init);
      var rs := Records(pre + [h] + init);
      assert rs[..|rs| - 1] == Records(pre);
    }
  }

  /** The records of `a + b` are those of `a` then those of `b` when `b` opens with a header
      (or is empty): a header closes whatever record was open. */
  lemma {:induction false} RecordsAppend(a: seq<string>, b: seq<string>)
    requires b == [] || IsHeader(b[0])
    ensures Records(a + b) == Records(a) + Records(b)
    decreases |b|
  {
    if b == [] {
      assert a + b == a;
    } else if |b| == 1 {
      assert (a + b)[..|a + b| - 1] == a;
      assert b[..0] == [];
    } else {
      var init, line := b[..|b| - 1], b[|b| - 1];
      assert init[0] == b[0];
      assert (a + b)[..|a + b| - 1] == a + init;
      assert (a + b)[|a + b| - 1] == line;
      RecordsAppend(a, init);
      RecordsOpenWithHeader(init);
      var x, y := Records(a), Records(init);
      if !IsHeader(line) && line != "" {
        var last := y[|y| - 1];
        assert (x + y)[|x + y| - 1] == last;
        assert (x + y)[..|x + y| - 1] == x + y[..|y| - 1];
      }
    }
  }

  /** Collecting two runs of records: the later run's entries win. */
  lemma {:induction false} CollectAppend(a: seq<Record>, b: seq<Record>)
    ensures Collect(a + b) == Collect(a) + Collect(b)
    decreases |b|
  {
    if b == [] {
      assert a + b == a;
    } else {
      var init := b[..|b| - 1];
      assert (a + b)[..|a + b| - 1] == a + init;
      assert (a + b)[|a + b| - 1] == b[|b| - 1];
      CollectAppend(a, init);
    }
  }

  /** Every entry comes from a record of that name. */
  lemma {:induction false} CollectKeys(rs: seq<Record>, k: string)
    requires k in Collect(rs)
    ensures exists j :: 0 <= j < |rs| && rs[j].header == k
    decreases |rs|
  {
    var init := rs[..|rs| - 1];
    if k != rs[|rs| - 1].header || rs[|rs| - 1].body == [] {
      CollectKeys(init, k);
      var j :| 0 <= j < |init| && init[j].header == k;
      assert rs[j] == init[j];
    }
  }

  /** Every record is named after a header line of the file. */
  lemma {:induction false} RecordHeaders(lines: seq<string>, j: int)
    requires 0 <= j < |Records(lines)|
    ensures Records(lines)[j].header in HeaderNames(lines)
    decreases |lines|
  {
    var init, line := lines[..|lines| - 1], lines[|lines| - 1];
    var rs := Records(init);
    if IsHeader(line) && j == |rs| {
      assert line == lines[|lines| - 1];
    } else {
      RecordHeaders(init, j);
      var i :| 0 <= i < |init| && IsHeader(init[i]) && HeaderName(init[i]) == rs[j].header;
      assert lines[i] == init[i];
    }
  }

  /** Every key of the result is a header line with the `>` removed and trailing whitespace
      stripped. */
  lemma KeysAreHeaders(lines: seq<string>)
    ensures SequencesOf(lines).Keys <= HeaderNames(lines)
  {
    forall k | k in SequencesOf(lines) ensures k in HeaderNames(lines) {
      CollectKeys(Records(lines), k);
      var j :| 0 <= j < |Records(lines)| && Records(lines)[j].header == k;
      RecordHeaders(lines, j);
    }
  }

  /** Input with no header line yields an empty dictionary. */
  lemma NoHeaderNoSequences(lines: seq<string>)
    requires NoHeaders(lines)
    ensures SequencesOf(lines) == map[]
  {
    RecordsOfPreamble(lines);
  }

  /** Lines before the first header are discarded. */
  lemma PreambleDiscarded(pre: seq<string>, rest: seq<string>)
    requires NoHeaders(pre)
    requires rest != [] && IsHeader(rest[0])
    ensures SequencesOf(pre + rest) == SequencesOf(rest)
  {
    RecordsAppend(pre, rest);
    RecordsOfPreamble(pre);
    assert Records(pre) + Records(rest) == Records(rest);
  }

  /** A header followed by header-free lines: the record is flushed as soon as the next header
      or the end of input comes, setting its name to the in-order concatenation of its stripped
      lines, or adding nothing when it has none. */
  lemma FlushRecord(pre: seq<string>, h: string, body: seq<string>)
    requires IsHeader(h) && NoHeaders(body)
    ensures SequencesOf(pre + [h] + body) ==
      if Stripped(body) != [] then SequencesOf(pre)[HeaderName(h) := Concat(Stripped(body))]
      else SequencesOf(pre)
  {
    RecordsOfSegment(pre, h, body);
    var rs := Records(pre) + [Record(HeaderName(h), Stripped(body))];
    assert rs[..|rs| - 1] == Records(pre);
  }

  /** The last record is flushed at the end of input as it would be by a further header. */
  lemma TrailingHeaderFlush(lines: seq<string>, h: string)
    requires IsHeader(h)
    ensures SequencesOf(lines + [h]) == SequencesOf(lines)
  {
    FlushRecord(lines, h, []);
    assert lines + [h] + [] == lines + [h];
  }

  /** A header followed directly by another header, or by the end of input, gets no entry of
      its own. */
  lemma EmptyRecordDropped(pre: seq<string>, h: string, rest: seq<string>)
    requires IsHeader(h)
    requires rest == [] || IsHeader(rest[0])
    ensures SequencesOf(pre + [h] + rest) == SequencesOf(pre + rest)
  {
    RecordsAppend(pre + [h], rest);
    RecordsAppend(pre, rest);
    FlushRecord(pre, h, []);
    assert pre + [h] + [] == pre + [h];
    CollectAppend(Records(pre + [h]), Records(rest));
    CollectAppend(Records(pre), Records(rest));
  }

  /** The value of a header whose name no later header repeats is the in-order concatenation
      of the stripped lines between it and the next header or the end of input. */
  lemma RecordValue(pre: seq<string>, h: string, body: seq<string>, rest: seq<string>)
    requires IsHeader(h) && NoHeaders(body) && Stripped(body) != []
    requires rest == [] || IsHeader(rest[0])
    requires HeaderName(h) !in HeaderNames(rest)
    ensures HeaderName(h) in SequencesOf(pre + [h] + body + rest)
    ensures SequencesOf(pre + [h] + body + rest)[HeaderName(h)] == Concat(Stripped(body))
  {
    var k := HeaderName(h);
    RecordsAppend(pre + [h] + body, rest);
    CollectAppend(Records(pre + [h] + body), Records(rest));
    FlushRecord(pre, h, body);
    if k in SequencesOf(rest) {
      CollectKeys(Records(rest), k);
      var j :| 0 <= j < |Records(rest)| && Records(rest)[j].header == k;
      RecordHeaders(rest, j);
      assert false;
    }
  }

  /** When a header occurs twice with non-empty bodies, the later record's sequence wins. */
  lemma LaterDuplicateWins(pre: seq<string>, h1: string, b1: seq<string>, h2: string, b2: seq<string>)
    requires IsHeader(h1) && IsHeader(h2) && HeaderName(h1) == HeaderName(h2)
    requires NoHeaders(b2) && Stripped(b2) != []
    ensures HeaderName(h2) in SequencesOf(pre + [h1] + b1 + [h2] + b2)
    ensures SequencesOf(pre + [h1] + b1 + [h2] + b2)[HeaderName(h2)] == Concat(Stripped(b2))
  {
    FlushRecord(pre + [h1] + b1, h2, b2);
  }

  /** A header line whose body is one blank line gets the empty sequence (the blank line,
      stripped, is an empty but present body line). */
  lemma BlankBodyGivesEmptySequence(h: string)
    requires IsHeader(h)
    ensures SequencesOf([h, "\n"]) == map[HeaderName(h) := ""]
  {
    FlushRecord([], h, ["\n"]);
    assert [] + [h] + ["\n"] == [h, "\n"];
    assert Stripped(["\n"]) == [""] by {
      assert ["\n"][..0] == [];
    }
    assert Concat([""]) == "" by {
      assert [""][..0] == [];
    }
    assert Records([]) == [];
  }
}
