/**
 Reading a file of lines up to the first one that does not decode
 (read_records and read_records_with_extent of src/core/session/jsonl.rs), for any decoder of one line.
 */
module JsonLines {
  import opened Wrappers

  type Decoder<!R> = string -> Option<R>

  predicate OneLine(s: string) {
    '\n' !in s && '\r' !in s
  }

  /** Index of the first newline, or the length of the text. */
  function FirstBreak(text: string): (n: nat)
    ensures n <= |text|
    ensures n < |text| ==> text[n] == '\n'
  {
    if text == [] || text[0] == '\n' then 0 else 1 + FirstBreak(text[1..])
  }

  /** Characters consumed by reading one line: up to and including its newline, if it has one. */
  function LineLength(text: string): (n: nat)
    ensures n <= |text| && (text != [] ==> 0 < n)
  {
    if FirstBreak(text) < |text| then FirstBreak(text) + 1 else FirstBreak(text)
  }

  /** A line without its trailing carriage returns, which JSON treats as white space. */
  function TrimEnd(line: string): string {
    if line != [] && line[|line| - 1] == '\r' then TrimEnd(line[..|line| - 1]) else line
  }

  function FirstRecord<R>(decode: Decoder<R>, text: string): Option<R> {
    decode(TrimEnd(text[..FirstBreak(text)]))
  }

  /** The records of the longest prefix of lines that all decode. */
  function RecordsIn<R>(decode: Decoder<R>, text: string): seq<R>
    decreases |text|
  {
    if text == [] || FirstRecord(decode, text).None? then []
    else [FirstRecord(decode, text).value] + RecordsIn(decode, text[LineLength(text)..])
  }

  /** The length of that prefix. */
  function ExtentOf<R>(decode: Decoder<R>, text: string): (n: nat)
    ensures n <= |text|
    decreases |text|
  {
    if text == [] || FirstRecord(decode, text).None? then 0
    else LineLength(text) + ExtentOf(decode, text[LineLength(text)..])
  }

  /** Lines put one after the other, each ended by a newline. */
  function Join(lines: seq<string>): string {
    if lines == [] then [] else (lines[0] + "\n") + Join(lines[1..])
  }

  ghost predicate Prints<R>(decode: Decoder<R>, line: string, r: R) {
    OneLine(line) && decode(line) == Some(r)
  }

  ghost predicate PrintsAll<R>(decode: Decoder<R>, lines: seq<string>, rs: seq<R>) {
    |lines| == |rs| && forall i :: 0 <= i < |lines| ==> Prints(decode, lines[i], rs[i])
  }

  /** What reading comes to, one line further on. */
  lemma ReadStep<R>(decode: Decoder<R>, text: string)
    ensures text == [] || FirstRecord(decode, text).None?
        ==> RecordsIn(decode, text) == [] && ExtentOf(decode, text) == 0
    ensures text != [] && FirstRecord(decode, text).Some? ==>
              && RecordsIn(decode, text)
                  == [FirstRecord(decode, text).value] + RecordsIn(decode, text[LineLength(text)..])
              && ExtentOf(decode, text) == LineLength(text) + ExtentOf(decode, text[LineLength(text)..])
  {
  }

  /** The reader's loop: decode line after line, and stop at the first failure or at the end. */
  method ReadRecordsWithExtent<R>(decode: Decoder<R>, text: string) returns (records: seq<R>, validLen: nat)
    ensures records == RecordsIn(decode, text)
    ensures validLen == ExtentOf(decode, text)
  {
    hide RecordsIn, ExtentOf, FirstRecord, LineLength;
    records, validLen := [], 0;
    assert text[0..] == text;
    while true
      invariant validLen <= |text|
      invariant records + RecordsIn(decode, text[validLen..]) == RecordsIn(decode, text)
      invariant validLen + ExtentOf(decode, text[validLen..]) == ExtentOf(decode, text)
      decreases |text| - validLen
    {
      var left := text[validLen..];
      ReadStep(decode, left);
      if left == [] {
        break;
      }
      var decoded := FirstRecord(decode, left);
      if decoded.None? {
        break;
      }
      ghost var rest := left[LineLength(left)..];
      assert text[validLen + LineLength(left)..] == rest;
      assert records + ([decoded.value] + RecordsIn(decode, rest))
          == (records + [decoded.value]) + RecordsIn(decode, rest);
      records := records + [decoded.value];
      validLen := validLen + LineLength(left);
    }
    assert records + [] == records;
  }

  // ---------------------------------------------------------------------------------------
  // Breaking text into lines
  // ---------------------------------------------------------------------------------------

  lemma {:induction false} BreakAt(a: string, b: string)
    requires '\n' !in a
    requires b == [] || b[0] == '\n'
    ensures FirstBreak(a + b) == |a|
    decreases |a|
  {
    if a == [] {
      assert a + b == b;
    } else {
      assert (a + b)[1..] == a[1..] + b;
      BreakAt(a[1..], b);
    }
  }

  lemma TrimNothing(line: string)
    requires OneLine(line)
    ensures TrimEnd(line) == line
  {
  }

  lemma ReadsOne<R>(decode: Decoder<R>, line: string, r: R, rest: string)
    requires Prints(decode, line, r)
    ensures RecordsIn(decode, (line + "\n") + rest) == [r] + RecordsIn(decode, rest)
    ensures ExtentOf(decode, (line + "\n") + rest) == |line| + 1 + ExtentOf(decode, rest)
  {
    var text := (line + "\n") + rest;
    assert text == line + ("\n" + rest);
    BreakAt(line, "\n" + rest);
    assert text[..|line|] == line;
    assert text[|line| + 1..] == rest;
    TrimNothing(line);
    ReadStep(decode, text);
    hide RecordsIn, ExtentOf, FirstBreak, TrimEnd;
  }

  lemma ReadsNone<R>(decode: Decoder<R>, line: string, rest: string)
    requires OneLine(line) && decode(line).None?
    ensures RecordsIn(decode, (line + "\n") + rest) == [] && ExtentOf(decode, (line + "\n") + rest) == 0
  {
    var text := (line + "\n") + rest;
    assert text == line + ("\n" + rest);
    BreakAt(line, "\n" + rest);
    assert text[..|line|] == line;
    TrimNothing(line);
  }

  /** Text without any newline is read as one line. */
  lemma LastPiece<R>(decode: Decoder<R>, piece: string)
    requires OneLine(piece) && piece != []
    ensures RecordsIn(decode, piece) == if decode(piece).Some? then [decode(piece).value] else []
    ensures ExtentOf(decode, piece) == if decode(piece).Some? then |piece| else 0
  {
    assert piece + [] == piece;
    BreakAt(piece, []);
    assert piece[..|piece|] == piece;
    assert piece[|piece|..] == [];
    TrimNothing(piece);
  }

  lemma SplitHead<R>(rs: seq<R>, more: seq<R>)
    requires rs != []
    ensures rs + more == [rs[0]] + (rs[1..] + more)
  {
  }

  lemma {:induction false} ReadsLines<R>(decode: Decoder<R>, lines: seq<string>, rs: seq<R>, tail: string)
    requires PrintsAll(decode, lines, rs)
    ensures RecordsIn(decode, Join(lines) + tail) == rs + RecordsIn(decode, tail)
    ensures ExtentOf(decode, Join(lines) + tail) == |Join(lines)| + ExtentOf(decode, tail)
    decreases |rs|
  {
    if rs == [] {
      assert Join(lines) + tail == tail;
      assert rs + RecordsIn(decode, tail) == RecordsIn(decode, tail);
    } else {
      var rest := Join(lines[1..]) + tail;
      assert Join(lines) + tail == (lines[0] + "\n") + rest;
      assert Prints(decode, lines[0], rs[0]);
      ReadsOne(decode, lines[0], rs[0], rest);
      ReadsLines(decode, lines[1..], rs[1..], tail);
      SplitHead(rs, RecordsIn(decode, tail));
    }
  }

  lemma {:induction false} JoinSnoc(lines: seq<string>, line: string)
    ensures Join(lines + [line]) == Join(lines) + (line + "\n")
    decreases |lines|
  {
    if lines == [] {
      assert lines + [line] == [line];
      assert Join([line]) == (line + "\n") + [];
    } else {
      assert (lines + [line])[1..] == lines[1..] + [line];
      JoinSnoc(lines[1..], line);
    }
  }

  /** A line after whole lines is read back. */
  lemma LineAfterLines<R>(decode: Decoder<R>, lines: seq<string>, rs: seq<R>, line: string, r: R)
    requires PrintsAll(decode, lines, rs) && Prints(decode, line, r)
    ensures RecordsIn(decode, Join(lines) + (line + "\n")) == rs + [r]
    ensures ExtentOf(decode, Join(lines) + (line + "\n")) == |Join(lines)| + |line| + 1
  {
    ReadsLines(decode, lines, rs, line + "\n");
    ReadsOne(decode, line, r, []);
    assert (line + "\n") + [] == line + "\n";
    assert [r] + RecordsIn(decode, []) == [r];
  }

  /** A line that does not decode hides itself and whatever follows it. */
  lemma BadLineAfterLines<R>(decode: Decoder<R>, lines: seq<string>, rs: seq<R>, bad: string, rest: string)
    requires PrintsAll(decode, lines, rs) && OneLine(bad) && decode(bad).None?
    ensures RecordsIn(decode, Join(lines) + ((bad + "\n") + rest)) == rs
  {
    ReadsLines(decode, lines, rs, (bad + "\n") + rest);
    ReadsNone(decode, bad, rest);
    assert rs + [] == rs;
  }

  /** An unfinished last line is read exactly when it decodes. */
  lemma UnfinishedAfterLines<R>(decode: Decoder<R>, lines: seq<string>, rs: seq<R>, piece: string)
    requires PrintsAll(decode, lines, rs) && OneLine(piece) && (piece != [] ==> decode(piece).Some?)
    ensures piece == [] ==>
              RecordsIn(decode, Join(lines) + piece) == rs && ExtentOf(decode, Join(lines) + piece) == |Join(lines)|
    ensures piece != [] ==> RecordsIn(decode, Join(lines) + piece) == rs + [decode(piece).value]
    ensures piece != [] ==> ExtentOf(decode, Join(lines) + piece) == |Join(lines)| + |piece|
  {
    ReadsLines(decode, lines, rs, piece);
    assert rs + [] == rs;
    if piece != [] { LastPiece(decode, piece); }
  }

  lemma TornAfterLines<R>(decode: Decoder<R>, lines: seq<string>, rs: seq<R>, piece: string)
    requires PrintsAll(decode, lines, rs) && OneLine(piece) && decode(piece).None?
    ensures RecordsIn(decode, Join(lines) + piece) == rs && ExtentOf(decode, Join(lines) + piece) == |Join(lines)|
  {
    ReadsLines(decode, lines, rs, piece);
    assert rs + [] == rs;
    if piece != [] { LastPiece(decode, piece); }
  }

  /**
   Crash recovery. Whatever part of the last line reached the file, the records read back are the
   ones before it, plus the last one exactly when its text is complete; cutting the file
   to the computed extent leaves exactly those lines.
   */
  lemma CutRecovers<R>(decode: Decoder<R>, lines: seq<string>, rs: seq<R>, line: string, r: R, cut: nat)
    requires PrintsAll(decode, lines, rs) && Prints(decode, line, r) && cut <= |line| + 1
    requires forall c: nat :: c < |line| ==> decode(line[..c]).None?
    requires line != []
    ensures var text := Join(lines) + (line + "\n")[..cut];
      && RecordsIn(decode, text) == (if cut < |line| then rs else rs + [r])
      && text[..ExtentOf(decode, text)] == (if cut < |line| then Join(lines) else text)
  {
    var piece := (line + "\n")[..cut];
    var text := Join(lines) + piece;
    assert text[..|Join(lines)|] == Join(lines);
    assert text[..|text|] == text;
    if cut < |line| {
      assert piece == line[..cut];
      assert OneLine(piece) by { assert forall c :: c in piece ==> c in line; }
      TornAfterLines(decode, lines, rs, piece);
    } else if cut == |line| {
      assert piece == line;
      UnfinishedAfterLines(decode, lines, rs, line);
    } else {
      assert piece == line + "\n";
      LineAfterLines(decode, lines, rs, line, r);
    }
  }

  lemma {:induction false} SameFirstLine(text: string, m: nat)
    requires LineLength(text) <= m <= |text|
    ensures FirstBreak(text[..m]) == FirstBreak(text)
    decreases |text|
  {
    if text != [] && text[0] != '\n' && m > 0 {
      SameFirstLine(text[1..], m - 1);
      assert text[..m][1..] == text[1..][..m - 1];
    }
  }

  /** Reading the valid prefix again gives the same records and the same extent, for any text. */
  lemma {:induction false} ExtentIsStable<R>(decode: Decoder<R>, text: string)
    ensures RecordsIn(decode, text[..ExtentOf(decode, text)]) == RecordsIn(decode, text)
    ensures ExtentOf(decode, text[..ExtentOf(decode, text)]) == ExtentOf(decode, text)
    decreases |text|
  {
    var e := ExtentOf(decode, text);
    var kept := text[..e];
    ReadStep(decode, text);
    ReadStep(decode, kept);
    hide RecordsIn, ExtentOf;
    if text != [] && FirstRecord(decode, text).Some? {
      var n := LineLength(text);
      var rest := text[n..];
      ExtentIsStable(decode, rest);
      SameFirstLine(text, e);
      assert kept[n..] == rest[..ExtentOf(decode, rest)];
      assert kept[..FirstBreak(text)] == text[..FirstBreak(text)];
      assert LineLength(kept) == n && FirstRecord(decode, kept) == FirstRecord(decode, text);
    }
  }
}
