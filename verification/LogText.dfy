/**
 The session file as text (src/core/session/jsonl.rs): reading the records up to the first
 line that does not decode, the extent of that valid prefix, and what one append does to the
 text and to the id cursor.
 */
module LogText {
  import opened Wrappers
  import opened JsonLines
  import opened SessionTree
  import opened RecordCodec

  // ---------------------------------------------------------------------------------------
  // Reading
  // ---------------------------------------------------------------------------------------

  function Records(text: string): seq<SessionRecord> {
    RecordsIn(Decode, text)
  }

  function Extent(text: string): (n: nat)
    ensures n <= |text|
  {
    ExtentOf(Decode, text)
  }

  /** All of it is read, but its last line has no newline yet. */
  predicate Unended(text: string) {
    text != "" && text[|text| - 1] != '\n' && Extent(text) == |text|
  }

  function EncodeAll(rs: seq<SessionRecord>): seq<string> {
    seq(|rs|, i requires 0 <= i < |rs| => Encode(rs[i]))
  }

  /** The text of whole records, one line each. */
  function Lines(rs: seq<SessionRecord>): string {
    Join(EncodeAll(rs))
  }

  predicate AllStorable(rs: seq<SessionRecord>) {
    forall r :: r in rs ==> Storable(r)
  }

  lemma EncodePrints(r: SessionRecord)
    requires Storable(r)
    ensures Prints(Decode, Encode(r), r)
  {
    EncodeOneLine(r);
    RoundTrip(r);
  }

  lemma EncodeAllPrints(rs: seq<SessionRecord>)
    requires AllStorable(rs)
    ensures PrintsAll(Decode, EncodeAll(rs), rs)
  {
    forall i | 0 <= i < |rs| ensures Prints(Decode, EncodeAll(rs)[i], rs[i]) {
      EncodePrints(rs[i]);
    }
  }

  /** Text written by whole lines is read back as it was written. */
  lemma LinesReadBack(rs: seq<SessionRecord>)
    requires AllStorable(rs)
    ensures Records(Lines(rs)) == rs && Extent(Lines(rs)) == |Lines(rs)|
  {
    EncodeAllPrints(rs);
    ReadsLines(Decode, EncodeAll(rs), rs, []);
    assert Lines(rs) + [] == Lines(rs);
    assert rs + [] == rs;
  }

  /**
   Crash recovery. Whatever part of the last line reached the file, the records read back are the
   ones written before, plus the last one exactly when its JSON is complete; cutting the file
   to the computed extent leaves exactly those lines.
   */
  lemma CutFileRecovers(rs: seq<SessionRecord>, r: SessionRecord, cut: nat)
    requires AllStorable(rs) && Storable(r) && cut <= |Encode(r)| + 1
    ensures var text := Lines(rs) + (Encode(r) + "\n")[..cut];
      && Records(text) == (if cut < |Encode(r)| then rs else rs + [r])
      && text[..Extent(text)] == (if cut < |Encode(r)| then Lines(rs) else text)
  {
    var line := Encode(r);
    EncodeAllPrints(rs);
    EncodePrints(r);
    EncodeOneLine(r);
    forall c: nat | c < |line| ensures Decode(line[..c]).None? {
      NoProperPrefixDecodes(r, c);
    }
    CutRecovers(Decode, EncodeAll(rs), rs, line, r, cut);
  }

  // ---------------------------------------------------------------------------------------
  // Appending
  // ---------------------------------------------------------------------------------------

  /** How a write ends: acknowledged, or an error after some of its characters reached the file. */
  datatype WriteFate = Written | Failed(reached: nat)

  function Reached(line: string, fate: WriteFate): string {
    match fate
    case Written => line
    case Failed(n) => if n < |line| then line[..n] else line
  }

  /** One more than the greatest message id; 0 when there is no message. */
  function NextFree(rs: seq<SessionRecord>): nat {
    if rs == [] then 0
    else
      var rest := NextFree(rs[..|rs| - 1]);
      match rs[|rs| - 1]
      case MessageRecord(e) => if rest <= e.id then e.id + 1 else rest
      case HeadRecord(_, _) => rest
  }

  datatype Log = Log(text: string, cursor: nat)

  /** The cursor raised above every id of the file. */
  function ClaimCursor(log: Log): nat {
    var floor := NextFree(Records(log.text));
    if log.cursor < floor then floor else log.cursor
  }

  /** Under the file lock: drop a torn tail and raise the cursor above every id in the file. */
  function Refreshed(log: Log): (r: Result<Log, Log>) {
    var repaired := log.text[..Extent(log.text)];
    if NextFree(Records(log.text)) > U64_MAX then Err(Log(repaired, log.cursor))
    else Ok(Log(repaired, ClaimCursor(log)))
  }

  /** Claiming an id and writing one message line; the id is spent even if the write fails. */
  function AppendedEntry(log: Log, parent: Option<NodeId>, message: Message, fate: WriteFate)
    : (Log, Result<NodeId, SessionError>)
  {
    if log.cursor >= U64_MAX then (log, Err(IdExhausted))
    else
      var line := Encode(MessageRecord(SessionEntry(log.cursor, parent, message))) + "\n";
      (Log(log.text + Reached(line, fate), log.cursor + 1), if fate.Written? then Ok(log.cursor) else Err(Io))
  }

  /** The whole append: with the file lock it is refresh, claim and write in one critical section. */
  function Appended(log: Log, locked: bool, parent: Option<NodeId>, message: Message, fate: WriteFate)
    : (Log, Result<NodeId, SessionError>)
  {
    if !locked then AppendedEntry(log, parent, message, fate)
    else
      match Refreshed(log)
      case Err(repaired) => (repaired, Err(IdExhausted))
      case Ok(ready) => AppendedEntry(ready, parent, message, fate)
  }

  function AppendedHead(text: string, lane: LaneId, head: Option<NodeId>, fate: WriteFate): string {
    text + Reached(Encode(HeadRecord(lane, head)) + "\n", fate)
  }

  lemma {:induction false} NextFreeBounds(rs: seq<SessionRecord>)
    ensures forall r :: r in rs && r.MessageRecord? ==> r.entry.id < NextFree(rs)
    ensures NextFree(rs) > 0 ==> exists r :: r in rs && r.MessageRecord? && r.entry.id == NextFree(rs) - 1
  {
    if rs != [] {
      var rest, last := rs[..|rs| - 1], rs[|rs| - 1];
      assert rs == rest + [last];
      NextFreeBounds(rest);
      if NextFree(rest) > 0 {
        var r :| r in rest && r.MessageRecord? && r.entry.id == NextFree(rest) - 1;
        assert r in rs;
      }
    }
  }

  lemma LinesSnoc(rs: seq<SessionRecord>, r: SessionRecord)
    ensures Lines(rs + [r]) == Lines(rs) + (Encode(r) + "\n")
  {
    JoinSnoc(EncodeAll(rs), Encode(r));
    assert EncodeAll(rs + [r]) == EncodeAll(rs) + [Encode(r)];
  }

  lemma WholeLines(rs: seq<SessionRecord>, r: SessionRecord)
    requires AllStorable(rs) && Storable(r)
    ensures Records(Lines(rs) + (Encode(r) + "\n")) == rs + [r]
  {
    LinesSnoc(rs, r);
    LinesReadBack(rs + [r]);
  }

  /** A line written right behind the characters of an unfinished one is unreadable, and hides it too. */
  lemma LineBehindTail(rs: seq<SessionRecord>, r: SessionRecord, cut: nat, next: SessionRecord)
    requires AllStorable(rs) && Storable(r) && 0 < cut <= |Encode(r)| && Storable(next)
    ensures Records(Lines(rs) + Encode(r)[..cut] + (Encode(next) + "\n")) == rs
  {
    var piece, line := Encode(r)[..cut], Encode(next);
    EncodeOneLine(r);
    EncodeOneLine(next);
    assert OneLine(piece) by { assert forall c :: c in piece ==> c in Encode(r); }
    assert Decode(piece + line).None? by {
      if cut < |Encode(r)| {
        GluedNeverDecodes(r, cut, next);
      } else {
        assert piece == Encode(r);
        TwoRecordsNeverDecode(r, next);
      }
    }
    GluedLine(rs, piece, line);
  }

  lemma GluedLine(rs: seq<SessionRecord>, piece: string, line: string)
    requires AllStorable(rs) && OneLine(piece) && OneLine(line) && Decode(piece + line).None?
    ensures Records(Lines(rs) + piece + (line + "\n")) == rs
  {
    EncodeAllPrints(rs);
    BadLineAfterLines(Decode, EncodeAll(rs), rs, piece + line, []);
    Regroup(Lines(rs), piece, line, "\n");
  }

  /** Text whose first line is unreadable and stays so, whatever is written behind it. */
  ghost predicate Broken(tail: string) {
    exists piece, rest :: IsBrokenAs(tail, piece, rest)
  }

  ghost predicate IsBrokenAs(tail: string, piece: string, rest: string) {
    tail == piece + rest && OneLine(piece) && Spoilt(piece) && (rest == "" || rest[0] == '\n')
  }

  lemma TornIsBroken(r: SessionRecord, cut: nat)
    requires Storable(r) && 0 < cut < |Encode(r)|
    ensures Broken(Encode(r)[..cut])
  {
    var piece := Encode(r)[..cut];
    EncodeOneLine(r);
    assert forall c :: c in piece ==> c in Encode(r);
    CutIsMidLine(r, cut);
    assert piece + "" == piece;
    assert IsBrokenAs(piece, piece, "");
  }

  /** Nothing behind whole lines is read from there on. */
  lemma BrokenReads(rs: seq<SessionRecord>, tail: string)
    requires AllStorable(rs) && Broken(tail)
    ensures Records(Lines(rs) + tail) == rs && Extent(Lines(rs) + tail) == |Lines(rs)| && tail != ""
  {
    var piece, rest :| IsBrokenAs(tail, piece, rest);
    SpoiltStays(piece, HeadRecord("", None), 0);
    hide Encode, Spoilt;
    EncodeAllPrints(rs);
    if rest == "" {
      assert tail == piece;
      TornAfterLines(Decode, EncodeAll(rs), rs, piece);
    } else {
      assert tail == (piece + "\n") + rest[1..];
      ReadsNone(Decode, piece, rest[1..]);
      ReadsLines(Decode, EncodeAll(rs), rs, tail);
      assert rs + [] == rs;
    }
  }

  /** What of a line a write leaves behind: a part of it, and its end only behind all of it. */
  lemma ReachedParts(line: string, fate: WriteFate) returns (n: nat, end: string)
    ensures n <= |line| && (end == "" || end == "\n") && Reached(line + "\n", fate) == line[..n] + end
    ensures fate != Failed(0) && line != "" ==> n > 0
  {
    var full := line + "\n";
    if fate.Failed? && fate.reached <= |line| {
      n, end := fate.reached, "";
      assert full[..n] == line[..n] + end;
    } else {
      n, end := |line|, "\n";
      assert line[..n] == line;
    }
  }

  lemma BrokenGrows(tail: string, r: SessionRecord, fate: WriteFate)
    requires Broken(tail) && Storable(r)
    ensures Broken(tail + Reached(Encode(r) + "\n", fate))
  {
    var piece, rest :| IsBrokenAs(tail, piece, rest);
    var line := Encode(r);
    var n, end := ReachedParts(line, fate);
    EncodeOneLine(r);
    SpoiltStays(piece, r, n);
    hide Encode, Spoilt, Reached;
    var part := line[..n];
    if rest != "" {
      Assoc(piece, rest, part + end);
      assert IsBrokenAs(tail + (part + end), piece, rest + (part + end));
    } else {
      assert forall c :: c in part ==> c in line;
      assert tail == piece;
      Assoc(piece, part, end);
      assert IsBrokenAs(tail + (part + end), piece + part, end);
    }
  }

  lemma EncodeNotEmpty(r: SessionRecord)
    ensures Encode(r) != ""
  {
  }

  /** Something written right behind a record without its newline. */
  lemma MoreBehindRecordIsBroken(r: SessionRecord, next: SessionRecord, fate: WriteFate)
    requires Storable(r) && Storable(next) && fate != Failed(0)
    ensures Broken(Encode(r) + Reached(Encode(next) + "\n", fate))
  {
    EncodeNotEmpty(next);
    hide Encode, Spoilt, Reached, Storable;
    var line := Encode(next);
    var n, end := ReachedParts(line, fate);
    EncodeOneLine(r);
    EncodeOneLine(next);
    RecordThenMoreSpoils(r, next, n);
    var part := line[..n];
    assert forall c :: c in part ==> c in line;
    Assoc(Encode(r), part, end);
    assert IsBrokenAs(Encode(r) + (part + end), Encode(r) + part, end);
  }

  lemma Regroup(a: string, b: string, c: string, d: string)
    ensures a + b + (c + d) == a + (((b + c) + d) + [])
  {
  }

  /**
   When an acknowledged message is readable. After any cut of the line before it, a locked append
   that reports success can be read back exactly when that line's JSON was not complete: a complete
   line without its newline is kept by the repair and swallows the new one.
   */
  lemma AcknowledgedMessageReadable(rs: seq<SessionRecord>, r: SessionRecord, cut: nat, cursor: nat,
                                    parent: Option<NodeId>, message: Message)
    requires AllStorable(rs) && Storable(r) && cut <= |Encode(r)| && Fits(parent)
    ensures var (after, result) := Appended(Log(Lines(rs) + Encode(r)[..cut], cursor), true, parent, message, Written);
      result.Ok? ==>
        var added := MessageRecord(SessionEntry(result.value, parent, message));
        && (added in Records(after.text) <==> cut < |Encode(r)|)
        && Records(after.text) == if cut < |Encode(r)| then rs + [added] else rs
  {
    var log := Log(Lines(rs) + Encode(r)[..cut], cursor);
    var (after, result) := Appended(log, true, parent, message, Written);
    if result.Ok? {
      var added := MessageRecord(SessionEntry(result.value, parent, message));
      assert (Encode(r) + "\n")[..cut] == Encode(r)[..cut];
      CutFileRecovers(rs, r, cut);
      NextFreeBounds(Records(log.text));
      if cut < |Encode(r)| {
        WholeLines(rs, added);
      } else {
        LineBehindTail(rs, r, cut, added);
        assert forall x :: x in rs ==> x in rs + [r];
      }
    }
  }

  /** A lane head, written without repairing the tail first, can be read back exactly when no tail is left over. */
  lemma AcknowledgedHeadReadable(rs: seq<SessionRecord>, r: SessionRecord, cut: nat, lane: LaneId, head: Option<NodeId>)
    requires AllStorable(rs) && Storable(r) && cut <= |Encode(r)| && Fits(head)
    ensures Records(AppendedHead(Lines(rs) + Encode(r)[..cut], lane, head, Written))
         == if cut == 0 then rs + [HeadRecord(lane, head)] else rs
  {
    if cut == 0 {
      assert Lines(rs) + Encode(r)[..cut] == Lines(rs);
      WholeLines(rs, HeadRecord(lane, head));
    } else {
      LineBehindTail(rs, r, cut, HeadRecord(lane, head));
    }
  }

  /** Without the file lock nothing repairs the tail, so the same holds for a message. */
  lemma UnlockedMessageReadable(rs: seq<SessionRecord>, r: SessionRecord, cut: nat, cursor: nat,
                                parent: Option<NodeId>, message: Message)
    requires AllStorable(rs) && Storable(r) && cut <= |Encode(r)| && Fits(parent)
    ensures var (after, result) := Appended(Log(Lines(rs) + Encode(r)[..cut], cursor), false, parent, message, Written);
      result.Ok? ==>
        Records(after.text) == if cut == 0 then rs + [MessageRecord(SessionEntry(result.value, parent, message))]
            else rs
  {
    if cursor < U64_MAX {
      var added := MessageRecord(SessionEntry(cursor, parent, message));
      if cut == 0 {
        assert Lines(rs) + Encode(r)[..cut] == Lines(rs);
        WholeLines(rs, added);
      } else {
        LineBehindTail(rs, r, cut, added);
      }
    }
  }
}
