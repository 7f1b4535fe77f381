/**
 One line of the session file: a message entry or a lane head (src/core/session/lane_head.rs).
 The line is scanned character by character, the way a JSON reader consumes it, so the state
 reached after a cut is visible. A message's own JSON is carried as one quoted string.
 */
module RecordCodec {
  import opened Wrappers
  import opened JsonLines
  import opened SessionTree

  type LaneId = string

  datatype SessionRecord =
    | MessageRecord(entry: SessionEntry)
    | HeadRecord(laneId: LaneId, head: Option<NodeId>)

  const U64_MAX: nat := 0xFFFF_FFFF_FFFF_FFFF

  predicate Fits(id: Option<NodeId>) {
    id.Some? ==> id.value <= U64_MAX
  }

  /** Every id of the record is a u64. */
  predicate Storable(r: SessionRecord) {
    match r
    case MessageRecord(e) => e.id <= U64_MAX && Fits(e.parentId)
    case HeadRecord(_, h) => Fits(h)
  }

  // ---------------------------------------------------------------------------------------
  // Printing
  // ---------------------------------------------------------------------------------------

  function DigitChar(d: nat): char
    requires d < 10
  {
    "0123456789"[d]
  }

  function PrintNat(n: nat): string
    decreases n
  {
    if n < 10 then [DigitChar(n)] else PrintNat(n / 10) + [DigitChar(n % 10)]
  }

  function PrintId(id: Option<NodeId>): string {
    match id
    case None => "null"
    case Some(n) => PrintNat(n)
  }

  function EscapeChar(c: char): string {
    if c == '"' then ['\\', '"']
    else if c == '\\' then ['\\', '\\']
    else if c == '\n' then ['\\', 'n']
    else if c == '\r' then ['\\', 'r']
    else [c]
  }

  function Escape(s: string): string {
    if s == [] then [] else EscapeChar(s[0]) + Escape(s[1..])
  }

  function Encode(r: SessionRecord): string {
    match r
    case MessageRecord(e) =>
      "{\"id\":" + (PrintNat(e.id)
          + (",\"parent_id\":" + (PrintId(e.parentId) + (",\"message\":\"" + (Escape(e.message) + "\"}")))))
    case HeadRecord(lane, head) =>
      "{\"lane_id\":\"" + (Escape(lane) + ("\",\"head\":" + (PrintId(head) + "}")))
  }

  // ---------------------------------------------------------------------------------------
  // Scanning
  // ---------------------------------------------------------------------------------------

  /** What a quoted string or a trailing id is read for. */
  datatype StringUse = MessageText(id: NodeId, parent: Option<NodeId>) | LaneName
  datatype IdUse = ParentOf(id: NodeId) | HeadOf(lane: LaneId)

  datatype Scanner =
    | Start
    | Brace
    | Quote
    | Literal(left: string, next: Scanner)
    | OwnId(read: Option<nat>)
    | OtherId(idUse: IdUse, read: Option<nat>)
    | Null(idUse: IdUse)
    | Text(stringUse: StringUse, acc: string)
    | Escaped(stringUse: StringUse, acc: string)
    | Complete(record: SessionRecord)
    | Fail

  predicate IsDigit(c: char) {
    '0' <= c <= '9'
  }

  /** Takes one more decimal digit; a value beyond u64 is rejected. */
  function MoreDigits(read: Option<nat>, c: char): Option<nat>
    requires IsDigit(c)
  {
    var n := (if read.Some? then read.value else 0) * 10 + (c as int - '0' as int);
    if n <= U64_MAX then Some(n) else None
  }

  function AfterId(use: IdUse, id: Option<NodeId>, c: char): Scanner {
    match use
    case ParentOf(own) => if c == ',' then Literal("\"message\":\"", Text(MessageText(own, id), "")) else Fail
    case HeadOf(lane) => if c == '}' then Complete(HeadRecord(lane, id)) else Fail
  }

  function AfterText(use: StringUse, text: string): Scanner {
    match use
    case MessageText(id, parent) => Literal("}", Complete(MessageRecord(SessionEntry(id, parent, text))))
    case LaneName => Literal(",\"head\":", OtherId(HeadOf(text), None))
  }

  function Step(s: Scanner, c: char): Scanner {
    match s
    case Start => if c == '{' then Brace else Fail
    case Brace => if c == '"' then Quote else Fail
    case Quote =>
      if c == 'i' then Literal("d\":", OwnId(None))
      else if c == 'l' then Literal("ane_id\":\"", Text(LaneName, ""))
      else Fail
    case Literal(left, next) =>
      if left == [] || c != left[0] then Fail
      else if |left| == 1 then next
      else Literal(left[1..], next)
    case OwnId(read) =>
      if IsDigit(c) then (if MoreDigits(read, c).Some? then OwnId(MoreDigits(read, c)) else Fail)
      else if read.Some? && c == ',' then Literal("\"parent_id\":", OtherId(ParentOf(read.value), None))
      else Fail
    case OtherId(use, read) =>
      if IsDigit(c) then (if MoreDigits(read, c).Some? then OtherId(use, MoreDigits(read, c)) else Fail)
      else if read.Some? then AfterId(use, read, c)
      else if c == 'n' then Literal("ull", Null(use))
      else Fail
    case Null(use) => AfterId(use, None, c)
    case Text(use, acc) =>
      if c == '"' then AfterText(use, acc)
      else if c == '\\' then Escaped(use, acc)
      else if c == '\n' || c == '\r' then Fail
      else Text(use, acc + [c])
    case Escaped(use, acc) =>
      if c == '"' || c == '\\' then Text(use, acc + [c])
      else if c == 'n' then Text(use, acc + ['\n'])
      else if c == 'r' then Text(use, acc + ['\r'])
      else Fail
    case Complete(_) => Fail
    case Fail => Fail
  }

  function Scan(s: Scanner, text: string): Scanner
    decreases |text|
  {
    if text == [] then s else Scan(Step(s, text[0]), text[1..])
  }

  function Decode(line: string): Option<SessionRecord> {
    match Scan(Start, line)
    case Complete(r) => Some(r)
    case _ => None
  }

  // ---------------------------------------------------------------------------------------
  // Scanning in pieces
  // ---------------------------------------------------------------------------------------

  lemma {:induction false} ScanSplit(s: Scanner, a: string, b: string)
    ensures Scan(s, a + b) == Scan(Scan(s, a), b)
    decreases |a|
  {
    if a == [] {
      assert a + b == b;
    } else {
      assert (a + b)[1..] == a[1..] + b;
      ScanSplit(Step(s, a[0]), a[1..], b);
    }
  }

  lemma ScanOne(s: Scanner, c: char)
    ensures Scan(s, [c]) == Step(s, c)
  {
    assert [c][1..] == [];
    assert Scan(Step(s, c), []) == Step(s, c);
  }

  lemma Assoc(a: string, b: string, c: string)
    ensures (a + b) + c == a + (b + c)
  {
  }

  lemma {:induction false} ScanFail(text: string)
    ensures Scan(Fail, text) == Fail
    decreases |text|
  {
    if text != [] { ScanFail(text[1..]); }
  }

  lemma {:induction false} ScanLiteral(lit: string, next: Scanner, rest: string)
    requires lit != []
    ensures Scan(Literal(lit, next), lit + rest) == Scan(next, rest)
    decreases |lit|
  {
    assert (lit + rest)[1..] == lit[1..] + rest;
    if |lit| == 1 {
      assert lit[1..] + rest == rest;
    } else {
      ScanLiteral(lit[1..], next, rest);
    }
  }

  lemma {:induction false} ScanOwnId(n: nat)
    requires n <= U64_MAX
    ensures Scan(OwnId(None), PrintNat(n)) == OwnId(Some(n))
    decreases n
  {
    if n < 10 {
      ScanOne(OwnId(None), DigitChar(n));
    } else {
      ScanOwnId(n / 10);
      ScanSplit(OwnId(None), PrintNat(n / 10), [DigitChar(n % 10)]);
      ScanOne(OwnId(Some(n / 10)), DigitChar(n % 10));
    }
  }

  lemma {:induction false} ScanOtherNumber(use: IdUse, n: nat)
    requires n <= U64_MAX
    ensures Scan(OtherId(use, None), PrintNat(n)) == OtherId(use, Some(n))
    decreases n
  {
    if n < 10 {
      ScanOne(OtherId(use, None), DigitChar(n));
    } else {
      ScanOtherNumber(use, n / 10);
      ScanSplit(OtherId(use, None), PrintNat(n / 10), [DigitChar(n % 10)]);
      ScanOne(OtherId(use, Some(n / 10)), DigitChar(n % 10));
    }
  }

  /** After a printed id, the next character closes it. */
  lemma ScanOtherId(use: IdUse, id: Option<NodeId>, c: char, rest: string)
    requires Fits(id) && !IsDigit(c)
    ensures Scan(OtherId(use, None), PrintId(id) + ([c] + rest)) == Scan(AfterId(use, id, c), rest)
  {
    ScanSplit(OtherId(use, None), PrintId(id), [c] + rest);
    assert ([c] + rest)[1..] == rest;
    match id
    case None =>
      assert "null" == "n" + "ull";
      ScanOne(OtherId(use, None), 'n');
      ScanSplit(OtherId(use, None), "n", "ull");
      ScanLiteral("ull", Null(use), []);
      assert "ull" + [] == "ull";
    case Some(n) => ScanOtherNumber(use, n);
  }

  lemma {:induction false} ScanText(use: StringUse, acc: string, s: string, rest: string)
    ensures Scan(Text(use, acc), Escape(s) + rest) == Scan(Text(use, acc + s), rest)
    decreases |s|
  {
    if s == [] {
      assert Escape(s) + rest == rest;
      assert acc + s == acc;
    } else {
      var e := EscapeChar(s[0]);
      assert Escape(s) + rest == e + (Escape(s[1..]) + rest);
      ScanSplit(Text(use, acc), e, Escape(s[1..]) + rest);
      if |e| == 1 {
        ScanOne(Text(use, acc), s[0]);
      } else {
        assert e == ['\\'] + [e[1]];
        ScanSplit(Text(use, acc), ['\\'], [e[1]]);
        ScanOne(Text(use, acc), '\\');
        ScanOne(Escaped(use, acc), e[1]);
      }
      ScanText(use, acc + [s[0]], s[1..], rest);
      assert acc + [s[0]] + s[1..] == acc + s;
    }
  }

  lemma ThroughOwnId(id: nat, rest: string)
    requires id <= U64_MAX
    ensures Scan(OwnId(None), PrintNat(id) + (",\"parent_id\":" + rest)) == Scan(OtherId(ParentOf(id), None), rest)
  {
    ScanSplit(OwnId(None), PrintNat(id), ",\"parent_id\":" + rest);
    ScanOwnId(id);
    assert "," + "\"parent_id\":" == ",\"parent_id\":";
    Assoc(",", "\"parent_id\":", rest);
    ScanSplit(OwnId(Some(id)), ",", "\"parent_id\":" + rest);
    ScanOne(OwnId(Some(id)), ',');
    ScanLiteral("\"parent_id\":", OtherId(ParentOf(id), None), rest);
  }

  lemma ThroughParent(id: nat, parent: Option<NodeId>, rest: string)
    requires Fits(parent)
    ensures Scan(OtherId(ParentOf(id), None), PrintId(parent) + (",\"message\":\"" + rest))
         == Scan(Text(MessageText(id, parent), ""), rest)
  {
    assert [','] + "\"message\":\"" == ",\"message\":\"";
    Assoc([','], "\"message\":\"", rest);
    ScanOtherId(ParentOf(id), parent, ',', "\"message\":\"" + rest);
    ScanLiteral("\"message\":\"", Text(MessageText(id, parent), ""), rest);
  }

  lemma ThroughLane(lane: LaneId, rest: string)
    ensures Scan(Text(LaneName, ""), Escape(lane) + ("\",\"head\":" + rest)) == Scan(OtherId(HeadOf(lane), None), rest)
  {
    ScanText(LaneName, "", lane, "\",\"head\":" + rest);
    assert "" + lane == lane;
    assert "\"" + ",\"head\":" == "\",\"head\":";
    Assoc("\"", ",\"head\":", rest);
    ScanSplit(Text(LaneName, lane), "\"", ",\"head\":" + rest);
    ScanOne(Text(LaneName, lane), '"');
    ScanLiteral(",\"head\":", OtherId(HeadOf(lane), None), rest);
  }

  lemma ThroughHead(lane: LaneId, head: Option<NodeId>)
    requires Fits(head)
    ensures Scan(OtherId(HeadOf(lane), None), PrintId(head) + "}") == Complete(HeadRecord(lane, head))
  {
    assert "}" == ['}'] + [];
    ScanOtherId(HeadOf(lane), head, '}', []);
  }

  /** Scanning an encoded record ends exactly at its last character, with the record. */
  lemma ScanEncoded(r: SessionRecord)
    requires Storable(r)
    ensures Scan(Start, Encode(r)) == Complete(r)
  {
    match r
    case MessageRecord(e) =>
      var e1 := Escape(e.message) + "\"}";
      var e2 := PrintId(e.parentId) + (",\"message\":\"" + e1);
      OpensMessage(PrintNat(e.id) + (",\"parent_id\":" + e2));
      ThroughOwnId(e.id, e2);
      ThroughParent(e.id, e.parentId, e1);
      ScanText(MessageText(e.id, e.parentId), "", e.message, "\"}");
      assert "" + e.message == e.message;
      CloseMessage(e);
    case HeadRecord(lane, head) =>
      var e1 := PrintId(head) + "}";
      OpensHead(Escape(lane) + ("\",\"head\":" + e1));
      ThroughLane(lane, e1);
      ThroughHead(lane, head);
  }

  lemma OpensMessage(rest: string)
    ensures Scan(Start, "{\"id\":" + rest) == Scan(OwnId(None), rest)
  {
    assert "{" + ("\"" + ("i" + "d\":")) == "{\"id\":";
    Assoc("{", "\"" + ("i" + "d\":"), rest);
    Assoc("\"", "i" + "d\":", rest);
    Assoc("i", "d\":", rest);
    ScanSplit(Start, "{", "\"" + ("i" + ("d\":" + rest)));
    ScanOne(Start, '{');
    ScanSplit(Brace, "\"", "i" + ("d\":" + rest));
    ScanOne(Brace, '"');
    ScanSplit(Quote, "i", "d\":" + rest);
    ScanOne(Quote, 'i');
    ScanLiteral("d\":", OwnId(None), rest);
  }

  lemma OpensHead(rest: string)
    ensures Scan(Start, "{\"lane_id\":\"" + rest) == Scan(Text(LaneName, ""), rest)
  {
    assert "{" + ("\"" + ("l" + "ane_id\":\"")) == "{\"lane_id\":\"";
    Assoc("{", "\"" + ("l" + "ane_id\":\""), rest);
    Assoc("\"", "l" + "ane_id\":\"", rest);
    Assoc("l", "ane_id\":\"", rest);
    ScanSplit(Start, "{", "\"" + ("l" + ("ane_id\":\"" + rest)));
    ScanOne(Start, '{');
    ScanSplit(Brace, "\"", "l" + ("ane_id\":\"" + rest));
    ScanOne(Brace, '"');
    ScanSplit(Quote, "l", "ane_id\":\"" + rest);
    ScanOne(Quote, 'l');
    ScanLiteral("ane_id\":\"", Text(LaneName, ""), rest);
  }

  lemma CloseMessage(e: SessionEntry)
    ensures Scan(Text(MessageText(e.id, e.parentId), e.message), "\"}") == Complete(MessageRecord(e))
  {
    var s := Text(MessageText(e.id, e.parentId), e.message);
    assert "\"}" == "\"" + "}";
    ScanSplit(s, "\"", "}");
    ScanOne(s, '"');
    ScanOne(AfterText(s.stringUse, s.acc), '}');
  }

  // ---------------------------------------------------------------------------------------
  // What the file relies on
  // ---------------------------------------------------------------------------------------

  /** Decoding inverts encoding. */
  lemma RoundTrip(r: SessionRecord)
    requires Storable(r)
    ensures Decode(Encode(r)) == Some(r)
  {
    ScanEncoded(r);
  }

  /** A line cut anywhere before its end does not decode. */
  lemma NoProperPrefixDecodes(r: SessionRecord, cut: nat)
    requires Storable(r) && cut < |Encode(r)|
    ensures Decode(Encode(r)[..cut]) == None
  {
    var line := Encode(r);
    assert line == line[..cut] + line[cut..];
    ScanSplit(Start, line[..cut], line[cut..]);
    ScanEncoded(r);
    ScanFail(line[cut..][1..]);
  }

  /** The shape of every scanner reached from Start: expected literals contain no brace that opens a record. */
  ghost predicate Plain(s: Scanner) {
    s.Literal? ==> s.left != [] && '{' !in s.left && !s.next.Start? && Plain(s.next)
  }

  lemma AfterIdIsPlain(use: IdUse, id: Option<NodeId>, c: char)
    ensures Plain(AfterId(use, id, c)) && !AfterId(use, id, c).Start?
  {
  }

  lemma AfterTextIsPlain(use: StringUse, text: string)
    ensures Plain(AfterText(use, text)) && !AfterText(use, text).Start?
  {
  }

  lemma AfterQuoteIsPlain(c: char)
    ensures Plain(Step(Quote, c)) && !Step(Quote, c).Start?
  {
  }

  lemma StepStaysPlain(s: Scanner, c: char)
    requires Plain(s)
    ensures Plain(Step(s, c)) && !Step(s, c).Start?
  {
    hide AfterId, AfterText, MoreDigits;
    match s
    case Quote => AfterQuoteIsPlain(c);
    case OtherId(use, read) => AfterIdIsPlain(use, read, c);
    case Null(use) => AfterIdIsPlain(use, None, c);
    case Text(use, acc) => AfterTextIsPlain(use, acc);
    case _ =>
  }

  lemma {:induction false} ScanStaysPlain(s: Scanner, text: string)
    requires Plain(s)
    ensures Plain(Scan(s, text))
    ensures text != [] ==> !Scan(s, text).Start?
    decreases |text|
  {
    if text != [] {
      StepStaysPlain(s, text[0]);
      hide Step, Plain;
      ScanStaysPlain(Step(s, text[0]), text[1..]);
    }
  }

  /** Where a record is cut, the scanner is inside the line. */
  lemma CutIsMidLine(r: SessionRecord, cut: nat)
    requires Storable(r) && 0 < cut < |Encode(r)|
    ensures var s := Scan(Start, Encode(r)[..cut]); Plain(s) && !s.Start? && !s.Complete? && !s.Fail?
  {
    var line := Encode(r);
    assert line == line[..cut] + line[cut..];
    ScanSplit(Start, line[..cut], line[cut..]);
    ScanEncoded(r);
    ScanFail(line[cut..]);
    ScanFail(line[cut..][1..]);
    ScanStaysPlain(Start, line[..cut]);
  }

  /** A record glued onto a cut record never decodes: the cut is not undone by what follows. */
  lemma GluedNeverDecodes(r: SessionRecord, cut: nat, next: SessionRecord)
    requires Storable(r) && 0 < cut < |Encode(r)|
    ensures Decode(Encode(r)[..cut] + Encode(next)) == None
  {
    CutIsMidLine(r, cut);
    var s := Scan(Start, Encode(r)[..cut]);
    ScanSplit(Start, Encode(r)[..cut], Encode(next));
    OpeningFails(s, next);
  }

  lemma OpeningFails(s: Scanner, next: SessionRecord)
    requires Plain(s) && !s.Start?
    ensures Scan(s, Encode(next)) == Fail
  {
    var line := Encode(next);
    assert line[0] == '{' && line[1] == '"' && (line[2] == 'i' || line[2] == 'l');
    OpeningStepsFail(s, line[2]);
    hide Encode, Step;
    ScanStep(s, line);
    ScanStep(Step(s, '{'), line[1..]);
    ScanStep(Step(Step(s, '{'), '"'), line[2..]);
    assert line[1..][1..] == line[2..];
    ScanFail(line[2..][1..]);
  }

  lemma ScanStep(s: Scanner, text: string)
    requires text != []
    ensures Scan(s, text) == Scan(Step(s, text[0]), text[1..])
  {
  }

  /** Inside a line no state goes along with the opening of another. */
  lemma OpeningStepsFail(s: Scanner, c: char)
    requires Plain(s) && !s.Start? && (c == 'i' || c == 'l')
    ensures Step(Step(Step(s, '{'), '"'), c) == Fail
  {
  }

  /** Inside a line that is no whole record: a state no later record on the same line can bring to an end. */
  ghost predicate Stuck(s: Scanner) {
    Plain(s) && !s.Start? && !s.Complete?
  }

  lemma OpeningStepsStick(s: Scanner)
    requires Stuck(s)
    ensures Stuck(Step(s, '{')) && Stuck(Step(Step(s, '{'), '"'))
  {
    StepStaysPlain(s, '{');
    StepStaysPlain(Step(s, '{'), '"');
    hide Plain;
  }

  /** However much of a record is written behind such a line, the line stays unreadable. */
  lemma PrefixSticks(s: Scanner, next: SessionRecord, n: nat)
    requires Stuck(s) && n <= |Encode(next)|
    ensures Stuck(Scan(s, Encode(next)[..n]))
  {
    var line := Encode(next);
    assert line[0] == '{' && line[1] == '"' && (line[2] == 'i' || line[2] == 'l');
    OpeningStepsStick(s);
    OpeningStepsFail(s, line[2]);
    hide Encode, Step, Plain;
    var piece := line[..n];
    if n > 0 {
      ScanStep(s, piece);
      var s1 := Step(s, '{');
      if n == 1 {
        assert piece[1..] == [];
      } else {
        ScanStep(s1, piece[1..]);
        var s2 := Step(s1, '"');
        if n == 2 {
          assert piece[1..][1..] == [];
        } else {
          ScanStep(s2, piece[1..][1..]);
          ScanFail(piece[1..][1..][1..]);
        }
      }
    }
  }

  /** Such a line. */
  ghost predicate Spoilt(line: string) {
    Stuck(Scan(Start, line))
  }

  lemma SpoiltStays(line: string, next: SessionRecord, n: nat)
    requires Spoilt(line) && n <= |Encode(next)|
    ensures line != "" && Decode(line).None? && Spoilt(line + Encode(next)[..n])
  {
    ScanSplit(Start, line, Encode(next)[..n]);
    PrefixSticks(Scan(Start, line), next, n);
  }

  /** A whole record with part of another behind it on the line is such a line too. */
  lemma RecordThenMoreSpoils(r: SessionRecord, next: SessionRecord, n: nat)
    requires Storable(r) && 0 < n <= |Encode(next)|
    ensures Spoilt(Encode(r) + Encode(next)[..n])
  {
    ScanSplit(Start, Encode(r), Encode(next)[..n]);
    ScanEncoded(r);
    ScanFail(Encode(next)[..n][1..]);
  }

  /** Two encoded records on one line never decode either. */
  lemma TwoRecordsNeverDecode(r: SessionRecord, next: SessionRecord)
    requires Storable(r)
    ensures Decode(Encode(r) + Encode(next)) == None
  {
    ScanSplit(Start, Encode(r), Encode(next));
    ScanEncoded(r);
    ScanFail(Encode(next)[1..]);
  }

  // ---------------------------------------------------------------------------------------
  // An encoded record stays on one line
  // ---------------------------------------------------------------------------------------

  lemma {:induction false} EscapeOneLine(s: string)
    ensures OneLine(Escape(s))
  {
    if s != [] { EscapeOneLine(s[1..]); }
  }

  lemma {:induction false} NatOneLine(n: nat)
    ensures OneLine(PrintNat(n))
    decreases n
  {
    if n >= 10 { NatOneLine(n / 10); }
  }

  lemma OneLineJoin(a: string, b: string)
    requires OneLine(a) && OneLine(b)
    ensures OneLine(a + b)
  {
  }

  lemma EncodeOneLine(r: SessionRecord)
    ensures OneLine(Encode(r)) && Encode(r) != []
  {
    match r
    case MessageRecord(e) =>
      NatOneLine(e.id);
      if e.parentId.Some? { NatOneLine(e.parentId.value); }
      EscapeOneLine(e.message);
      var e1 := Escape(e.message) + "\"}";
      var e2 := ",\"message\":\"" + e1;
      var e3 := ",\"parent_id\":" + (PrintId(e.parentId) + e2);
      OneLineJoin(",\"message\":\"", e1);
      OneLineJoin(PrintId(e.parentId), e2);
      OneLineJoin(",\"parent_id\":", PrintId(e.parentId) + e2);
      OneLineJoin(PrintNat(e.id), e3);
      OneLineJoin("{\"id\":", PrintNat(e.id) + e3);
    case HeadRecord(lane, head) =>
      EscapeOneLine(lane);
      if head.Some? { NatOneLine(head.value); }
      var e1 := "\",\"head\":" + (PrintId(head) + "}");
      OneLineJoin(PrintId(head), "}");
      OneLineJoin("\",\"head\":", PrintId(head) + "}");
      OneLineJoin(Escape(lane), e1);
      OneLineJoin("{\"lane_id\":\"", Escape(lane) + e1);
  }
}
