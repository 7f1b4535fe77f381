/**
 The incremental parser of server-sent events (src/adapters/sse.rs), after section 9.2.6 of the WHATWG HTML
 Standard, except that a lone CR does not end a line and an event without data is still emitted.

 A byte is a character here; `decode` is what makes text of the bytes of one whole line.
 */
module Sse {
  import opened Wrappers

  datatype SseEvent = Named(event: string, data: string) | Data(data: string) | Done

  type Decoding = string -> string

  const END_MARK := "[DONE]"

  /** The fields of the event under way. */
  datatype Fields = Fields(data: seq<string>, event: Option<string>)

  /** The bytes of the unfinished line, and those fields. */
  datatype State = State(buffer: string, fields: Fields)

  const NoFields := Fields([], None)
  const Fresh := State("", NoFields)

  // ---------------------------------------------------------------------------------------
  // One line
  // ---------------------------------------------------------------------------------------

  function Join(lines: seq<string>): string {
    if lines == [] then ""
    else if |lines| == 1 then lines[0]
    else lines[0] + "\n" + Join(lines[1..])
  }

  function Flushed(f: Fields): Option<SseEvent> {
    if f == NoFields then None
    else if Join(f.data) == END_MARK then Some(Done)
    else if f.event.Some? then Some(Named(f.event.value, Join(f.data)))
    else Some(Data(Join(f.data)))
  }

  /** The place of the first c, or the length. */
  function Find(s: string, c: char): (r: nat)
    ensures r <= |s|
    ensures r < |s| ==> s[r] == c
    ensures forall i :: 0 <= i < r ==> s[i] != c
  {
    if s == "" then 0
    else if s[0] == c then 0
    else 1 + Find(s[1..], c)
  }

  function WithoutCr(line: string): string {
    if line != "" && line[|line| - 1] == '\r' then line[..|line| - 1] else line
  }

  /** What follows the colon, less one space. */
  function ValueOf(text: string): string {
    var at := Find(text, ':');
    if at == |text| then ""
    else
      var rest := text[at + 1..];
      if rest != "" && rest[0] == ' ' then rest[1..] else rest
  }

  function AfterLine(f: Fields, text: string): Fields {
    if text == "" then NoFields
    else if text[0] == ':' then f
    else
      var field := text[..Find(text, ':')];
      if field == "data" then f.(data := f.data + [ValueOf(text)])
      else if field == "event" then f.(event := Some(ValueOf(text)))
      else f
  }

  function EmittedBy(f: Fields, text: string): seq<SseEvent> {
    if text == "" && Flushed(f).Some? then [Flushed(f).value] else []
  }

  // ---------------------------------------------------------------------------------------
  // A stream
  // ---------------------------------------------------------------------------------------

  function LineAt(decode: Decoding, bytes: string, at: nat): string
    requires at <= |bytes|
  {
    decode(WithoutCr(bytes[..at]))
  }

  predicate HasLine(s: State) {
    Find(s.buffer, '\n') < |s.buffer|
  }

  function FirstLine(decode: Decoding, s: State): string
    requires HasLine(s)
  {
    LineAt(decode, s.buffer, Find(s.buffer, '\n'))
  }

  /** The state after the first finished line of the buffer is taken out and processed. */
  function Stepped(decode: Decoding, s: State): (r: State)
    requires HasLine(s)
    ensures |r.buffer| < |s.buffer|
  {
    State(s.buffer[Find(s.buffer, '\n') + 1..], AfterLine(s.fields, FirstLine(decode, s)))
  }

  /** Takes every finished line out of the buffer. */
  function Drained(decode: Decoding, s: State): State
    decreases |s.buffer|
  {
    if HasLine(s) then Drained(decode, Stepped(decode, s)) else s
  }

  function DrainedEvents(decode: Decoding, s: State): seq<SseEvent>
    decreases |s.buffer|
  {
    if HasLine(s) then EmittedBy(s.fields, FirstLine(decode, s)) + DrainedEvents(decode, Stepped(decode, s)) else []
  }

  function Buffered(s: State, chunk: string): State {
    s.(buffer := s.buffer + chunk)
  }

  function Fed(decode: Decoding, s: State, chunk: string): State {
    Drained(decode, Buffered(s, chunk))
  }

  function FedEvents(decode: Decoding, s: State, chunk: string): seq<SseEvent> {
    DrainedEvents(decode, Buffered(s, chunk))
  }

  /** The events of the end of the stream: the last line, if unfinished, and the event under way. */
  function FinishEvents(decode: Decoding, s: State): seq<SseEvent> {
    if s.buffer == "" then EmittedBy(s.fields, "")
    else
      var text := LineAt(decode, s.buffer, |s.buffer|);
      EmittedBy(s.fields, text) + EmittedBy(AfterLine(s.fields, text), "")
  }

  // ---------------------------------------------------------------------------------------
  // Chunks do not matter
  // ---------------------------------------------------------------------------------------

  lemma FindInFront(a: string, b: string, c: char)
    requires Find(a, c) < |a|
    ensures Find(a + b, c) == Find(a, c)
  {
    var i, j := Find(a, c), Find(a + b, c);
    assert (a + b)[i] == c;
    if j < i { assert a[j] == (a + b)[j]; }
  }

  lemma DrainStep(decode: Decoding, s: State)
    requires HasLine(s)
    ensures Drained(decode, s) == Drained(decode, Stepped(decode, s))
    ensures DrainedEvents(decode, s)
        == EmittedBy(s.fields, FirstLine(decode, s)) + DrainedEvents(decode, Stepped(decode, s))
  {
  }

  lemma DrainEnds(decode: Decoding, s: State)
    requires !HasLine(s)
    ensures Drained(decode, s) == s && DrainedEvents(decode, s) == []
  {
  }

  /** The first line is the same whatever follows it. */
  lemma StepIgnoresMore(decode: Decoding, s: State, more: string)
    requires HasLine(s)
    ensures HasLine(Buffered(s, more))
    ensures FirstLine(decode, Buffered(s, more)) == FirstLine(decode, s)
    ensures Stepped(decode, Buffered(s, more)) == Buffered(Stepped(decode, s), more)
  {
    var at := Find(s.buffer, '\n');
    FindInFront(s.buffer, more, '\n');
    hide Find, AfterLine, WithoutCr;
    assert (s.buffer + more)[..at] == s.buffer[..at];
    assert (s.buffer + more)[at + 1..] == s.buffer[at + 1..] + more;
  }

  /** Draining a buffer before or after more bytes arrive comes to the same. */
  lemma {:induction false} DrainSplits(decode: Decoding, s: State, more: string)
    ensures Drained(decode, Buffered(Drained(decode, s), more)) == Drained(decode, Buffered(s, more))
    ensures DrainedEvents(decode, Buffered(s, more))
        == DrainedEvents(decode, s) + DrainedEvents(decode, Buffered(Drained(decode, s), more))
    decreases |s.buffer|
  {
    hide HasLine, FirstLine, Stepped, EmittedBy;
    if HasLine(s) {
      StepIgnoresMore(decode, s, more);
      DrainSplits(decode, Stepped(decode, s), more);
    }
  }

  function FedAll(decode: Decoding, s: State, chunks: seq<string>): State
    decreases |chunks|
  {
    if chunks == [] then s else FedAll(decode, Fed(decode, s, chunks[0]), chunks[1..])
  }

  function FedAllEvents(decode: Decoding, s: State, chunks: seq<string>): seq<SseEvent>
    decreases |chunks|
  {
    if chunks == [] then []
        else FedEvents(decode, s, chunks[0]) + FedAllEvents(decode, Fed(decode, s, chunks[0]), chunks[1..])
  }

  function Concat(chunks: seq<string>): string {
    if chunks == [] then "" else chunks[0] + Concat(chunks[1..])
  }

  /** No finished line waits in the buffer of a parser that has been fed. */
  lemma {:induction false} DrainedIsDry(decode: Decoding, s: State)
    ensures !HasLine(Drained(decode, s))
    decreases |s.buffer|
  {
    hide HasLine, Stepped;
    if HasLine(s) {
      DrainedIsDry(decode, Stepped(decode, s));
    }
  }

  /**
   However a stream is cut into chunks, the parser ends in the state and gives the events of the whole stream fed at
   once.
   */
  lemma {:induction false} ChunksDoNotMatter(decode: Decoding, s: State, chunks: seq<string>)
    requires !HasLine(s)
    ensures FedAll(decode, s, chunks) == Fed(decode, s, Concat(chunks))
    ensures FedAllEvents(decode, s, chunks) == FedEvents(decode, s, Concat(chunks))
    decreases |chunks|
  {
    hide HasLine, Stepped, FirstLine;
    if chunks == [] {
      assert s.buffer + "" == s.buffer;
    } else {
      var rest := Concat(chunks[1..]);
      DrainedIsDry(decode, Buffered(s, chunks[0]));
      ChunksDoNotMatter(decode, Fed(decode, s, chunks[0]), chunks[1..]);
      DrainSplits(decode, Buffered(s, chunks[0]), rest);
      assert s.buffer + chunks[0] + rest == s.buffer + (chunks[0] + rest);
    }
  }

  /** From a fresh parser to the end of the stream. */
  lemma ChunksDoNotMatterToTheEnd(decode: Decoding, chunks: seq<string>)
    ensures FedAllEvents(decode, Fresh, chunks) + FinishEvents(decode, FedAll(decode, Fresh, chunks))
         == FedEvents(decode, Fresh, Concat(chunks)) + FinishEvents(decode, Fed(decode, Fresh, Concat(chunks)))
  {
    ChunksDoNotMatter(decode, Fresh, chunks);
  }

  /**
   The end of the stream: an unfinished line gives what it would give with its newline, and then the event under way is
   given as by a blank line.
   */
  lemma EndIsNewline(decode: Decoding, s: State)
    requires !HasLine(s) && decode("") == ""
    ensures s.buffer == "" ==> FinishEvents(decode, s) == FedEvents(decode, s, "\n")
    ensures s.buffer != ""
        ==> FinishEvents(decode, s) == FedEvents(decode, s, "\n") + FedEvents(decode, Fed(decode, s, "\n"), "\n")
  {
    EndedLine(decode, s.buffer, s.fields);
    if s.buffer != "" {
      var f := AfterLine(s.fields, LineAt(decode, s.buffer, |s.buffer|));
      EndedLine(decode, "", f);
    }
    hide Find, AfterLine, EmittedBy, WithoutCr, FinishEvents;
    assert FinishEvents(decode, s) == FinishEvents(decode, State(s.buffer, s.fields));
    hide Drained, DrainedEvents, LineAt;
    FinishIs(decode, s);
    assert WithoutCr("") == "" by { BlankIsBlank(); }
    assert [] + "\n" == "\n";
  }

  lemma BlankIsBlank()
    ensures WithoutCr("") == ""
  {
  }

  lemma FinishIs(decode: Decoding, s: State)
    ensures s.buffer == "" ==> FinishEvents(decode, s) == EmittedBy(s.fields, "")
    ensures s.buffer != "" ==>
              var text := LineAt(decode, s.buffer, |s.buffer|);
              FinishEvents(decode, s) == EmittedBy(s.fields, text) + EmittedBy(AfterLine(s.fields, text), "")
  {
  }

  /** A buffer without a newline, fed one. */
  lemma EndedLine(decode: Decoding, buffer: string, f: Fields)
    requires Find(buffer, '\n') == |buffer|
    ensures var text := LineAt(decode, buffer, |buffer|);
      && Fed(decode, State(buffer, f), "\n") == State("", AfterLine(f, text))
      && FedEvents(decode, State(buffer, f), "\n") == EmittedBy(f, text)
  {
    hide Drained, DrainedEvents, Stepped, FirstLine, EmittedBy, AfterLine, LineAt, HasLine;
    var s := State(buffer + "\n", f);
    assert Buffered(State(buffer, f), "\n") == s;
    SteppedAtEnd(decode, buffer, f);
    DrainStep(decode, s);
    NoLineLeft(AfterLine(f, LineAt(decode, buffer, |buffer|)));
    DrainEnds(decode, Stepped(decode, s));
    assert EmittedBy(f, FirstLine(decode, s)) + [] == EmittedBy(f, FirstLine(decode, s));
  }

  lemma NoLineLeft(f: Fields)
    ensures !HasLine(State("", f))
  {
  }

  lemma SteppedAtEnd(decode: Decoding, buffer: string, f: Fields)
    requires Find(buffer, '\n') == |buffer|
    ensures var s, text := State(buffer + "\n", f), LineAt(decode, buffer, |buffer|);
      HasLine(s) && FirstLine(decode, s) == text && Stepped(decode, s) == State("", AfterLine(f, text))
  {
    NewlineAt(buffer);
    hide Find, AfterLine, WithoutCr;
    var all := buffer + "\n";
    assert all[..|buffer|] == buffer == buffer[..|buffer|] && all[|buffer| + 1..] == "";
  }

  lemma NewlineAt(buffer: string)
    requires Find(buffer, '\n') == |buffer|
    ensures Find(buffer + "\n", '\n') == |buffer|
  {
    var all := buffer + "\n";
    assert all[|buffer|] == '\n';
    forall i | 0 <= i < |buffer| ensures all[i] != '\n' { assert all[i] == buffer[i]; }
  }

  /** What one field line does: data adds a line, an event line sets the name, any other field does nothing. */
  function WithField(f: Fields, name: string, value: string): Fields {
    if name == "data" then f.(data := f.data + [value])
    else if name == "event" then f.(event := Some(value))
    else f
  }

  /**
   Every form of a line: a blank one ends the event, a comment does nothing, and a field has its value behind the colon,
   less one space if there is one, or none without a colon. Only a blank line gives an event, and only one that has
   fields.
   */
  lemma LineForms(f: Fields, name: string, value: string)
    ensures AfterLine(f, "") == NoFields && EmittedBy(f, "") == (if f == NoFields then [] else [EventOf(f)])
    ensures AfterLine(f, ":" + value) == f && EmittedBy(f, ":" + value) == []
    ensures name != "" && ':' !in name ==>
              && AfterLine(f, name) == WithField(f, name, "") && EmittedBy(f, name) == []
              && AfterLine(f, name + ": " + value) == WithField(f, name, value)
              && EmittedBy(f, name + ": " + value) == []
              && (value == "" || value[0] != ' ' ==>
                    AfterLine(f, name + ":" + value) == WithField(f, name, value)
                        && EmittedBy(f, name + ":" + value) == [])
  {
    if name != "" && ':' !in name {
      ColonAfter(name, " " + value);
      ColonAfter(name, value);
      NoColon(name);
      assert name + ": " + value == name + (":" + (" " + value));
      assert name + ":" + value == name + (":" + value);
      assert (" " + value)[1..] == value;
      assert name[..|name|] == name;
    }
  }

  /** The event that these fields make: the end mark, or the lines of data joined, under the name if there is one. */
  function EventOf(f: Fields): SseEvent {
    var data := Join(f.data);
    if data == END_MARK then Done else if f.event.Some? then Named(f.event.value, data) else Data(data)
  }

  lemma NoColon(name: string)
    requires ':' !in name
    ensures Find(name, ':') == |name|
  {
  }

  lemma ColonAfter(name: string, rest: string)
    requires ':' !in name
    ensures var text := name + (":" + rest);
      Find(text, ':') == |name| && text[..|name|] == name && text[|name| + 1..] == rest
  {
    var text := name + (":" + rest);
    assert text[|name|] == ':';
    forall i | 0 <= i < |name| ensures text[i] != ':' { assert text[i] == name[i]; }
  }

  // ---------------------------------------------------------------------------------------
  // Printing and parsing back
  // ---------------------------------------------------------------------------------------

  function Split(text: string): (r: seq<string>)
    ensures r != []
    decreases |text|
  {
    var at := Find(text, '\n');
    if at == |text| then [text] else [text[..at]] + Split(text[at + 1..])
  }

  function FieldLine(name: string, value: string): string {
    name + ": " + value
  }

  function DataLines(lines: seq<string>): string {
    if lines == [] then "" else FieldLine("data", lines[0]) + "\n" + DataLines(lines[1..])
  }

  function Print(e: SseEvent): string {
    match e
    case Named(event, data) => FieldLine("event", event) + "\n" + DataLines(Split(data)) + "\n"
    case Data(data) => DataLines(Split(data)) + "\n"
    case Done => DataLines([END_MARK]) + "\n"
  }

  predicate EndsInCr(line: string) {
    line != "" && line[|line| - 1] == '\r'
  }

  /** No line of the data ends in CR, neither does the event name, and the data is not the end mark. */
  predicate Printable(e: SseEvent) {
    match e
    case Named(event, data) =>
      !EndsInCr(event) && data != END_MARK && forall line :: line in Split(data) ==> !EndsInCr(line)
    case Data(data) => data != END_MARK && forall line :: line in Split(data) ==> !EndsInCr(line)
    case Done => true
  }

  predicate NoNewline(s: string) {
    Find(s, '\n') == |s|
  }

  predicate NameIsOneLine(e: SseEvent) {
    e.Named? ==> NoNewline(e.event)
  }

  lemma {:induction false} SplitJoins(text: string)
    ensures Join(Split(text)) == text
    ensures forall line :: line in Split(text) ==> NoNewline(line)
    decreases |text|
  {
    var at := Find(text, '\n');
    if at < |text| {
      var rest := text[at + 1..];
      SplitJoins(rest);
      assert NoNewline(text[..at]);
      hide Find, NoNewline;
      assert text == text[..at] + "\n" + rest;
      assert Split(text) == [text[..at]] + Split(rest);
      assert Split(text)[1..] == Split(rest);
    }
  }

  function Stripped(lines: seq<string>): seq<string> {
    if lines == [] then [] else [WithoutCr(lines[0])] + Stripped(lines[1..])
  }

  lemma {:induction false} StrippedLength(lines: seq<string>)
    ensures |Stripped(lines)| == |lines|
    ensures |Join(Stripped(lines))| <= |Join(lines)|
    ensures |Join(Stripped(lines))| == |Join(lines)| <==> forall line :: line in lines ==> !EndsInCr(line)
    ensures (forall line :: line in lines ==> !EndsInCr(line)) ==> Stripped(lines) == lines
  {
    if lines != [] {
      StrippedLength(lines[1..]);
      assert |WithoutCr(lines[0])| <= |lines[0]|;
      assert |WithoutCr(lines[0])| == |lines[0]| <==> !EndsInCr(lines[0]);
      hide WithoutCr, EndsInCr;
      assert lines == [lines[0]] + lines[1..];
      assert Stripped(lines)[1..] == Stripped(lines[1..]);
      assert forall line :: line in lines <==> line == lines[0] || line in lines[1..];
    }
  }

  /** Line ends shortened, the data stays as it was exactly when no line ended in CR. */
  lemma StrippedJoin(data: string)
    ensures Join(Stripped(Split(data))) == data <==> forall line :: line in Split(data) ==> !EndsInCr(line)
  {
    SplitJoins(data);
    StrippedLength(Split(data));
  }

  ghost predicate Faithful(decode: Decoding) {
    forall s :: decode(s) == s
  }

  /** What a finished line at the front of the buffer comes to. */
  lemma LineParses(decode: Decoding, f: Fields, line: string, more: string)
    requires Faithful(decode) && NoNewline(line)
    ensures var s := State(line + "\n" + more, f);
      var text := WithoutCr(line);
      && Drained(decode, s) == Drained(decode, State(more, AfterLine(f, text)))
      && DrainedEvents(decode, s) == EmittedBy(f, text) + DrainedEvents(decode, State(more, AfterLine(f, text)))
  {
    var bytes := line + "\n" + more;
    assert bytes[|line|] == '\n';
    var at := Find(bytes, '\n');
    assert forall i :: 0 <= i < |line| ==> bytes[i] == line[i] && line[i] != '\n';
    assert at == |line|;
    hide Find, AfterLine, EmittedBy;
    assert bytes[..at] == line && bytes[at + 1..] == more;
  }

  /** A printed field comes back, less a CR at its end. */
  lemma FieldParses(f: Fields, name: string, value: string)
    requires name == "data" || name == "event"
    ensures var text := WithoutCr(FieldLine(name, value));
      && AfterLine(f, text)
          == (if name == "data" then f.(data := f.data + [WithoutCr(value)]) else f.(event := Some(WithoutCr(value))))
      && EmittedBy(f, text) == []
  {
    var line := name + ": " + value;
    assert value == "" || line[|line| - 1] == value[|value| - 1];
    assert WithoutCr(line) == name + ": " + WithoutCr(value);
    var text := name + ": " + WithoutCr(value);
    assert text[|name|] == ':';
    assert forall i :: 0 <= i < |name| ==> text[i] == name[i] && name[i] != ':';
    assert Find(text, ':') == |name|;
    hide Find, WithoutCr;
    assert text[..|name|] == name;
    assert text[|name| + 1..] == " " + WithoutCr(value);
    assert (" " + WithoutCr(value))[1..] == WithoutCr(value);
  }

  lemma FieldIsOneLine(name: string, value: string)
    requires name == "data" || name == "event"
    requires NoNewline(value)
    ensures NoNewline(FieldLine(name, value))
  {
    var line := name + ": " + value;
    assert forall i :: 0 <= i < |name| ==> line[i] == name[i] && name[i] != '\n';
    assert forall i :: |name| + 2 <= i < |line| ==> line[i] == value[i - |name| - 2] && value[i - |name| - 2] != '\n';
    assert forall i :: 0 <= i < |line| ==> line[i] != '\n';
  }

  lemma LineThenMore(line: string, rest: string, more: string)
    ensures (line + "\n" + rest) + more == line + "\n" + (rest + more)
  {
  }

  lemma FirstDataLine(lines: seq<string>, more: string)
    requires lines != []
    ensures DataLines(lines) + more == FieldLine("data", lines[0]) + "\n" + (DataLines(lines[1..]) + more)
    ensures Stripped(lines) == [WithoutCr(lines[0])] + Stripped(lines[1..])
  {
    hide FieldLine, WithoutCr;
    LineThenMore(FieldLine("data", lines[0]), DataLines(lines[1..]), more);
  }

  lemma {:induction false} DataLinesParse(decode: Decoding, f: Fields, lines: seq<string>, more: string)
    requires Faithful(decode) && forall line :: line in lines ==> NoNewline(line)
    ensures var s := State(DataLines(lines) + more, f);
      var after := State(more, f.(data := f.data + Stripped(lines)));
      Drained(decode, s) == Drained(decode, after) && DrainedEvents(decode, s) == DrainedEvents(decode, after)
    decreases |lines|
  {
    hide Find, NoNewline, AfterLine, EmittedBy, WithoutCr, Drained, DrainedEvents, FieldLine;
    if lines == [] {
      assert DataLines(lines) == "" && "" + more == more;
      assert f.data + Stripped(lines) == f.data;
    } else {
      var line := FieldLine("data", lines[0]);
      var rest := DataLines(lines[1..]) + more;
      FirstDataLine(lines, more);
      hide Stripped, DataLines;
      var f' := f.(data := f.data + [WithoutCr(lines[0])]);
      assert lines[0] in lines;
      DataLinesParse(decode, f', lines[1..], more);
      assert f'.data + Stripped(lines[1..]) == f.data + Stripped(lines);
      FieldIsOneLine("data", lines[0]);
      FieldParses(f, "data", lines[0]);
      LineParses(decode, f, line, rest);
    }
  }

  /** The event a printed one is read back as. */
  function ReadBack(e: SseEvent): SseEvent {
    match e
    case Named(event, data) =>
      var data' := Join(Stripped(Split(data)));
      if data' == END_MARK then Done else Named(WithoutCr(event), data')
    case Data(data) =>
      var data' := Join(Stripped(Split(data)));
      if data' == END_MARK then Done else Data(data')
    case Done => Done
  }

  lemma BodyParses(decode: Decoding, event: Option<string>, data: string, more: string)
    requires Faithful(decode)
    ensures var s := State(DataLines(Split(data)) + "\n" + more, Fields([], event));
      var data' := Join(Stripped(Split(data)));
      var e := if data' == END_MARK then Done else if event.Some? then Named(event.value, data') else Data(data');
      && Drained(decode, s) == Drained(decode, State(more, NoFields))
      && DrainedEvents(decode, s) == [e] + DrainedEvents(decode, State(more, NoFields))
  {
    SplitJoins(data);
    StrippedLength(Split(data));
    hide Find, WithoutCr, Split, Stripped, DataLines, Join, Drained, DrainedEvents;
    var f := Fields([], event);
    var full := Fields(Stripped(Split(data)), event);
    DataLinesParse(decode, f, Split(data), "\n" + more);
    assert [] + Stripped(Split(data)) == Stripped(Split(data));
    assert DataLines(Split(data)) + "\n" + more == DataLines(Split(data)) + ("\n" + more);
    BlankParses(decode, full, more);
  }

  lemma BlankParses(decode: Decoding, f: Fields, more: string)
    requires Faithful(decode)
    ensures Drained(decode, State("\n" + more, f)) == Drained(decode, State(more, NoFields))
    ensures DrainedEvents(decode, State("\n" + more, f))
        == EmittedBy(f, "") + DrainedEvents(decode, State(more, NoFields))
  {
    LineParses(decode, f, "", more);
    assert "" + "\n" + more == "\n" + more;
  }

  lemma PrintedParses(decode: Decoding, e: SseEvent, more: string)
    requires Faithful(decode) && NameIsOneLine(e)
    ensures Drained(decode, State(Print(e) + more, NoFields)) == Drained(decode, State(more, NoFields))
    ensures DrainedEvents(decode, State(Print(e) + more, NoFields))
        == [ReadBack(e)] + DrainedEvents(decode, State(more, NoFields))
  {
    hide Find, WithoutCr, Split, Stripped, Join, Drained, DrainedEvents, AfterLine, EmittedBy, FieldLine, NoNewline;
    match e
    case Named(event, data) =>
      var body := DataLines(Split(data)) + "\n" + more;
      FieldIsOneLine("event", event);
      FieldParses(NoFields, "event", event);
      LineParses(decode, NoFields, FieldLine("event", event), body);
      BodyParses(decode, Some(WithoutCr(event)), data, more);
      LineThenMore(FieldLine("event", event), DataLines(Split(data)) + "\n", more);
      assert Print(e) + more == FieldLine("event", event) + "\n" + body;
    case Data(data) =>
      BodyParses(decode, None, data, more);
      assert Print(e) + more == DataLines(Split(data)) + "\n" + more;
    case Done =>
      DoneParses(decode, more);
  }

  lemma DoneParses(decode: Decoding, more: string)
    requires Faithful(decode)
    ensures var s := State(Print(Done) + more, NoFields);
      && Drained(decode, s) == Drained(decode, State(more, NoFields))
      && DrainedEvents(decode, s) == [Done] + DrainedEvents(decode, State(more, NoFields))
  {
    MarkIsPlain();
    hide Find, NoNewline, WithoutCr, Drained, DrainedEvents, AfterLine, DataLines, Stripped, Join;
    DataLinesParse(decode, NoFields, [END_MARK], "\n" + more);
    assert Print(Done) + more == DataLines([END_MARK]) + ("\n" + more);
    BlankParses(decode, Fields([END_MARK], None), more);
    assert NoFields.(data := NoFields.data + [END_MARK]) == Fields([END_MARK], None);
  }

  lemma MarkIsPlain()
    ensures NoNewline(END_MARK) && Stripped([END_MARK]) == [END_MARK] && Join([END_MARK]) == END_MARK
  {
    assert END_MARK[5] == ']';
  }

  /** An event is read back as it was exactly when it is printable. */
  lemma ReadBackExactly(e: SseEvent)
    ensures ReadBack(e) == e <==> Printable(e)
  {
    match e
    case Named(event, data) => StrippedJoin(data);
    case Data(data) => StrippedJoin(data);
    case Done =>
  }

  function PrintAll(es: seq<SseEvent>): string {
    if es == [] then "" else Print(es[0]) + PrintAll(es[1..])
  }

  function ReadBackAll(es: seq<SseEvent>): seq<SseEvent> {
    if es == [] then [] else [ReadBack(es[0])] + ReadBackAll(es[1..])
  }

  lemma {:induction false} PrintedAllParse(decode: Decoding, es: seq<SseEvent>)
    requires Faithful(decode) && forall e :: e in es ==> NameIsOneLine(e)
    ensures Drained(decode, State(PrintAll(es), NoFields)) == Fresh
    ensures DrainedEvents(decode, State(PrintAll(es), NoFields)) == ReadBackAll(es)
    decreases |es|
  {
    hide Print, ReadBack, Faithful, NameIsOneLine;
    if es != [] {
      hide Drained, DrainedEvents;
      PrintedAllParse(decode, es[1..]);
      PrintedParses(decode, es[0], PrintAll(es[1..]));
    }
  }

  /**
   Printing any events and parsing the text, cut into any chunks, gives those events back and leaves the parser
   fresh: exactly when none has a line ending in CR or the end mark for data.
   */
  lemma PrintThenParse(decode: Decoding, es: seq<SseEvent>, chunks: seq<string>)
    requires Faithful(decode) && (forall e :: e in es ==> NameIsOneLine(e)) && Concat(chunks) == PrintAll(es)
    ensures FedAll(decode, Fresh, chunks) == Fresh
    ensures FedAllEvents(decode, Fresh, chunks) == es <==> forall e :: e in es ==> Printable(e)
  {
    PrintedAllParse(decode, es);
    assert "" + PrintAll(es) == PrintAll(es);
    ChunksDoNotMatter(decode, Fresh, chunks);
    ReadBackAllExactly(es);
  }

  lemma {:induction false} ReadBackAllExactly(es: seq<SseEvent>)
    ensures |ReadBackAll(es)| == |es|
    ensures ReadBackAll(es) == es <==> forall e :: e in es ==> Printable(e)
  {
    hide Printable, ReadBack;
    if es != [] {
      ReadBackExactly(es[0]);
      ReadBackAllExactly(es[1..]);
      assert es == [es[0]] + es[1..];
      assert ReadBackAll(es)[0] == ReadBack(es[0]) && ReadBackAll(es)[1..] == ReadBackAll(es[1..]);
    }
  }

  // ---------------------------------------------------------------------------------------
  // The parser object
  // ---------------------------------------------------------------------------------------

  class SseParser {
    const decode: Decoding
    var buffer: string
    var data: seq<string>
    var event: Option<string>

    constructor (decode: Decoding)
      ensures this.decode == decode && AsState() == Fresh
    {
      this.decode := decode;
      buffer := "";
      data := [];
      event := None;
    }

    function AsState(): State
      reads this
    {
      State(buffer, Fields(data, event))
    }

    /** Emits the event under way, if there is one, and begins the next. */
    method Flush() returns (emitted: seq<SseEvent>)
      modifies this`data, this`event
      ensures emitted == EmittedBy(old(AsState()).fields, "") && AsState().fields == NoFields
    {
      if |data| == 0 && event.None? {
        return [];
      }
      var joined := Join(data);
      var name := event;
      event := None;
      data := [];
      if joined == END_MARK {
        return [Done];
      }
      match name {
        case Some(n) => return [Named(n, joined)];
        case None => return [Data(joined)];
      }
    }

    method ProcessLine(line: string) returns (emitted: seq<SseEvent>)
      modifies this`data, this`event
      ensures emitted == EmittedBy(old(AsState()).fields, decode(line))
      ensures AsState().fields == AfterLine(old(AsState()).fields, decode(line))
    {
      var text := decode(line);
      if text == "" {
        emitted := Flush();
        return;
      }
      emitted := [];
      if text[0] == ':' {
        return;
      }
      var at := Find(text, ':');
      var field, value := text[..at], "";
      if at < |text| {
        value := text[at + 1..];
        if value != "" && value[0] == ' ' {
          value := value[1..];
        }
      }
      if field == "data" {
        data := data + [value];
      } else if field == "event" {
        event := Some(value);
      }
    }

    /** Takes in a chunk and processes every line it finishes. */
    method Feed(chunk: string) returns (events: seq<SseEvent>)
      modifies this`buffer, this`data, this`event
      ensures AsState() == Fed(decode, old(AsState()), chunk)
      ensures events == FedEvents(decode, old(AsState()), chunk)
    {
      hide AfterLine, EmittedBy, WithoutCr, Find, Drained, DrainedEvents;
      events := [];
      buffer := buffer + chunk;
      var at := Find(buffer, '\n');
      while at < |buffer|
        invariant at == Find(buffer, '\n')
        invariant Drained(decode, AsState()) == Fed(decode, old(AsState()), chunk)
        invariant events + DrainedEvents(decode, AsState()) == FedEvents(decode, old(AsState()), chunk)
        decreases |buffer|
      {
        DrainStep(decode, AsState());
        var line := WithoutCr(buffer[..at]);
        buffer := buffer[at + 1..];
        var emitted := ProcessLine(line);
        events := events + emitted;
        at := Find(buffer, '\n');
      }
      DrainEnds(decode, AsState());
    }

    /** The end of the stream: the unfinished line and the event under way. */
    method Finish() returns (events: seq<SseEvent>)
      modifies this`buffer, this`data, this`event
      ensures events == FinishEvents(decode, old(AsState()))
      ensures AsState() == Fresh
    {
      events := [];
      if |buffer| > 0 {
        var line := WithoutCr(buffer);
        assert buffer[..|buffer|] == buffer;
        buffer := "";
        events := ProcessLine(line);
      }
      var last := Flush();
      events := events + last;
    }
  }
}
