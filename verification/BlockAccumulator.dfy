/**
 Accumulating the content blocks of a streamed Anthropic answer (src/adapters/acc.rs, src/adapters/anthropic/blocks.rs):
 slots for text, thinking and tool calls, the order of their segments, and the map from block index to slot.
 */
module BlockAccumulator {
  import opened Wrappers
  import opened Messages

  /** A segment names a slot: a place in the list of texts, thinkings or tool calls. */
  datatype Segment = TextAt(slot: nat) | ThinkingAt(slot: nat) | CallAt(slot: nat)

  datatype CallAcc = CallAcc(id: string, name: string, arguments: string, done: bool)

  /** `kinds[i]` is the segment of the block with index i, once it has started. */
  datatype State = State(texts: seq<string>, thinkings: seq<string>, calls: seq<CallAcc>,
                         segments: seq<Segment>, kinds: seq<Option<Segment>>)

  const Empty := State([], [], [], [], [])

  /** An event as it comes off the wire: any field may be missing. */
  datatype RawBlock = RawBlock(kind: Option<string>, id: Option<string>, name: Option<string>)
  datatype RawDelta = RawDelta(kind: Option<string>, text: Option<string>, thinking: Option<string>,
      partialJson: Option<string>)
  datatype RawEvent =
    | BlockStart(index: Option<nat>, block: Option<RawBlock>)
    | BlockDelta(index: Option<nat>, delta: Option<RawDelta>)
    | BlockStop(index: Option<nat>)

  datatype ParseError = MissingIndex | DuplicateStart | MissingBlock | MissingType | MissingId | MissingName
      | UnknownType
                      | MissingDelta | MissingPayload | WrongBlock | DuplicateStop | UnknownBlock

  datatype AssistantEvent = TextDelta(text: string) | ThinkingDelta(thinking: string)
                          | ToolCallStart(id: string, name: string) | ToolCallDelta(id: string, arguments: string)
                          | ToolCallEnd(id: string)

  // ---------------------------------------------------------------------------------------
  // What a well-formed event asks for
  // ---------------------------------------------------------------------------------------

  /** The block a start announces, still empty. */
  function Announced(block: Option<RawBlock>): Result<AssistantContent, ParseError> {
    if block.None? then Err(MissingBlock)
    else if block.value.kind.None? then Err(MissingType)
    else if block.value.kind.value == "tool_use" then
      if block.value.id.None? then Err(MissingId)
      else if block.value.name.None? then Err(MissingName)
      else Ok(Call(ToolCall(block.value.id.value, block.value.name.value, "")))
    else if block.value.kind.value == "text" then Ok(Text(""))
    else if block.value.kind.value == "thinking" then Ok(Thinking(""))
    else Err(UnknownType)
  }

  datatype DeltaKind = TextKind | ThinkingKind | JsonKind

  function Payload(delta: Option<RawDelta>): Result<(DeltaKind, string), ParseError> {
    if delta.None? then Err(MissingDelta)
    else if delta.value.kind.None? then Err(MissingType)
    else if delta.value.kind.value == "text_delta" then
      if delta.value.text.None? then Err(MissingPayload) else Ok((TextKind, delta.value.text.value))
    else if delta.value.kind.value == "thinking_delta" then
      if delta.value.thinking.None? then Err(MissingPayload) else Ok((ThinkingKind, delta.value.thinking.value))
    else if delta.value.kind.value == "input_json_delta" then
      if delta.value.partialJson.None? then Err(MissingPayload) else Ok((JsonKind, delta.value.partialJson.value))
    else Err(UnknownType)
  }

  // ---------------------------------------------------------------------------------------
  // The accumulator as a value
  // ---------------------------------------------------------------------------------------

  function KindAt(kinds: seq<Option<Segment>>, index: nat): Option<Segment> {
    if index < |kinds| then kinds[index] else None
  }

  function Resized(kinds: seq<Option<Segment>>, n: nat): seq<Option<Segment>> {
    if n <= |kinds| then kinds else kinds + seq(n - |kinds|, _ => None)
  }

  function Noted(kinds: seq<Option<Segment>>, index: nat, segment: Segment): (r: seq<Option<Segment>>)
    ensures forall i: nat :: KindAt(r, i) == if i == index then Some(segment) else KindAt(kinds, i)
  {
    Resized(kinds, index + 1)[index := Some(segment)]
  }

  predicate Exists(s: State, segment: Segment) {
    match segment
    case TextAt(i) => i < |s.texts|
    case ThinkingAt(i) => i < |s.thinkings|
    case CallAt(i) => i < |s.calls|
  }

  /** The content gathered in a slot so far. */
  function ContentAt(s: State, segment: Segment): AssistantContent
    requires Exists(s, segment)
  {
    match segment
    case TextAt(i) => Text(s.texts[i])
    case ThinkingAt(i) => Thinking(s.thinkings[i])
    case CallAt(i) => Call(ToolCall(s.calls[i].id, s.calls[i].name, s.calls[i].arguments))
  }

  /** The slot the next block of this kind gets. */
  function NextSlot(s: State, content: AssistantContent): Segment {
    match content
    case Text(_) => TextAt(|s.texts|)
    case Thinking(_) => ThinkingAt(|s.thinkings|)
    case Call(_) => CallAt(|s.calls|)
  }

  function Opened(s: State, index: nat, content: AssistantContent): State {
    var segment := NextSlot(s, content);
    var s' := s.(segments := s.segments + [segment], kinds := Noted(s.kinds, index, segment));
    match content
    case Text(_) => s'.(texts := s.texts + [""])
    case Thinking(_) => s'.(thinkings := s.thinkings + [""])
    case Call(c) => s'.(calls := s.calls + [CallAcc(c.id, c.name, "", false)])
  }

  function OpenedEvents(content: AssistantContent): seq<AssistantEvent> {
    if content.Call? then [ToolCallStart(content.call.id, content.call.name)] else []
  }

  predicate Takes(segment: Option<Segment>, kind: DeltaKind) {
    match kind
    case TextKind => segment.Some? && segment.value.TextAt?
    case ThinkingKind => segment.Some? && segment.value.ThinkingAt?
    case JsonKind => segment.Some? && segment.value.CallAt?
  }

  function Extended(s: State, segment: Segment, text: string): State
    requires Exists(s, segment)
  {
    match segment
    case TextAt(i) => s.(texts := s.texts[i := s.texts[i] + text])
    case ThinkingAt(i) => s.(thinkings := s.thinkings[i := s.thinkings[i] + text])
    case CallAt(i) => s.(calls := s.calls[i := s.calls[i].(arguments := s.calls[i].arguments + text)])
  }

  function ExtendedEvents(s: State, segment: Segment, text: string): seq<AssistantEvent>
    requires Exists(s, segment)
  {
    match segment
    case TextAt(_) => [TextDelta(text)]
    case ThinkingAt(_) => [ThinkingDelta(text)]
    case CallAt(i) => [ToolCallDelta(s.calls[i].id, text)]
  }

  /** The first call with this id, or the number of calls. */
  function FirstWithId(calls: seq<CallAcc>, id: string): (r: nat)
    ensures r <= |calls|
    ensures r < |calls| ==> calls[r].id == id
    ensures forall i :: 0 <= i < r ==> calls[i].id != id
  {
    if calls == [] then 0 else if calls[0].id == id then 0 else 1 + FirstWithId(calls[1..], id)
  }

  function EndedCalls(calls: seq<CallAcc>, id: string): seq<CallAcc> {
    var i := FirstWithId(calls, id);
    if i < |calls| then calls[i := calls[i].(done := true)] else calls
  }

  type Handled = Result<(State, seq<AssistantEvent>), ParseError>

  function HandleStart(s: State, index: Option<nat>, block: Option<RawBlock>): Handled {
    if index.None? then Err(MissingIndex)
    else if KindAt(s.kinds, index.value).Some? then Err(DuplicateStart)
    else
      match Announced(block)
      case Err(e) => Err(e)
      case Ok(content) => Ok((Opened(s, index.value, content), OpenedEvents(content)))
  }

  function HandleDelta(s: State, index: Option<nat>, delta: Option<RawDelta>): Handled {
    if index.None? then Err(MissingIndex)
    else
      match Payload(delta)
      case Err(e) => Err(e)
      case Ok((kind, text)) =>
        var segment := KindAt(s.kinds, index.value);
        if !Takes(segment, kind) || !Exists(s, segment.value) then Err(WrongBlock)
        else Ok((Extended(s, segment.value, text), ExtendedEvents(s, segment.value, text)))
  }

  function HandleStop(s: State, index: Option<nat>): Handled {
    if index.None? then Err(MissingIndex)
    else
      match KindAt(s.kinds, index.value)
      case None => Err(UnknownBlock)
      case Some(CallAt(i)) =>
        if i >= |s.calls| then Err(UnknownBlock)
        else if s.calls[i].done then Err(DuplicateStop)
        else Ok((s.(calls := EndedCalls(s.calls, s.calls[i].id)), [ToolCallEnd(s.calls[i].id)]))
      case Some(_) => Ok((s, []))
  }

  function Handle(s: State, e: RawEvent): Handled {
    match e
    case BlockStart(index, block) => HandleStart(s, index, block)
    case BlockDelta(index, delta) => HandleDelta(s, index, delta)
    case BlockStop(index) => HandleStop(s, index)
  }

  // ---------------------------------------------------------------------------------------
  // The reference: blocks in start order, each with the deltas of its index
  // ---------------------------------------------------------------------------------------

  datatype Block = Block(index: nat, content: AssistantContent)

  /** The field that carries what a delta of this type adds. */
  function FieldOf(d: RawDelta): Option<string> {
    match d.kind
    case None => None
    case Some(kind) =>
      if kind == "text_delta" then d.text
      else if kind == "thinking_delta" then d.thinking
      else if kind == "input_json_delta" then d.partialJson
      else None
  }

  function DeltaFor(e: RawEvent, index: nat): string {
    if e.BlockDelta? && e.index == Some(index) && e.delta.Some? && FieldOf(e.delta.value).Some? then
      FieldOf(e.delta.value).value
    else ""
  }

  /** All delta payloads of one block index, in order. */
  function DeltasFor(es: seq<RawEvent>, index: nat): string {
    if es == [] then "" else DeltasFor(es[..|es| - 1], index) + DeltaFor(es[|es| - 1], index)
  }

  /** The block of this type, with the id and name of the event; a tool block needs both. */
  function BlockOf(b: RawBlock): Option<AssistantContent> {
    match b.kind
    case None => None
    case Some(kind) =>
      if kind == "text" then Some(Text(""))
      else if kind == "thinking" then Some(Thinking(""))
      else if kind == "tool_use" && b.id.Some? && b.name.Some? then Some(Call(ToolCall(b.id.value, b.name.value, "")))
      else None
  }

  function StartOf(e: RawEvent): seq<Block> {
    if e.BlockStart? && e.index.Some? && e.block.Some? && BlockOf(e.block.value).Some? then
      [Block(e.index.value, BlockOf(e.block.value).value)]
    else []
  }

  /** The blocks started, in order, still empty. */
  function Starts(es: seq<RawEvent>): seq<Block> {
    if es == [] then [] else Starts(es[..|es| - 1]) + StartOf(es[|es| - 1])
  }

  function Filled(content: AssistantContent, text: string): AssistantContent {
    match content
    case Text(_) => Text(text)
    case Thinking(_) => Thinking(text)
    case Call(c) => Call(c.(arguments := text))
  }

  function BlocksOf(es: seq<RawEvent>): seq<Block> {
    var starts := Starts(es);
    seq(|starts|, k requires 0 <= k < |starts| => Block(starts[k].index,
        Filled(starts[k].content, DeltasFor(es, starts[k].index))))
  }

  /** Empty text and thinking blocks are dropped. */
  function Shown(content: AssistantContent): seq<AssistantContent> {
    match content
    case Text(t) => if t == "" then [] else [content]
    case Thinking(t) => if t == "" then [] else [content]
    case Call(_) => [content]
  }

  function ContentOf(blocks: seq<Block>): seq<AssistantContent> {
    if blocks == [] then [] else ContentOf(blocks[..|blocks| - 1]) + Shown(blocks[|blocks| - 1].content)
  }

  // ---------------------------------------------------------------------------------------
  // The accumulator holds those blocks
  // ---------------------------------------------------------------------------------------

  /** Every slot is listed by exactly one segment. */
  ghost predicate SlotsListed(s: State) {
    && (forall k :: 0 <= k < |s.segments| ==> Exists(s, s.segments[k]))
    && (forall segment :: Exists(s, segment) ==> segment in s.segments)
    && (forall j, k :: 0 <= j < k < |s.segments| ==> s.segments[j] != s.segments[k])
  }

  /** Segment k holds the content of block k. */
  ghost predicate Holds(s: State, blocks: seq<Block>) {
    && |s.segments| == |blocks|
    && forall k :: 0 <= k < |blocks| ==> Exists(s, s.segments[k]) && ContentAt(s, s.segments[k]) == blocks[k].content
  }

  /** The index map knows exactly the blocks started. */
  ghost predicate Maps(s: State, blocks: seq<Block>) {
    && |s.segments| == |blocks|
    && (forall k :: 0 <= k < |blocks| ==> KindAt(s.kinds, blocks[k].index) == Some(s.segments[k]))
    && (forall i: nat :: KindAt(s.kinds, i).Some? ==> HasBlock(blocks, i))
  }

  predicate HasBlock(blocks: seq<Block>, index: nat) {
    exists k :: 0 <= k < |blocks| && blocks[k].index == index
  }

  ghost predicate Represents(s: State, blocks: seq<Block>) {
    SlotsListed(s) && Holds(s, blocks) && Maps(s, blocks)
  }

  predicate IsEmptyContent(content: AssistantContent) {
    Filled(content, "") == content
  }

  function TextOf(content: AssistantContent): string {
    match content
    case Text(t) => t
    case Thinking(t) => t
    case Call(c) => c.arguments
  }

  lemma OpenedListsSlots(s: State, index: nat, content: AssistantContent)
    requires SlotsListed(s)
    ensures SlotsListed(Opened(s, index, content))
  {
    hide Noted;
    var s' := Opened(s, index, content);
    var segment := NextSlot(s, content);
    forall x ensures Exists(s', x) <==> Exists(s, x) || x == segment {}
    forall x | Exists(s', x) ensures x in s'.segments {
      if x != segment { assert x in s.segments; }
    }
  }

  lemma OpenedHolds(s: State, blocks: seq<Block>, index: nat, content: AssistantContent)
    requires Holds(s, blocks) && IsEmptyContent(content)
    ensures Holds(Opened(s, index, content), blocks + [Block(index, content)])
  {
    hide Noted;
  }

  lemma OpenedMaps(s: State, blocks: seq<Block>, index: nat, content: AssistantContent)
    requires Maps(s, blocks) && KindAt(s.kinds, index).None?
    ensures Maps(Opened(s, index, content), blocks + [Block(index, content)])
  {
    hide Noted, KindAt;
    var s', all := Opened(s, index, content), blocks + [Block(index, content)];
    assert all[|blocks|].index == index;
    forall i: nat | KindAt(s'.kinds, i).Some? ensures HasBlock(all, i) {
      if i != index {
        assert HasBlock(blocks, i);
        var k :| 0 <= k < |blocks| && blocks[k].index == i;
        assert all[k].index == i;
      }
    }
  }

  /** Block k with more text. */
  function Grown(blocks: seq<Block>, k: nat, text: string): seq<Block>
    requires k < |blocks|
  {
    blocks[k := Block(blocks[k].index, Filled(blocks[k].content, TextOf(blocks[k].content) + text))]
  }

  lemma ExtendedListsSlots(s: State, segment: Segment, text: string)
    requires SlotsListed(s) && Exists(s, segment)
    ensures SlotsListed(Extended(s, segment, text))
  {
    forall x ensures Exists(Extended(s, segment, text), x) <==> Exists(s, x) {}
  }

  lemma ExtendedHolds(s: State, blocks: seq<Block>, k: nat, text: string)
    requires SlotsListed(s) && Holds(s, blocks) && k < |blocks|
    ensures Holds(Extended(s, s.segments[k], text), Grown(blocks, k, text))
  {
    var s' := Extended(s, s.segments[k], text);
    forall j | 0 <= j < |blocks|
        ensures Exists(s', s'.segments[j]) && ContentAt(s', s'.segments[j]) == Grown(blocks, k, text)[j].content {
      assert j != k ==> s.segments[j] != s.segments[k];
    }
  }

  lemma ExtendedMaps(s: State, blocks: seq<Block>, k: nat, text: string)
    requires Maps(s, blocks) && k < |blocks| && Exists(s, s.segments[k])
    ensures Maps(Extended(s, s.segments[k], text), Grown(blocks, k, text))
  {
    hide KindAt, Filled;
    var blocks' := Grown(blocks, k, text);
    assert forall j :: 0 <= j < |blocks| ==> blocks'[j].index == blocks[j].index;
    forall i: nat | HasBlock(blocks, i) ensures HasBlock(blocks', i) {
      var j :| 0 <= j < |blocks| && blocks[j].index == i;
      assert blocks'[j].index == i;
    }
  }

  lemma EndedRepresents(s: State, blocks: seq<Block>, id: string)
    requires Represents(s, blocks)
    ensures Represents(s.(calls := EndedCalls(s.calls, id)), blocks)
  {
    var s' := s.(calls := EndedCalls(s.calls, id));
    forall x ensures Exists(s', x) <==> Exists(s, x) {}
    forall x | Exists(s, x) ensures ContentAt(s', x) == ContentAt(s, x) {}
  }

  // ---------------------------------------------------------------------------------------
  // Every accepted run
  // ---------------------------------------------------------------------------------------

  predicate Accepted(es: seq<RawEvent>) {
    es == [] || (Accepted(es[..|es| - 1]) && Handle(After(es[..|es| - 1]), es[|es| - 1]).Ok?)
  }

  /** The accumulator after these events; a rejected one leaves it as it was. */
  function After(es: seq<RawEvent>): State {
    if es == [] then Empty
    else
      var before := After(es[..|es| - 1]);
      match Handle(before, es[|es| - 1])
      case Ok((s, _)) => s
      case Err(_) => before
  }

  /** A block that has not started has no text. */
  ghost predicate QuietBefore(s: State, es: seq<RawEvent>) {
    forall i: nat :: KindAt(s.kinds, i).None? ==> DeltasFor(es, i) == ""
  }

  lemma BlocksSnoc(es: seq<RawEvent>, e: RawEvent)
    ensures forall i: nat :: DeltasFor(es + [e], i) == DeltasFor(es, i) + DeltaFor(e, i)
    ensures Starts(es + [e]) == Starts(es) + StartOf(e)
  {
    assert (es + [e])[..|es + [e]| - 1] == es;
  }

  /** What one more event makes of a block started before. */
  lemma BlockAfter(es: seq<RawEvent>, e: RawEvent, k: nat)
    requires k < |BlocksOf(es)|
    ensures k < |BlocksOf(es + [e])|
    ensures BlocksOf(es + [e])[k] == Grown(BlocksOf(es), k, DeltaFor(e, BlocksOf(es)[k].index))[k]
    ensures DeltaFor(e, BlocksOf(es)[k].index) == "" ==> BlocksOf(es + [e])[k] == BlocksOf(es)[k]
  {
    BlocksSnoc(es, e);
    hide DeltasFor, Starts, DeltaFor;
    var start := Starts(es)[k];
    var blocks, blocks' := BlocksOf(es), BlocksOf(es + [e]);
    assert blocks[k] == Block(start.index, Filled(start.content, DeltasFor(es, start.index)));
    assert blocks'[k] == Block(start.index, Filled(start.content, DeltasFor(es + [e], start.index)));
    assert DeltasFor(es, start.index) + "" == DeltasFor(es, start.index);
  }

  /** The kind of block that a delta of this type goes to. */
  function KindOf(d: RawDelta): DeltaKind {
    if d.kind == Some("text_delta") then TextKind
    else if d.kind == Some("thinking_delta") then ThinkingKind
    else JsonKind
  }

  /** The handlers read the fields that the types of the event call for, and name the first one missing. */
  lemma FieldsAreRead(block: Option<RawBlock>, delta: Option<RawDelta>)
    ensures Announced(block).Ok? <==> block.Some? && BlockOf(block.value).Some?
    ensures Announced(block).Ok? ==> Announced(block).value == BlockOf(block.value).value
    ensures Announced(block).Err? ==> Announced(block).error == BlockFault(block)
    ensures Payload(delta).Ok? <==> delta.Some? && FieldOf(delta.value).Some?
    ensures Payload(delta).Ok? ==> Payload(delta).value == (KindOf(delta.value), FieldOf(delta.value).value)
    ensures Payload(delta).Err? ==> Payload(delta).error == DeltaFault(delta)
  {
  }

  const BlockTypes := {"text", "thinking", "tool_use"}
  const DeltaTypes := {"text_delta", "thinking_delta", "input_json_delta"}

  /** What is wrong with a block that is none. */
  function BlockFault(block: Option<RawBlock>): ParseError {
    if block.None? then MissingBlock
    else if block.value.kind.None? then MissingType
    else if block.value.kind.value !in BlockTypes then UnknownType
    else if block.value.id.None? then MissingId
    else MissingName
  }

  function DeltaFault(delta: Option<RawDelta>): ParseError {
    if delta.None? then MissingDelta
    else if delta.value.kind.None? then MissingType
    else if delta.value.kind.value !in DeltaTypes then UnknownType
    else MissingPayload
  }

  lemma AnnouncedIsEmpty(block: Option<RawBlock>)
    requires Announced(block).Ok?
    ensures IsEmptyContent(Announced(block).value)
  {
  }

  lemma NewBlock(es: seq<RawEvent>, e: RawEvent, index: nat, content: AssistantContent)
    requires e.BlockStart? && e.index == Some(index) && Announced(e.block) == Ok(content)
    requires DeltasFor(es, index) == ""
    ensures IsEmptyContent(content)
    ensures |BlocksOf(es + [e])| == |BlocksOf(es)| + 1 && BlocksOf(es + [e])[|BlocksOf(es)|] == Block(index, content)
  {
    BlocksSnoc(es, e);
    AnnouncedIsEmpty(e.block);
    FieldsAreRead(e.block, None);
    hide Announced, DeltasFor, Starts;
    var n, starts := |BlocksOf(es)|, Starts(es + [e]);
    assert starts[n] == Block(index, content);
    assert BlocksOf(es + [e])[n] == Block(index, Filled(content, DeltasFor(es + [e], index)));
  }

  lemma BlocksAfterStart(es: seq<RawEvent>, e: RawEvent, index: nat, content: AssistantContent)
    requires e.BlockStart? && e.index == Some(index) && Announced(e.block) == Ok(content)
    requires DeltasFor(es, index) == ""
    ensures BlocksOf(es + [e]) == BlocksOf(es) + [Block(index, content)] && IsEmptyContent(content)
  {
    var blocks, blocks' := BlocksOf(es), BlocksOf(es + [e]);
    NewBlock(es, e, index, content);
    hide DeltasFor, Starts, BlocksOf, Announced;
    forall k | 0 <= k < |blocks| ensures blocks'[k] == blocks[k] {
      BlockAfter(es, e, k);
    }
  }

  lemma BlocksAfterDelta(es: seq<RawEvent>, e: RawEvent, k: nat, text: string)
    requires e.BlockDelta? && Payload(e.delta).Ok? && Payload(e.delta).value.1 == text
    requires k < |BlocksOf(es)| && e.index == Some(BlocksOf(es)[k].index)
    requires forall j :: 0 <= j < |BlocksOf(es)| && j != k ==> BlocksOf(es)[j].index != BlocksOf(es)[k].index
    ensures BlocksOf(es + [e]) == Grown(BlocksOf(es), k, text)
  {
    BlocksSnoc(es, e);
    FieldsAreRead(None, e.delta);
    var blocks, blocks' := BlocksOf(es), BlocksOf(es + [e]);
    assert |blocks'| == |blocks|;
    hide Payload, DeltasFor, Starts, BlocksOf;
    forall j | 0 <= j < |blocks| ensures blocks'[j] == Grown(blocks, k, text)[j] {
      BlockAfter(es, e, j);
    }
  }

  lemma BlocksAfterStop(es: seq<RawEvent>, e: RawEvent)
    requires e.BlockStop?
    ensures BlocksOf(es + [e]) == BlocksOf(es)
  {
    BlocksSnoc(es, e);
    var blocks, blocks' := BlocksOf(es), BlocksOf(es + [e]);
    assert |blocks'| == |blocks|;
    hide DeltasFor, Starts, BlocksOf;
    forall k | 0 <= k < |blocks| ensures blocks'[k] == blocks[k] {
      BlockAfter(es, e, k);
    }
  }

  /** Two started blocks never share an index, nor a segment. */
  lemma IndicesDiffer(s: State, blocks: seq<Block>, j: nat, k: nat)
    requires Represents(s, blocks) && j < |blocks| && k < |blocks|
    requires blocks[j].index == blocks[k].index || s.segments[j] == s.segments[k]
    ensures j == k
  {
    assert KindAt(s.kinds, blocks[j].index) == Some(s.segments[j]);
    assert KindAt(s.kinds, blocks[k].index) == Some(s.segments[k]);
  }

  /** The one block with this index, and its segment. */
  lemma BlockFor(s: State, blocks: seq<Block>, index: nat) returns (k: nat)
    requires Represents(s, blocks) && HasBlock(blocks, index)
    ensures k < |blocks| && blocks[k].index == index
    ensures KindAt(s.kinds, index) == Some(s.segments[k]) && Exists(s, s.segments[k])
        && ContentAt(s, s.segments[k]) == blocks[k].content
    ensures forall j :: 0 <= j < |blocks| && blocks[j].index == index ==> j == k
  {
    k :| 0 <= k < |blocks| && blocks[k].index == index;
    forall j | 0 <= j < |blocks| && blocks[j].index == index ensures j == k {
      IndicesDiffer(s, blocks, j, k);
    }
  }

  lemma StartKeeps(s: State, es: seq<RawEvent>, e: RawEvent)
    requires Represents(s, BlocksOf(es)) && QuietBefore(s, es) && e.BlockStart? && Handle(s, e).Ok?
    ensures Represents(Handle(s, e).value.0, BlocksOf(es + [e])) && QuietBefore(Handle(s, e).value.0, es + [e])
  {
    hide Announced, BlocksOf, KindAt, DeltasFor;
    var index, content := e.index.value, Announced(e.block).value;
    assert KindAt(s.kinds, index).None?;
    BlocksAfterStart(es, e, index, content);
    OpenedListsSlots(s, index, content);
    OpenedHolds(s, BlocksOf(es), index, content);
    OpenedMaps(s, BlocksOf(es), index, content);
    BlocksSnoc(es, e);
    hide SlotsListed, Holds, Maps;
  }

  lemma DeltaKeeps(s: State, es: seq<RawEvent>, e: RawEvent)
    requires Represents(s, BlocksOf(es)) && QuietBefore(s, es) && e.BlockDelta? && Handle(s, e).Ok?
    ensures Represents(Handle(s, e).value.0, BlocksOf(es + [e])) && QuietBefore(Handle(s, e).value.0, es + [e])
  {
    hide Payload, BlocksOf, KindAt, DeltasFor;
    var index, text := e.index.value, Payload(e.delta).value.1;
    var blocks := BlocksOf(es);
    assert HasBlock(blocks, index);
    var k := BlockFor(s, blocks, index);
    hide HasBlock, SlotsListed, Holds, Maps;
    BlocksAfterDelta(es, e, k, text);
    ExtendedListsSlots(s, s.segments[k], text);
    ExtendedHolds(s, blocks, k, text);
    ExtendedMaps(s, blocks, k, text);
    BlocksSnoc(es, e);
    ExtendedKinds(s, s.segments[k], text);
  }

  lemma ExtendedKinds(s: State, segment: Segment, text: string)
    requires Exists(s, segment)
    ensures Extended(s, segment, text).kinds == s.kinds
  {
  }

  lemma StopKeeps(s: State, es: seq<RawEvent>, e: RawEvent)
    requires Represents(s, BlocksOf(es)) && QuietBefore(s, es) && e.BlockStop? && Handle(s, e).Ok?
    ensures Represents(Handle(s, e).value.0, BlocksOf(es + [e])) && QuietBefore(Handle(s, e).value.0, es + [e])
  {
    hide BlocksOf, DeltasFor, EndedCalls;
    BlocksAfterStop(es, e);
    BlocksSnoc(es, e);
    match KindAt(s.kinds, e.index.value)
    case Some(CallAt(i)) => EndedRepresents(s, BlocksOf(es), s.calls[i].id);
    case _ =>
  }

  lemma EventKeeps(s: State, es: seq<RawEvent>, e: RawEvent)
    requires Represents(s, BlocksOf(es)) && QuietBefore(s, es) && Handle(s, e).Ok?
    ensures Represents(Handle(s, e).value.0, BlocksOf(es + [e])) && QuietBefore(Handle(s, e).value.0, es + [e])
  {
    hide Represents, QuietBefore, BlocksOf, Handle;
    match e
    case BlockStart(_, _) => StartKeeps(s, es, e);
    case BlockDelta(_, _) => DeltaKeeps(s, es, e);
    case BlockStop(_) => StopKeeps(s, es, e);
  }

  lemma NothingIsRepresented()
    ensures Represents(Empty, BlocksOf([])) && QuietBefore(Empty, [])
  {
    assert BlocksOf([]) == [];
  }

  /** After any accepted events the accumulator holds the blocks they started, in order, each with its own deltas. */
  lemma {:induction false} AcceptedIsRepresented(es: seq<RawEvent>)
    requires Accepted(es)
    ensures Represents(After(es), BlocksOf(es)) && QuietBefore(After(es), es)
    decreases |es|
  {
    hide Represents, QuietBefore, BlocksOf, Handle;
    if es == [] {
      NothingIsRepresented();
    } else {
      var before, e := es[..|es| - 1], es[|es| - 1];
      assert es == before + [e];
      AcceptedIsRepresented(before);
      EventKeeps(After(before), before, e);
    }
  }

  /** After any accepted events: each slot is listed by one segment, and two block indices never name one slot. */
  lemma AcceptedIsSound(es: seq<RawEvent>, i: nat, j: nat)
    requires Accepted(es) && KindAt(After(es).kinds, i).Some?
        && KindAt(After(es).kinds, i) == KindAt(After(es).kinds, j)
    ensures SlotsListed(After(es)) && KindAt(After(es).kinds, i).value in After(es).segments
    ensures i == j
  {
    AcceptedIsRepresented(es);
    var s, blocks := After(es), BlocksOf(es);
    hide BlocksOf, After, KindAt;
    assert HasBlock(blocks, i) && HasBlock(blocks, j);
    var a :| 0 <= a < |blocks| && blocks[a].index == i;
    var b :| 0 <= b < |blocks| && blocks[b].index == j;
    assert KindAt(s.kinds, blocks[a].index) == Some(s.segments[a]);
    assert KindAt(s.kinds, blocks[b].index) == Some(s.segments[b]);
    IndicesDiffer(s, blocks, a, b);
  }

  predicate Fits(content: AssistantContent, kind: DeltaKind) {
    match kind
    case TextKind => content.Text?
    case ThinkingKind => content.Thinking?
    case JsonKind => content.Call?
  }

  /**
   A start is accepted exactly when it announces a block and its index has not started; else the first thing wrong with
   it is reported.
   */
  lemma StartAcceptedExactly(es: seq<RawEvent>, e: RawEvent)
    requires Accepted(es) && e.BlockStart?
    ensures Handle(After(es), e).Ok? <==>
            && e.index.Some? && e.block.Some? && BlockOf(e.block.value).Some? && !HasBlock(BlocksOf(es), e.index.value)
    ensures Handle(After(es), e).Err? ==>
              Handle(After(es), e).error ==
                if e.index.None? then MissingIndex
                else if HasBlock(BlocksOf(es), e.index.value) then DuplicateStart
                else BlockFault(e.block)
  {
    FieldsAreRead(e.block, None);
    AcceptedIsRepresented(es);
    var s, blocks := After(es), BlocksOf(es);
    hide BlocksOf, After, KindAt, Announced, HasBlock, SlotsListed, Holds;
    if e.index.Some? && HasBlock(blocks, e.index.value) {
      var k := BlockFor(s, blocks, e.index.value);
    }
  }

  /** A delta is accepted exactly when it has its field and the block of its index has started and is of its kind. */
  lemma DeltaAcceptedExactly(es: seq<RawEvent>, e: RawEvent)
    requires Accepted(es) && e.BlockDelta?
    ensures Handle(After(es), e).Ok? <==>
            && e.index.Some? && e.delta.Some? && FieldOf(e.delta.value).Some?
            && exists k :: 0 <= k < |BlocksOf(es)| && IsBlockFor(BlocksOf(es)[k], e.index.value, KindOf(e.delta.value))
    ensures Handle(After(es), e).Err? ==>
              Handle(After(es), e).error ==
                if e.index.None? then MissingIndex
                else if e.delta.None? || FieldOf(e.delta.value).None? then DeltaFault(e.delta)
                else WrongBlock
  {
    FieldsAreRead(None, e.delta);
    AcceptedIsRepresented(es);
    var s, blocks := After(es), BlocksOf(es);
    hide BlocksOf, After, KindAt, Payload, SlotsListed, Holds;
    if e.index.Some? && Payload(e.delta).Ok? {
      var index, kind := e.index.value, Payload(e.delta).value.0;
      if HasBlock(blocks, index) {
        var k := BlockFor(s, blocks, index);
        assert Takes(KindAt(s.kinds, index), kind) <==> IsBlockFor(blocks[k], index, kind);
      } else {
        assert KindAt(s.kinds, index).None?;
      }
    }
  }

  predicate IsBlockFor(block: Block, index: nat, kind: DeltaKind) {
    block.index == index && Fits(block.content, kind)
  }

  /** An accepted start adds the block it announces, still empty, and reports the start of a call. */
  lemma StartOpensBlock(es: seq<RawEvent>, index: nat, b: RawBlock)
    requires Accepted(es) && BlockOf(b).Some? && !HasBlock(BlocksOf(es), index)
    ensures var e := BlockStart(Some(index), Some(b));
      && Accepted(es + [e]) && BlocksOf(es + [e]) == BlocksOf(es) + [Block(index, BlockOf(b).value)]
      && Handle(After(es), e).Ok?
      && Handle(After(es), e).value.1 ==
           if b.kind == Some("tool_use") then [ToolCallStart(b.id.value, b.name.value)] else []
  {
    var e := BlockStart(Some(index), Some(b));
    StartAcceptedExactly(es, e);
    AcceptedIsRepresented(es);
    FieldsAreRead(Some(b), None);
    AcceptedSnoc(es, e);
    hide Accepted, BlocksOf, After, Announced, KindAt, DeltasFor, Holds, SlotsListed, HasBlock;
    assert KindAt(After(es).kinds, index).None?;
    BlocksAfterStart(es, e, index, BlockOf(b).value);
  }

  lemma AcceptedSnoc(es: seq<RawEvent>, e: RawEvent)
    requires Accepted(es) && Handle(After(es), e).Ok?
    ensures Accepted(es + [e]) && After(es + [e]) == Handle(After(es), e).value.0
  {
    assert (es + [e])[..|es + [e]| - 1] == es;
  }

  /** An accepted delta adds its field to the block of its index, touches no other block, and reports just that. */
  lemma DeltaExtendsBlock(es: seq<RawEvent>, index: nat, d: RawDelta, k: nat)
    requires Accepted(es) && FieldOf(d).Some?
    requires k < |BlocksOf(es)| && IsBlockFor(BlocksOf(es)[k], index, KindOf(d))
    ensures var e, field, content := BlockDelta(Some(index), Some(d)), FieldOf(d).value, BlocksOf(es)[k].content;
      && Accepted(es + [e]) && BlocksOf(es + [e]) == Grown(BlocksOf(es), k, field)
      && Handle(After(es), e).Ok?
      && Handle(After(es), e).value.1 ==
           [match content
            case Text(_) => TextDelta(field)
            case Thinking(_) => ThinkingDelta(field)
            case Call(c) => ToolCallDelta(c.id, field)]
  {
    var e := BlockDelta(Some(index), Some(d));
    DeltaAcceptedExactly(es, e);
    AcceptedIsRepresented(es);
    FieldsAreRead(None, Some(d));
    AcceptedSnoc(es, e);
    hide Accepted, BlocksOf, After, Payload, KindAt, DeltasFor;
    assert HasBlock(BlocksOf(es), index);
    var j := BlockFor(After(es), BlocksOf(es), index);
    hide HasBlock, SlotsListed, Holds, Maps, Represents;
    BlocksAfterDelta(es, e, k, FieldOf(d).value);
  }

  /** A stop leaves every block as it is; it reports the end of a call, and nothing for other blocks. */
  lemma StopReports(es: seq<RawEvent>, index: nat, k: nat)
    requires Accepted(es) && k < |BlocksOf(es)| && BlocksOf(es)[k].index == index
    ensures var e, content := BlockStop(Some(index)), BlocksOf(es)[k].content;
      && BlocksOf(es + [e]) == BlocksOf(es)
      && (!content.Call? ==> Handle(After(es), e) == Ok((After(es), [])))
      && (content.Call? ==>
            if Handle(After(es), e).Ok? then Handle(After(es), e).value.1 == [ToolCallEnd(content.call.id)]
            else Handle(After(es), e).error == DuplicateStop)
  {
    AcceptedIsRepresented(es);
    hide Accepted, BlocksOf, After, KindAt, DeltasFor;
    assert HasBlock(BlocksOf(es), index);
    var j := BlockFor(After(es), BlocksOf(es), index);
    BlocksAfterStop(es, BlockStop(Some(index)));
  }

  /** A stop without an index, or of one that has not started, is refused. */
  lemma StrayStopRefused(es: seq<RawEvent>, index: Option<nat>)
    requires Accepted(es) && (index.Some? ==> !HasBlock(BlocksOf(es), index.value))
    ensures Handle(After(es), BlockStop(index)) == Err(if index.None? then MissingIndex else UnknownBlock)
  {
    AcceptedIsRepresented(es);
    hide Accepted, BlocksOf, After, KindAt, DeltasFor, SlotsListed, Holds;
  }

  // ---------------------------------------------------------------------------------------
  // Ending a call
  // ---------------------------------------------------------------------------------------

  /** A stop of a running call ends the first call with its id, in any state. */
  lemma StopEndsFirst(s: State, index: nat, i: nat)
    requires KindAt(s.kinds, index) == Some(CallAt(i)) && i < |s.calls| && !s.calls[i].done
    ensures Handle(s, BlockStop(Some(index))).Ok?
    ensures var s' := Handle(s, BlockStop(Some(index))).value.0;
      && |s'.calls| == |s.calls| && KindAt(s'.kinds, index) == Some(CallAt(i))
      && (s'.calls[i].done <==> forall j :: 0 <= j < i ==> s.calls[j].id != s.calls[i].id)
      && s'.calls[i].id == s.calls[i].id && forall j :: 0 <= j < i ==> s'.calls[j].id == s.calls[j].id
  {
    var first := FirstWithId(s.calls, s.calls[i].id);
    assert first <= i;
  }

  lemma StopAccepted(es: seq<RawEvent>, index: nat)
    requires Accepted(es)
    ensures var e := BlockStop(Some(index));
      && (Accepted(es + [e]) <==> Handle(After(es), e).Ok?)
      && (Handle(After(es), e).Ok? ==> After(es + [e]) == Handle(After(es), e).value.0)
      && (Handle(After(es), e).Err? ==> After(es + [e]) == After(es))
  {
    var all := es + [BlockStop(Some(index))];
    assert all[..|all| - 1] == es;
  }

  /**
   After any accepted events, a stop of a tool block that is still running is accepted. It ends that block's own call,
   and a second stop is refused, exactly when no earlier call has the same id: with a repeated id it ends the first one
   again.
   */
  lemma StopMarksFirstWithId(es: seq<RawEvent>, index: nat, i: nat)
    requires Accepted(es) && KindAt(After(es).kinds, index) == Some(CallAt(i))
    ensures i < |After(es).calls|
    ensures var e := BlockStop(Some(index));
      var calls := After(es).calls;
      if calls[i].done then !Accepted(es + [e])
      else
        && Accepted(es + [e]) && i < |After(es + [e]).calls|
        && (After(es + [e]).calls[i].done <==> forall j :: 0 <= j < i ==> calls[j].id != calls[i].id)
        && (!Accepted(es + [e] + [e]) <==> forall j :: 0 <= j < i ==> calls[j].id != calls[i].id)
  {
    var e := BlockStop(Some(index));
    CallExists(es, index, i);
    StopAccepted(es, index);
    if !After(es).calls[i].done {
      hide Accepted, After, KindAt;
      StopEndsFirst(After(es), index, i);
      StopAccepted(es + [e], index);
    }
  }

  lemma CallExists(es: seq<RawEvent>, index: nat, i: nat)
    requires Accepted(es) && KindAt(After(es).kinds, index) == Some(CallAt(i))
    ensures i < |After(es).calls|
  {
    AcceptedIsRepresented(es);
    assert HasBlock(BlocksOf(es), index);
    hide Accepted, After, BlocksOf, KindAt;
    var k := BlockFor(After(es), BlocksOf(es), index);
  }

  function Stops(index: nat, n: nat): seq<RawEvent> {
    if n == 0 then [] else Stops(index, n - 1) + [BlockStop(Some(index))]
  }

  function ToolStart(index: nat, id: string, name: string): RawEvent {
    BlockStart(Some(index), Some(RawBlock(Some("tool_use"), Some(id), Some(name))))
  }

  /**
   Two tool blocks with one id: however often the second is stopped, each stop is accepted and its call never ends.
   */
  lemma {:induction false} RepeatedIdNeverEnds(id: string, a: string, b: string, n: nat)
    ensures var es := [ToolStart(0, id, a), ToolStart(1, id, b)] + Stops(1, n);
      && Accepted(es) && |After(es).calls| == 2
      && KindAt(After(es).kinds, 1) == Some(CallAt(1)) && !After(es).calls[1].done
      && After(es).calls[0].id == id && After(es).calls[1].id == id
  {
    var starts := [ToolStart(0, id, a), ToolStart(1, id, b)];
    if n == 0 {
      TwoStarts(id, a, b);
      assert starts + Stops(1, 0) == starts;
    } else {
      RepeatedIdNeverEnds(id, a, b, n - 1);
      var es := starts + Stops(1, n - 1);
      assert starts + Stops(1, n) == es + [BlockStop(Some(1))];
      hide Accepted, After, KindAt;
      StopAccepted(es, 1);
      StopEndsFirst(After(es), 1, 1);
      StopKeepsIds(After(es), 1);
    }
  }

  lemma StopKeepsIds(s: State, index: nat)
    requires Handle(s, BlockStop(Some(index))).Ok?
    ensures var s' := Handle(s, BlockStop(Some(index))).value.0;
      |s'.calls| == |s.calls| && forall j :: 0 <= j < |s.calls| ==> s'.calls[j].id == s.calls[j].id
  {
  }

  lemma TwoStarts(id: string, a: string, b: string)
    ensures var es := [ToolStart(0, id, a), ToolStart(1, id, b)];
      && Accepted(es) && After(es).calls == [CallAcc(id, a, "", false), CallAcc(id, b, "", false)]
      && KindAt(After(es).kinds, 1) == Some(CallAt(1))
  {
    var es := [ToolStart(0, id, a), ToolStart(1, id, b)];
    var first := es[..1];
    assert es[..|es| - 1] == first && first[..|first| - 1] == [];
    assert Accepted([]) && After([]) == Empty;
    assert Handle(Empty, ToolStart(0, id, a)).Ok?;
    assert After(first) == Opened(Empty, 0, Call(ToolCall(id, a, "")));
    assert Accepted(first);
    assert KindAt(After(first).kinds, 1).None?;
  }

  // ---------------------------------------------------------------------------------------
  // Building the message
  // ---------------------------------------------------------------------------------------

  /** What one segment adds to the message. */
  function ShownAt(s: State, segment: Segment): seq<AssistantContent> {
    if Exists(s, segment) then Shown(ContentAt(s, segment)) else []
  }

  function Built(s: State, n: nat): seq<AssistantContent>
    requires n <= |s.segments|
  {
    if n == 0 then [] else Built(s, n - 1) + ShownAt(s, s.segments[n - 1])
  }

  lemma {:induction false} BuiltIsContent(s: State, blocks: seq<Block>, n: nat)
    requires Holds(s, blocks) && n <= |blocks|
    ensures Built(s, n) == ContentOf(blocks[..n])
  {
    if n > 0 {
      BuiltIsContent(s, blocks, n - 1);
      assert blocks[..n][..n - 1] == blocks[..n - 1];
    }
  }

  predicate IsShown(content: AssistantContent) {
    content.Call? || (content.Text? && content.text != "") || (content.Thinking? && content.text != "")
  }

  predicate Ascending(ks: seq<nat>) {
    forall i, j :: 0 <= i < j < |ks| ==> ks[i] < ks[j]
  }

  /** What the message keeps: every call, and every text and thinking that is not empty, in order. */
  lemma {:induction false} MessageKeeps(blocks: seq<Block>) returns (ks: seq<nat>)
    ensures Ascending(ks) && (forall k :: k in ks <==> 0 <= k < |blocks| && IsShown(blocks[k].content))
    ensures |ContentOf(blocks)| == |ks|
    ensures forall i :: 0 <= i < |ks| ==> ks[i] < |blocks| && ContentOf(blocks)[i] == blocks[ks[i]].content
    decreases |blocks|
  {
    ks := [];
    if blocks != [] {
      var n := |blocks| - 1;
      ks := MessageKeeps(blocks[..n]);
      if IsShown(blocks[n].content) { ks := ks + [n]; }
    }
  }

  /** The message built after any accepted events is each block's deltas joined, in start order, empty ones dropped. */
  lemma MessageIsBlocks(es: seq<RawEvent>)
    requires Accepted(es)
    ensures Built(After(es), |After(es).segments|) == ContentOf(BlocksOf(es))
  {
    AcceptedIsRepresented(es);
    var blocks := BlocksOf(es);
    BuiltIsContent(After(es), blocks, |blocks|);
    assert blocks[..|blocks|] == blocks;
  }

  // ---------------------------------------------------------------------------------------
  // The accumulator object
  // ---------------------------------------------------------------------------------------

  class Acc {
    var texts: seq<string>
    var thinkings: seq<string>
    var calls: seq<CallAcc>
    var segments: seq<Segment>
    var kinds: seq<Option<Segment>>

    constructor ()
      ensures AsState() == Empty
    {
      texts, thinkings, calls, segments, kinds := [], [], [], [], [];
    }

    function AsState(): State
      reads this
    {
      State(texts, thinkings, calls, segments, kinds)
    }

    method NoteBlock(index: nat, segment: Segment)
      modifies this`kinds
      ensures kinds == Noted(old(kinds), index, segment)
    {
      while |kinds| <= index
        invariant kinds == if |old(kinds)| <= index then old(kinds) + seq(|kinds| - |old(kinds)|, _ => None)
            else old(kinds)
        invariant |old(kinds)| <= |kinds| && (|old(kinds)| <= index ==> |kinds| <= index + 1)
        decreases index + 1 - |kinds|
      {
        kinds := kinds + [None];
      }
      kinds := kinds[index := Some(segment)];
    }

    method EndToolCall(id: string)
      modifies this`calls
      ensures calls == EndedCalls(old(calls), id)
    {
      var i := FirstWithId(calls, id);
      if i < |calls| {
        calls := calls[i := calls[i].(done := true)];
      }
    }

    /** Checks everything before it changes anything. */
    method HandleBlockStart(index: Option<nat>, block: Option<RawBlock>)
        returns (r: Result<seq<AssistantEvent>, ParseError>)
      modifies this
      ensures r.Ok? ==> Handle(old(AsState()), BlockStart(index, block)) == Ok((AsState(), r.value))
      ensures r.Err? ==> Handle(old(AsState()), BlockStart(index, block)) == Err(r.error) && AsState() == old(AsState())
    {
      hide Noted;
      if index.None? {
        return Err(MissingIndex);
      }
      if KindAt(kinds, index.value).Some? {
        return Err(DuplicateStart);
      }
      if block.None? {
        return Err(MissingBlock);
      }
      if block.value.kind.None? {
        return Err(MissingType);
      }
      var kind := block.value.kind.value;
      if kind == "tool_use" {
        if block.value.id.None? {
          return Err(MissingId);
        }
        if block.value.name.None? {
          return Err(MissingName);
        }
        var id, name := block.value.id.value, block.value.name.value;
        var slot := |calls|;
        calls := calls + [CallAcc(id, name, "", false)];
        segments := segments + [CallAt(slot)];
        NoteBlock(index.value, CallAt(slot));
        return Ok([ToolCallStart(id, name)]);
      } else if kind == "text" {
        var slot := |texts|;
        texts := texts + [""];
        segments := segments + [TextAt(slot)];
        NoteBlock(index.value, TextAt(slot));
        return Ok([]);
      } else if kind == "thinking" {
        var slot := |thinkings|;
        thinkings := thinkings + [""];
        segments := segments + [ThinkingAt(slot)];
        NoteBlock(index.value, ThinkingAt(slot));
        return Ok([]);
      }
      return Err(UnknownType);
    }

    method HandleBlockDelta(index: Option<nat>, delta: Option<RawDelta>)
        returns (r: Result<seq<AssistantEvent>, ParseError>)
      modifies this
      ensures r.Ok? ==> Handle(old(AsState()), BlockDelta(index, delta)) == Ok((AsState(), r.value))
      ensures r.Err? ==> Handle(old(AsState()), BlockDelta(index, delta)) == Err(r.error) && AsState() == old(AsState())
    {
      if index.None? {
        return Err(MissingIndex);
      }
      var payload := Payload(delta);
      if payload.Err? {
        return Err(payload.error);
      }
      var (kind, text) := payload.value;
      var segment := KindAt(kinds, index.value);
      if !Takes(segment, kind) || !Exists(AsState(), segment.value) {
        return Err(WrongBlock);
      }
      match segment.value {
        case TextAt(i) =>
          texts := texts[i := texts[i] + text];
          return Ok([TextDelta(text)]);
        case ThinkingAt(i) =>
          thinkings := thinkings[i := thinkings[i] + text];
          return Ok([ThinkingDelta(text)]);
        case CallAt(i) =>
          var id := calls[i].id;
          calls := calls[i := calls[i].(arguments := calls[i].arguments + text)];
          return Ok([ToolCallDelta(id, text)]);
      }
    }

    method HandleBlockStop(index: Option<nat>) returns (r: Result<seq<AssistantEvent>, ParseError>)
      modifies this
      ensures r.Ok? ==> Handle(old(AsState()), BlockStop(index)) == Ok((AsState(), r.value))
      ensures r.Err? ==> Handle(old(AsState()), BlockStop(index)) == Err(r.error) && AsState() == old(AsState())
    {
      if index.None? {
        return Err(MissingIndex);
      }
      var kind := KindAt(kinds, index.value);
      if kind.None? {
        return Err(UnknownBlock);
      }
      if !kind.value.CallAt? {
        return Ok([]);
      }
      var slot := kind.value.slot;
      if slot >= |calls| {
        return Err(UnknownBlock);
      }
      var id := calls[slot].id;
      if calls[slot].done {
        return Err(DuplicateStop);
      }
      EndToolCall(id);
      return Ok([ToolCallEnd(id)]);
    }

    /** The content of the message so far. */
    method BuildMessage() returns (content: seq<AssistantContent>)
      ensures content == Built(AsState(), |segments|)
    {
      content := [];
      var k := 0;
      while k < |segments|
        invariant 0 <= k <= |segments| && content == Built(AsState(), k)
      {
        match segments[k] {
          case TextAt(i) =>
            if i < |texts| && texts[i] != "" {
              content := content + [Text(texts[i])];
            }
          case ThinkingAt(i) =>
            if i < |thinkings| && thinkings[i] != "" {
              content := content + [Thinking(thinkings[i])];
            }
          case CallAt(i) =>
            if i < |calls| {
              content := content + [Call(ToolCall(calls[i].id, calls[i].name, calls[i].arguments))];
            }
        }
        k := k + 1;
      }
    }
  }
}
