/**
 Mapping the chunks of a streamed OpenAI answer into the accumulator (map_chunk of src/adapters/openai/events.rs, with
 the text, thinking and tool-index operations of src/adapters/acc.rs). A chunk is the deltas it carries, in the order
 they are handled; handling stops at the first one that is rejected.
 */
module OpenAiChunks {
  import opened Wrappers
  import opened Messages
  import B = BlockAccumulator

  /** One entry of `tool_calls`; an absent id, name or arguments field reads as empty. */
  datatype RawCall = RawCall(index: Option<nat>, id: string, hasFunction: bool, name: string, arguments: string)

  datatype Delta = TextDelta(text: string) | ThinkingDelta(thinking: string) | CallDelta(call: RawCall)
      | Finish(reason: string)

  datatype Chunk = Chunk(content: Option<string>, reasoning: Option<string>, calls: seq<RawCall>,
      finish: Option<string>)

  datatype ChunkError = MissingIndex | MissingFunction | DuplicateStart | UnknownIndex

  /** `toolIndex[i]` is the call that the provider's index i stands for. */
  datatype State = State(texts: seq<string>, thinkings: seq<string>, calls: seq<B.CallAcc>, segments: seq<B.Segment>,
                         toolIndex: seq<Option<nat>>)

  const Empty := State([], [], [], [], [])

  function CallDeltas(calls: seq<RawCall>): seq<Delta> {
    seq(|calls|, i requires 0 <= i < |calls| => CallDelta(calls[i]))
  }

  /** Empty text is skipped. */
  function TextDeltas(chunk: Chunk): seq<Delta> {
    (if chunk.content.Some? && chunk.content.value != "" then [TextDelta(chunk.content.value)] else [])
    + (if chunk.reasoning.Some? && chunk.reasoning.value != "" then [ThinkingDelta(chunk.reasoning.value)] else [])
  }

  function DeltasOf(chunk: Chunk): seq<Delta> {
    TextDeltas(chunk) + CallDeltas(chunk.calls)
    + (if chunk.finish.Some? then [Finish(chunk.finish.value)] else [])
  }

  // ---------------------------------------------------------------------------------------
  // Handling one delta
  // ---------------------------------------------------------------------------------------

  function LocalIndex(s: State, index: nat): Option<nat> {
    if index < |s.toolIndex| then s.toolIndex[index] else None
  }

  function Mapped(toolIndex: seq<Option<nat>>, index: nat, slot: nat): (r: seq<Option<nat>>)
    ensures forall i :: 0 <= i < |r| ==> r[i] == if i == index then Some(slot)
        else if i < |toolIndex| then toolIndex[i] else None
    ensures index < |r| && |toolIndex| <= |r|
  {
    (if index < |toolIndex| then toolIndex
        else toolIndex + seq(index + 1 - |toolIndex|, _ => None))[index := Some(slot)]
  }

  /** The slot of the first text segment. */
  function FirstText(segments: seq<B.Segment>): Option<nat> {
    if segments == [] then None else if segments[0].TextAt? then Some(segments[0].slot) else FirstText(segments[1..])
  }

  function FirstThinking(segments: seq<B.Segment>): Option<nat> {
    if segments == [] then None else if segments[0].ThinkingAt? then Some(segments[0].slot)
        else FirstThinking(segments[1..])
  }

  /** Adds to the one text block, which the first text makes. */
  function WithText(s: State, text: string): State {
    match FirstText(s.segments)
    case Some(i) => if i < |s.texts| then s.(texts := s.texts[i := s.texts[i] + text]) else s
    case None => s.(texts := s.texts + [text], segments := s.segments + [B.TextAt(|s.texts|)])
  }

  function WithThinking(s: State, thinking: string): State {
    match FirstThinking(s.segments)
    case Some(i) => if i < |s.thinkings| then s.(thinkings := s.thinkings[i := s.thinkings[i] + thinking]) else s
    case None => s.(thinkings := s.thinkings + [thinking], segments := s.segments + [B.ThinkingAt(|s.thinkings|)])
  }

  function WithCall(s: State, index: nat, id: string, name: string): State {
    s.(calls := s.calls + [B.CallAcc(id, name, "", false)], segments := s.segments + [B.CallAt(|s.calls|)],
       toolIndex := Mapped(s.toolIndex, index, |s.calls|))
  }

  function WithArguments(s: State, slot: nat, arguments: string): State {
    if arguments == "" || slot >= |s.calls| then s
    else s.(calls := s.calls[slot := s.calls[slot].(arguments := s.calls[slot].arguments + arguments)])
  }

  /** A call entry with an id starts a call, one without continues the call of its index. */
  function HandleCall(s: State, c: RawCall): Result<State, ChunkError> {
    if c.index.None? then Err(MissingIndex)
    else if !c.hasFunction then Err(MissingFunction)
    else if c.id != "" then
      if LocalIndex(s, c.index.value).Some? then Err(DuplicateStart)
      else Ok(WithArguments(WithCall(s, c.index.value, c.id, c.name), |s.calls|, c.arguments))
    else if LocalIndex(s, c.index.value).None? then Err(UnknownIndex)
    else Ok(WithArguments(s, LocalIndex(s, c.index.value).value, c.arguments))
  }

  /** The calls not ended yet, by id, in start order. */
  function Running(calls: seq<B.CallAcc>): seq<string> {
    if calls == [] then []
    else Running(calls[..|calls| - 1]) + if calls[|calls| - 1].done then [] else [calls[|calls| - 1].id]
  }

  function AllDone(calls: seq<B.CallAcc>): seq<B.CallAcc> {
    seq(|calls|, i requires 0 <= i < |calls| => calls[i].(done := true))
  }

  function Handle(s: State, d: Delta): Result<State, ChunkError> {
    match d
    case TextDelta(text) => Ok(WithText(s, text))
    case ThinkingDelta(thinking) => Ok(WithThinking(s, thinking))
    case CallDelta(c) => HandleCall(s, c)
    case Finish(reason) => Ok(if reason == "tool_calls" then s.(calls := AllDone(s.calls)) else s)
  }

  /** The ids for which handling this delta reports the end of a call. */
  function EndsOf(s: State, d: Delta): seq<string> {
    if d == Finish("tool_calls") then Running(s.calls) else []
  }

  // ---------------------------------------------------------------------------------------
  // Runs
  // ---------------------------------------------------------------------------------------

  predicate Accepted(ds: seq<Delta>) {
    ds == [] || (Accepted(ds[..|ds| - 1]) && Handle(After(ds[..|ds| - 1]), ds[|ds| - 1]).Ok?)
  }

  function After(ds: seq<Delta>): State {
    if ds == [] then Empty
    else
      match Handle(After(ds[..|ds| - 1]), ds[|ds| - 1])
      case Ok(s) => s
      case Err(_) => After(ds[..|ds| - 1])
  }

  /** Every end of a call reported, in order. */
  function Ends(ds: seq<Delta>): seq<string> {
    if ds == [] then [] else Ends(ds[..|ds| - 1]) + EndsOf(After(ds[..|ds| - 1]), ds[|ds| - 1])
  }

  // ---------------------------------------------------------------------------------------
  // The reference: what the deltas say, read off the sequence itself
  // ---------------------------------------------------------------------------------------

  datatype CallStart = CallStart(index: nat, id: string, name: string)

  function AllText(ds: seq<Delta>): string {
    if ds == [] then "" else AllText(ds[..|ds| - 1]) + if ds[|ds| - 1].TextDelta? then ds[|ds| - 1].text else ""
  }

  function AllThinking(ds: seq<Delta>): string {
    if ds == [] then "" else AllThinking(ds[..|ds| - 1]) + if ds[|ds| - 1].ThinkingDelta? then ds[|ds| - 1].thinking
        else ""
  }

  function ArgumentsIn(d: Delta, index: nat): string {
    if d.CallDelta? && d.call.index == Some(index) then d.call.arguments else ""
  }

  function AllArguments(ds: seq<Delta>, index: nat): string {
    if ds == [] then "" else AllArguments(ds[..|ds| - 1], index) + ArgumentsIn(ds[|ds| - 1], index)
  }

  function StartIn(d: Delta): seq<CallStart> {
    if d.CallDelta? && d.call.index.Some? && d.call.id != "" then
      [CallStart(d.call.index.value, d.call.id, d.call.name)]
    else []
  }

  function Starts(ds: seq<Delta>): seq<CallStart> {
    if ds == [] then [] else Starts(ds[..|ds| - 1]) + StartIn(ds[|ds| - 1])
  }

  /** How many calls had started when the answer last finished with tool calls. */
  function Ended(ds: seq<Delta>): nat {
    if ds == [] then 0
    else if ds[|ds| - 1] == Finish("tool_calls") then |Starts(ds[..|ds| - 1])|
    else Ended(ds[..|ds| - 1])
  }

  predicate HasText(ds: seq<Delta>) {
    ds != [] && (ds[|ds| - 1].TextDelta? || HasText(ds[..|ds| - 1]))
  }

  predicate HasThinking(ds: seq<Delta>) {
    ds != [] && (ds[|ds| - 1].ThinkingDelta? || HasThinking(ds[..|ds| - 1]))
  }

  /** The segments in order of first appearance: at most one of text, one of thinking, one for each call started. */
  function Order(ds: seq<Delta>): seq<B.Segment> {
    if ds == [] then []
    else
      var before, d := ds[..|ds| - 1], ds[|ds| - 1];
      Order(before)
      + (if d.TextDelta? && !HasText(before) then [B.TextAt(0)]
         else if d.ThinkingDelta? && !HasThinking(before) then [B.ThinkingAt(0)]
         else if StartIn(d) != [] then [B.CallAt(|Starts(before)|)]
         else [])
  }

  /** The content of the message: all text, all thinking, and each call with the arguments of its index. */
  function ContentAt(ds: seq<Delta>, segment: B.Segment): seq<AssistantContent> {
    match segment
    case TextAt(_) => B.Shown(Text(AllText(ds)))
    case ThinkingAt(_) => B.Shown(Thinking(AllThinking(ds)))
    case CallAt(j) =>
      if j >= |Starts(ds)| then []
      else [Call(ToolCall(Starts(ds)[j].id, Starts(ds)[j].name, AllArguments(ds, Starts(ds)[j].index)))]
  }

  function Content(ds: seq<Delta>, n: nat): seq<AssistantContent>
    requires n <= |Order(ds)|
  {
    if n == 0 then [] else Content(ds, n - 1) + ContentAt(ds, Order(ds)[n - 1])
  }

  // ---------------------------------------------------------------------------------------
  // The accumulator holds what the deltas say
  // ---------------------------------------------------------------------------------------

  ghost predicate BlocksOk(s: State, ds: seq<Delta>) {
    && s.segments == Order(ds)
    && s.texts == (if HasText(ds) then [AllText(ds)] else [])
    && s.thinkings == (if HasThinking(ds) then [AllThinking(ds)] else [])
    && (!HasText(ds) ==> AllText(ds) == "") && (!HasThinking(ds) ==> AllThinking(ds) == "")
  }

  /** Call j is the j-th one started, with the arguments of its index, and done exactly when its end was reported. */
  ghost predicate CallsOk(s: State, ds: seq<Delta>) {
    && |s.calls| == |Starts(ds)| && Ended(ds) <= |Starts(ds)|
    && forall j :: 0 <= j < |s.calls| ==>
         s.calls[j] == B.CallAcc(Starts(ds)[j].id, Starts(ds)[j].name, AllArguments(ds, Starts(ds)[j].index),
             j < Ended(ds))
  }

  ghost predicate Known(s: State, starts: seq<CallStart>) {
    forall j :: 0 <= j < |starts| ==> LocalIndex(s, starts[j].index) == Some(j)
  }

  ghost predicate NoOther(s: State, starts: seq<CallStart>) {
    forall i: nat :: LocalIndex(s, i).Some?
        ==> LocalIndex(s, i).value < |starts| && starts[LocalIndex(s, i).value].index == i
  }

  /** The index map sends the index of each started call to that call, and no other index anywhere. */
  ghost predicate IndexOk(s: State, ds: seq<Delta>) {
    && Known(s, Starts(ds)) && NoOther(s, Starts(ds))
    && (forall i: nat :: LocalIndex(s, i).None? ==> AllArguments(ds, i) == "")
  }

  ghost predicate Represents(s: State, ds: seq<Delta>) {
    BlocksOk(s, ds) && CallsOk(s, ds) && IndexOk(s, ds)
  }

  lemma Snoc(ds: seq<Delta>, d: Delta)
    ensures var all := ds + [d];
      && all[..|all| - 1] == ds && all[|all| - 1] == d
      && AllText(all) == AllText(ds) + (if d.TextDelta? then d.text else "")
      && AllThinking(all) == AllThinking(ds) + (if d.ThinkingDelta? then d.thinking else "")
      && Starts(all) == Starts(ds) + StartIn(d)
      && (HasText(all) <==> d.TextDelta? || HasText(ds)) && (HasThinking(all) <==> d.ThinkingDelta? || HasThinking(ds))
      && Ended(all) == if d == Finish("tool_calls") then |Starts(ds)| else Ended(ds)
    ensures forall i: nat :: AllArguments(ds + [d], i) == AllArguments(ds, i) + ArgumentsIn(d, i)
  {
    var all := ds + [d];
    assert all[..|all| - 1] == ds;
  }

  lemma OrderSnoc(ds: seq<Delta>, d: Delta)
    ensures Order(ds + [d]) == Order(ds)
      + (if d.TextDelta? && !HasText(ds) then [B.TextAt(0)]
         else if d.ThinkingDelta? && !HasThinking(ds) then [B.ThinkingAt(0)]
         else if StartIn(d) != [] then [B.CallAt(|Starts(ds)|)]
         else [])
  {
    var all := ds + [d];
    assert all[..|all| - 1] == ds;
  }

  lemma {:induction false} FirstSnoc(segments: seq<B.Segment>, x: B.Segment)
    ensures FirstText(segments + [x]) == if FirstText(segments).Some? then FirstText(segments)
        else if x.TextAt? then Some(x.slot) else None
    ensures FirstThinking(segments + [x])
         == if FirstThinking(segments).Some? then FirstThinking(segments) else if x.ThinkingAt? then Some(x.slot)
             else None
    decreases |segments|
  {
    if segments == [] {
      assert [x][1..] == [];
    } else {
      assert (segments + [x])[1..] == segments[1..] + [x];
      FirstSnoc(segments[1..], x);
    }
  }

  /** Which text and thinking segment is found first. */
  lemma {:induction false} FirstInOrder(ds: seq<Delta>)
    ensures FirstText(Order(ds)) == if HasText(ds) then Some(0) else None
    ensures FirstThinking(Order(ds)) == if HasThinking(ds) then Some(0) else None
    decreases |ds|
  {
    if ds != [] {
      var before, d := ds[..|ds| - 1], ds[|ds| - 1];
      assert ds == before + [d];
      FirstInOrder(before);
      OrderSnoc(before, d);
      if Order(ds) != Order(before) {
        FirstSnoc(Order(before), Order(ds)[|Order(before)|]);
      }
    }
  }

  /** A delta that is no call entry changes neither what was started nor any arguments. */
  lemma QuietSnoc(ds: seq<Delta>, d: Delta)
    requires !d.CallDelta?
    ensures Starts(ds + [d]) == Starts(ds) && forall i: nat :: AllArguments(ds + [d], i) == AllArguments(ds, i)
  {
    Snoc(ds, d);
    hide AllArguments, Starts;
    assert Starts(ds) + [] == Starts(ds);
    forall i: nat ensures AllArguments(ds + [d], i) == AllArguments(ds, i) {
      assert AllArguments(ds, i) + "" == AllArguments(ds, i);
    }
  }

  lemma QuietKeepsIndex(s: State, t: State, ds: seq<Delta>, d: Delta)
    requires IndexOk(s, ds) && t.toolIndex == s.toolIndex && !d.CallDelta?
    ensures IndexOk(t, ds + [d])
  {
    QuietSnoc(ds, d);
    hide AllArguments, Starts;
    assert forall i: nat :: LocalIndex(t, i) == LocalIndex(s, i);
  }

  lemma QuietKeepsCalls(s: State, t: State, ds: seq<Delta>, d: Delta)
    requires CallsOk(s, ds) && t.calls == s.calls && (d.TextDelta? || d.ThinkingDelta?)
    ensures CallsOk(t, ds + [d])
  {
    QuietSnoc(ds, d);
    Snoc(ds, d);
    hide AllArguments, Starts, Ended;
  }

  lemma TextKeepsBlocks(s: State, ds: seq<Delta>, text: string)
    requires BlocksOk(s, ds)
    ensures BlocksOk(WithText(s, text), ds + [TextDelta(text)])
  {
    Snoc(ds, TextDelta(text));
    OrderSnoc(ds, TextDelta(text));
    FirstInOrder(ds);
    hide Order, AllText, AllThinking, Starts, HasText, HasThinking, FirstText, FirstThinking;
    assert AllThinking(ds) + "" == AllThinking(ds) && Order(ds) + [] == Order(ds) && "" + text == text;
  }

  lemma ThinkingKeepsBlocks(s: State, ds: seq<Delta>, text: string)
    requires BlocksOk(s, ds)
    ensures BlocksOk(WithThinking(s, text), ds + [ThinkingDelta(text)])
  {
    Snoc(ds, ThinkingDelta(text));
    OrderSnoc(ds, ThinkingDelta(text));
    FirstInOrder(ds);
    hide Order, AllText, AllThinking, Starts, HasText, HasThinking, FirstText, FirstThinking;
    assert AllText(ds) + "" == AllText(ds) && Order(ds) + [] == Order(ds) && "" + text == text;
  }

  lemma TextKeeps(s: State, ds: seq<Delta>, d: Delta)
    requires Represents(s, ds) && (d.TextDelta? || d.ThinkingDelta?)
    ensures Represents(Handle(s, d).value, ds + [d])
  {
    var t := Handle(s, d).value;
    assert t.calls == s.calls && t.toolIndex == s.toolIndex;
    hide BlocksOk, CallsOk, IndexOk;
    QuietKeepsCalls(s, t, ds, d);
    QuietKeepsIndex(s, t, ds, d);
    match d
    case TextDelta(text) => TextKeepsBlocks(s, ds, text);
    case ThinkingDelta(text) => ThinkingKeepsBlocks(s, ds, text);
  }

  lemma AllDoneHolds(s: State, ds: seq<Delta>, reason: string)
    requires CallsOk(s, ds)
    ensures CallsOk(Handle(s, Finish(reason)).value, ds + [Finish(reason)])
  {
    Snoc(ds, Finish(reason));
    QuietSnoc(ds, Finish(reason));
    hide AllArguments, Starts, Ended;
  }

  lemma FinishKeepsBlocks(s: State, t: State, ds: seq<Delta>, d: Delta)
    requires BlocksOk(s, ds) && d.Finish? && t == s.(calls := t.calls)
    ensures BlocksOk(t, ds + [d])
  {
    Snoc(ds, d);
    OrderSnoc(ds, d);
    hide Order, AllText, AllThinking, Starts, HasText, HasThinking;
    assert AllText(ds) + "" == AllText(ds) && AllThinking(ds) + "" == AllThinking(ds) && Order(ds) + [] == Order(ds);
  }

  lemma FinishKeeps(s: State, ds: seq<Delta>, d: Delta)
    requires Represents(s, ds) && d.Finish?
    ensures Represents(Handle(s, d).value, ds + [d])
  {
    var t := Handle(s, d).value;
    assert t == s.(calls := t.calls);
    hide BlocksOk, CallsOk, IndexOk, Handle;
    AllDoneHolds(s, ds, d.reason);
    FinishKeepsBlocks(s, t, ds, d);
    QuietKeepsIndex(s, t, ds, d);
  }

  /** A call entry leaves text and thinking alone and adds a segment only when it starts a call. */
  lemma CallKeepsBlocks(s: State, ds: seq<Delta>, d: Delta)
    requires BlocksOk(s, ds) && CallsOk(s, ds) && d.CallDelta? && Handle(s, d).Ok?
    ensures BlocksOk(Handle(s, d).value, ds + [d])
  {
    Snoc(ds, d);
    OrderSnoc(ds, d);
    hide Order, AllText, AllThinking, AllArguments, Starts, HasText, HasThinking, Ended, Mapped;
    assert AllText(ds) + "" == AllText(ds) && AllThinking(ds) + "" == AllThinking(ds);
    assert Order(ds) + [] == Order(ds);
  }

  /** The calls after a start: those before, and the new one with what came along. */
  lemma StartedCall(s: State, d: Delta)
    requires d.CallDelta? && d.call.id != "" && Handle(s, d).Ok?
    ensures d.call.index.Some? && LocalIndex(s, d.call.index.value).None?
    ensures Handle(s, d).value.calls == s.calls + [B.CallAcc(d.call.id, d.call.name, d.call.arguments, false)]
    ensures forall i: nat :: LocalIndex(Handle(s, d).value, i) == if i == d.call.index.value then Some(|s.calls|)
        else LocalIndex(s, i)
  {
    assert "" + d.call.arguments == d.call.arguments;
  }

  lemma StartSnoc(ds: seq<Delta>, d: Delta)
    requires d.CallDelta? && d.call.id != "" && d.call.index.Some?
    ensures Starts(ds + [d]) == Starts(ds) + [CallStart(d.call.index.value, d.call.id, d.call.name)]
    ensures forall i: nat :: AllArguments(ds + [d], i)
              == if i == d.call.index.value then AllArguments(ds, i) + d.call.arguments else AllArguments(ds, i)
    ensures Ended(ds + [d]) == Ended(ds)
  {
    Snoc(ds, d);
    hide AllArguments, Starts, Ended;
    forall i: nat ensures AllArguments(ds + [d], i)
              == if i == d.call.index.value then AllArguments(ds, i) + d.call.arguments else AllArguments(ds, i) {
      assert AllArguments(ds, i) + "" == AllArguments(ds, i);
    }
  }

  lemma FreshIndex(s: State, ds: seq<Delta>, index: nat)
    requires IndexOk(s, ds) && LocalIndex(s, index).None?
    ensures AllArguments(ds, index) == "" && forall j :: 0 <= j < |Starts(ds)| ==> Starts(ds)[j].index != index
  {
    hide AllArguments, Starts, LocalIndex;
    forall j | 0 <= j < |Starts(ds)| ensures Starts(ds)[j].index != index {
      assert LocalIndex(s, Starts(ds)[j].index) == Some(j);
    }
  }

  lemma StartKeepsCalls(s: State, ds: seq<Delta>, d: Delta)
    requires CallsOk(s, ds) && IndexOk(s, ds) && d.CallDelta? && d.call.id != "" && Handle(s, d).Ok?
    ensures CallsOk(Handle(s, d).value, ds + [d])
  {
    StartedCall(s, d);
    StartSnoc(ds, d);
    FreshIndex(s, ds, d.call.index.value);
    hide AllArguments, Starts, Ended, Handle, LocalIndex, IndexOk;
    assert "" + d.call.arguments == d.call.arguments;
    var all, calls := ds + [d], Handle(s, d).value.calls;
    forall j | 0 <= j < |calls|
      ensures calls[j] == B.CallAcc(Starts(all)[j].id, Starts(all)[j].name, AllArguments(all, Starts(all)[j].index),
          j < Ended(all))
    {
      if j < |s.calls| {
        assert calls[j] == s.calls[j] && Starts(all)[j] == Starts(ds)[j];
      } else {
        assert Starts(all)[j].index == d.call.index.value;
      }
    }
  }

  lemma OneMoreKnown(s: State, t: State, starts: seq<CallStart>, x: CallStart)
    requires Known(s, starts) && NoOther(s, starts) && LocalIndex(s, x.index).None?
    requires forall i: nat :: LocalIndex(t, i) == if i == x.index then Some(|starts|) else LocalIndex(s, i)
    ensures Known(t, starts + [x]) && NoOther(t, starts + [x])
  {
    hide LocalIndex;
    var all := starts + [x];
    forall j | 0 <= j < |all| ensures LocalIndex(t, all[j].index) == Some(j) {
      if j < |starts| { assert all[j] == starts[j]; }
    }
    forall i: nat | LocalIndex(t, i).Some?
        ensures LocalIndex(t, i).value < |all| && all[LocalIndex(t, i).value].index == i {
      if i != x.index { assert all[LocalIndex(s, i).value] == starts[LocalIndex(s, i).value]; }
    }
  }

  lemma StartKeepsIndex(s: State, ds: seq<Delta>, d: Delta)
    requires CallsOk(s, ds) && IndexOk(s, ds) && d.CallDelta? && d.call.id != "" && Handle(s, d).Ok?
    ensures IndexOk(Handle(s, d).value, ds + [d])
  {
    var t := Handle(s, d).value;
    var x := CallStart(d.call.index.value, d.call.id, d.call.name);
    assert |s.calls| == |Starts(ds)|;
    hide CallsOk;
    StartedCall(s, d);
    StartSnoc(ds, d);
    FreshIndex(s, ds, x.index);
    hide AllArguments, Starts, Ended, Handle, LocalIndex;
    assert Known(s, Starts(ds)) && NoOther(s, Starts(ds));
    assert forall i: nat :: LocalIndex(t, i).None? ==> LocalIndex(s, i).None? && i != x.index;
    hide Known, NoOther;
    OneMoreKnown(s, t, Starts(ds), x);
  }

  lemma MoreKeepsCalls(s: State, ds: seq<Delta>, d: Delta)
    requires CallsOk(s, ds) && IndexOk(s, ds) && d.CallDelta? && d.call.id == "" && Handle(s, d).Ok?
    ensures CallsOk(Handle(s, d).value, ds + [d]) && IndexOk(Handle(s, d).value, ds + [d])
  {
    Snoc(ds, d);
    hide AllArguments, Starts, Ended;
    var index, t := d.call.index.value, Handle(s, d).value;
    var slot := LocalIndex(s, index).value;
    assert StartIn(d) == [] && Starts(ds) + [] == Starts(ds);
    assert t.toolIndex == s.toolIndex;
    assert forall i: nat :: LocalIndex(t, i) == LocalIndex(s, i);
    assert forall i: nat :: AllArguments(ds, i) + "" == AllArguments(ds, i);
    forall j | 0 <= j < |Starts(ds)| && j != slot ensures Starts(ds)[j].index != index {
      assert LocalIndex(s, Starts(ds)[j].index) == Some(j);
    }
    hide LocalIndex, StartIn;
  }

  lemma DeltaKeeps(s: State, ds: seq<Delta>, d: Delta)
    requires Represents(s, ds) && Handle(s, d).Ok?
    ensures Represents(Handle(s, d).value, ds + [d])
  {
    hide BlocksOk, CallsOk, IndexOk, Handle;
    match d
    case TextDelta(_) => TextKeeps(s, ds, d);
    case ThinkingDelta(_) => TextKeeps(s, ds, d);
    case Finish(_) => FinishKeeps(s, ds, d);
    case CallDelta(c) =>
      CallKeepsBlocks(s, ds, d);
      if c.id != "" { StartKeepsCalls(s, ds, d); StartKeepsIndex(s, ds, d); } else { MoreKeepsCalls(s, ds, d); }
  }

  lemma NothingIsRepresented()
    ensures Represents(Empty, [])
  {
  }

  /**
   After any accepted deltas: one text block with all text, one thinking block with all thinking, and each call
   started, in order, with the arguments of its provider index; the index map sends exactly the started indices to
   their calls.
   */
  lemma {:induction false} AcceptedIsRepresented(ds: seq<Delta>)
    requires Accepted(ds)
    ensures Represents(After(ds), ds)
    decreases |ds|
  {
    hide Represents, Handle;
    if ds == [] {
      NothingIsRepresented();
    } else {
      var before, d := ds[..|ds| - 1], ds[|ds| - 1];
      assert ds == before + [d];
      AcceptedIsRepresented(before);
      DeltaKeeps(After(before), before, d);
    }
  }

  /** Two provider indices never stand for one call. */
  lemma IndexIsInjective(ds: seq<Delta>, i: nat, j: nat)
    requires Accepted(ds) && LocalIndex(After(ds), i).Some? && LocalIndex(After(ds), i) == LocalIndex(After(ds), j)
    ensures i == j && LocalIndex(After(ds), i).value < |After(ds).calls|
  {
    AcceptedIsRepresented(ds);
    hide After, LocalIndex, Starts;
  }

  predicate HasStarted(ds: seq<Delta>, index: nat) {
    exists j :: 0 <= j < |Starts(ds)| && Starts(ds)[j].index == index
  }

  /**
   A well-formed call entry is accepted exactly when it starts an index not started yet or continues a started one.
   */
  lemma CallAcceptedExactly(ds: seq<Delta>, c: RawCall)
    requires Accepted(ds) && c.index.Some? && c.hasFunction
    ensures Handle(After(ds), CallDelta(c)).Ok? <==> (c.id == "" <==> HasStarted(ds, c.index.value))
  {
    var index := c.index.value;
    AcceptedIsRepresented(ds);
    assert Handle(After(ds), CallDelta(c)).Ok? <==> (c.id == "" <==> LocalIndex(After(ds), index).Some?);
    hide After, Accepted, Starts, AllArguments, Handle, BlocksOk, CallsOk, LocalIndex;
    if LocalIndex(After(ds), index).Some? {
      assert Starts(ds)[LocalIndex(After(ds), index).value].index == index;
    }
  }

  // ---------------------------------------------------------------------------------------
  // The ends of calls
  // ---------------------------------------------------------------------------------------

  function Ids(calls: seq<B.CallAcc>): seq<string> {
    seq(|calls|, i requires 0 <= i < |calls| => calls[i].id)
  }

  lemma {:induction false} RunningIsRest(calls: seq<B.CallAcc>, e: nat)
    requires e <= |calls| && forall j :: 0 <= j < |calls| ==> (calls[j].done <==> j < e)
    ensures Running(calls) == Ids(calls)[e..]
    decreases |calls|
  {
    if calls != [] {
      var n := |calls| - 1;
      if e <= n {
        RunningIsRest(calls[..n], e);
        assert Ids(calls) == Ids(calls[..n]) + [calls[n].id];
      } else {
        RunningIsRest(calls[..n], n);
        assert Ids(calls[..n])[n..] == [];
      }
    }
  }

  lemma EndsStep(s: State, d: Delta, e: nat)
    requires Handle(s, d).Ok? && e <= |s.calls| && forall j :: 0 <= j < |s.calls| ==> (s.calls[j].done <==> j < e)
    ensures var ids, ids' := Ids(s.calls), Ids(Handle(s, d).value.calls);
      var e' := if d == Finish("tool_calls") then |s.calls| else e;
      e' <= |ids'| && ids[..e] + EndsOf(s, d) == ids'[..e']
  {
    IdsGrow(s, d);
    RunningIsRest(s.calls, e);
    var ids := Ids(s.calls);
    hide Handle, Running, Ids;
    assert ids[..e] + ids[e..] == ids && ids[..e] + [] == ids[..e];
  }

  /**
   The end of a call is reported once, in start order, for exactly the calls started before the answer last finished
   with tool calls, and those are the calls marked done.
   */
  lemma {:induction false} EndsOnce(ds: seq<Delta>)
    requires Accepted(ds)
    ensures Ended(ds) <= |After(ds).calls| && Ends(ds) == Ids(After(ds).calls)[..Ended(ds)]
    ensures forall j :: 0 <= j < |After(ds).calls| ==> (After(ds).calls[j].done <==> j < Ended(ds))
    decreases |ds|
  {
    DoneIsEnded(ds);
    if ds != [] {
      var before, d := ds[..|ds| - 1], ds[|ds| - 1];
      EndsOnce(before);
      StartedSoFar(before);
      EndsStep(After(before), d, Ended(before));
      hide Handle, Ids, EndsOf, Starts;
    }
  }

  lemma DoneIsEnded(ds: seq<Delta>)
    requires Accepted(ds)
    ensures Ended(ds) <= |After(ds).calls|
    ensures forall j :: 0 <= j < |After(ds).calls| ==> (After(ds).calls[j].done <==> j < Ended(ds))
  {
    AcceptedIsRepresented(ds);
    hide After, Ended, Starts, AllArguments, BlocksOk, IndexOk;
  }

  lemma StartedSoFar(ds: seq<Delta>)
    requires Accepted(ds)
    ensures |After(ds).calls| == |Starts(ds)|
  {
    AcceptedIsRepresented(ds);
    hide After, Ended, Starts, AllArguments, BlocksOk, IndexOk;
  }

  /** Handling a delta keeps the ids of the calls there were. */
  lemma IdsGrow(s: State, d: Delta)
    requires Handle(s, d).Ok?
    ensures Ids(s.calls) <= Ids(Handle(s, d).value.calls)
  {
    var t := Handle(s, d).value;
    assert |s.calls| <= |t.calls| && forall j :: 0 <= j < |s.calls| ==> t.calls[j].id == s.calls[j].id;
  }

  // ---------------------------------------------------------------------------------------
  // The message
  // ---------------------------------------------------------------------------------------

  /** The accumulator as its message is built: the index map plays no part. */
  function Built(s: State, n: nat): seq<AssistantContent>
    requires n <= |s.segments|
  {
    B.Built(B.State(s.texts, s.thinkings, s.calls, s.segments, []), n)
  }

  lemma BuiltSnoc(s: State, n: nat)
    requires 0 < n <= |s.segments|
    ensures Built(s, n)
         == Built(s, n - 1) + B.ShownAt(B.State(s.texts, s.thinkings, s.calls, s.segments, []), s.segments[n - 1])
  {
  }

  lemma SegmentsAreOrder(s: State, ds: seq<Delta>)
    requires Represents(s, ds)
    ensures s.segments == Order(ds)
  {
  }

  lemma NothingBuilt(s: State)
    ensures Built(s, 0) == []
  {
  }

  lemma {:induction false} BuiltIsContent(s: State, ds: seq<Delta>, n: nat)
    requires Represents(s, ds) && n <= |Order(ds)|
    ensures Built(s, n) == Content(ds, n)
  {
    hide Represents, Order, ContentAt, Built;
    SegmentsAreOrder(s, ds);
    if n == 0 {
      NothingBuilt(s);
    } else {
      BuiltIsContent(s, ds, n - 1);
      SegmentIsContent(s, ds, n - 1);
      BuiltSnoc(s, n);
    }
  }

  lemma SegmentIsContent(s: State, ds: seq<Delta>, k: nat)
    requires Represents(s, ds) && k < |Order(ds)|
    ensures B.ShownAt(B.State(s.texts, s.thinkings, s.calls, s.segments, []), s.segments[k])
        == ContentAt(ds, Order(ds)[k])
  {
    SlotsInOrder(ds, k);
    hide Order, AllText, AllThinking, AllArguments, Starts, HasText, HasThinking, Ended, IndexOk;
  }

  lemma {:induction false} SlotsInOrder(ds: seq<Delta>, k: nat)
    requires k < |Order(ds)|
    ensures match Order(ds)[k]
            case TextAt(i) => i == 0 && HasText(ds)
            case ThinkingAt(i) => i == 0 && HasThinking(ds)
            case CallAt(j) => j < |Starts(ds)|
    decreases |ds|
  {
    var before, d := ds[..|ds| - 1], ds[|ds| - 1];
    assert ds == before + [d];
    Snoc(before, d);
    if k < |Order(before)| {
      SlotsInOrder(before, k);
    }
  }

  /** The message of any accepted deltas is what they say: blocks in order of first appearance, empty ones dropped. */
  lemma MessageIsContent(ds: seq<Delta>)
    requires Accepted(ds)
    ensures |After(ds).segments| == |Order(ds)| && Built(After(ds), |After(ds).segments|) == Content(ds, |Order(ds)|)
  {
    AcceptedIsRepresented(ds);
    BuiltIsContent(After(ds), ds, |Order(ds)|);
  }

  // ---------------------------------------------------------------------------------------
  // Whole chunks
  // ---------------------------------------------------------------------------------------

  /**
   Where handling deltas one after the other gets, to their end or to the first one rejected, and the ends reported.
   */
  datatype Outcome = Outcome(state: State, error: Option<ChunkError>, ends: seq<string>)

  function Behind(ends: seq<string>, o: Outcome): Outcome {
    o.(ends := ends + o.ends)
  }

  function Applied(s: State, ds: seq<Delta>): Outcome
    decreases |ds|
  {
    if ds == [] then Outcome(s, None, [])
    else
      match Handle(s, ds[0])
      case Err(e) => Outcome(s, Some(e), [])
      case Ok(t) => Behind(EndsOf(s, ds[0]), Applied(t, ds[1..]))
  }

  lemma {:induction false} AppliedJoin(s: State, a: seq<Delta>, b: seq<Delta>)
    ensures Applied(s, a + b) == if Applied(s, a).error.Some? then Applied(s, a)
        else Behind(Applied(s, a).ends, Applied(Applied(s, a).state, b))
    decreases |a|
  {
    if a == [] {
      assert a + b == b;
      assert Behind([], Applied(s, b)) == Applied(s, b);
    } else {
      assert (a + b)[1..] == a[1..] + b;
      if Handle(s, a[0]).Ok? {
        var t, ends := Handle(s, a[0]).value, EndsOf(s, a[0]);
        AppliedJoin(t, a[1..], b);
        BehindJoin(ends, Applied(t, a[1..]).ends, Applied(Applied(t, a[1..]).state, b));
      }
    }
  }

  lemma BehindJoin(a: seq<string>, b: seq<string>, o: Outcome)
    ensures Behind(a, Behind(b, o)) == Behind(a + b, o)
  {
  }

  lemma AppliedOne(s: State, d: Delta)
    ensures Applied(s, [d]) == if Handle(s, d).Ok? then Outcome(Handle(s, d).value, None, EndsOf(s, d))
        else Outcome(s, Some(Handle(s, d).error), [])
  {
    assert [d][1..] == [];
    assert EndsOf(s, d) + [] == EndsOf(s, d);
  }

  lemma OneMore(ds: seq<Delta>, d: Delta)
    requires Accepted(ds) && Handle(After(ds), d).Ok?
    ensures Accepted(ds + [d]) && After(ds + [d]) == Handle(After(ds), d).value
    ensures Ends(ds + [d]) == Ends(ds) + EndsOf(After(ds), d)
  {
    var all := ds + [d];
    assert all[..|all| - 1] == ds;
  }

  lemma AppliedNothing(s: State)
    ensures Applied(s, []) == Outcome(s, None, [])
  {
  }

  lemma AppliedSplits(s: State, more: seq<Delta>)
    requires more != [] && Applied(s, more).error.None?
    ensures Handle(s, more[0]).Ok?
    ensures var rest := Applied(Handle(s, more[0]).value, more[1..]);
      Applied(s, more) == Outcome(rest.state, rest.error, EndsOf(s, more[0]) + rest.ends)
  {
  }

  /** A chunk handled to its end goes on with the run of accepted deltas, and reports the ends that run goes on with. */
  lemma {:induction false} ChunkContinuesRun(ds: seq<Delta>, more: seq<Delta>)
    requires Accepted(ds) && Applied(After(ds), more).error.None?
    ensures Accepted(ds + more) && After(ds + more) == Applied(After(ds), more).state
    ensures Ends(ds + more) == Ends(ds) + Applied(After(ds), more).ends
    decreases |more|
  {
    hide Handle, After, Accepted, Applied, Ends, EndsOf, Behind;
    if more == [] {
      assert ds + more == ds;
      AppliedNothing(After(ds));
      assert Ends(ds) + [] == Ends(ds);
    } else {
      var next, d := ds + [more[0]], more[0];
      AppliedSplits(After(ds), more);
      OneMore(ds, d);
      assert next + more[1..] == ds + more;
      ChunkContinuesRun(next, more[1..]);
      var rest := Applied(After(next), more[1..]).ends;
      assert (Ends(ds) + EndsOf(After(ds), d)) + rest == Ends(ds) + (EndsOf(After(ds), d) + rest);
    }
  }

  // ---------------------------------------------------------------------------------------
  // What a chunk carries
  // ---------------------------------------------------------------------------------------

  /**
   The deltas of a chunk say its text and its thinking, then, behind those, each of its call entries, and in the end why
   the answer has finished, if it has.
   */
  lemma ChunkSays(chunk: Chunk)
    ensures AllText(DeltasOf(chunk)) == (if chunk.content.Some? then chunk.content.value else "")
    ensures AllThinking(DeltasOf(chunk)) == (if chunk.reasoning.Some? then chunk.reasoning.value else "")
    ensures var front, ds := |TextDeltas(chunk)|, DeltasOf(chunk);
      && (forall d :: d in TextDeltas(chunk) ==>
            (d.TextDelta? && d.text != "") || (d.ThinkingDelta? && d.thinking != ""))
      && |ds| == front + |chunk.calls| + (if chunk.finish.Some? then 1 else 0)
      && (forall j :: 0 <= j < |chunk.calls| ==> ds[front + j] == CallDelta(chunk.calls[j]))
      && (chunk.finish.Some? ==> ds[|ds| - 1] == Finish(chunk.finish.value))
  {
    hide AllText, AllThinking;
    var calls, finish := CallDeltas(chunk.calls), if chunk.finish.Some? then [Finish(chunk.finish.value)] else [];
    DeltasInOrder(chunk, calls, finish);
    TextsSay(chunk);
    TailsAreQuiet(chunk, calls, finish);
  }

  lemma DeltasInOrder(chunk: Chunk, calls: seq<Delta>, finish: seq<Delta>)
    requires calls == CallDeltas(chunk.calls)
    requires finish == if chunk.finish.Some? then [Finish(chunk.finish.value)] else []
    ensures DeltasOf(chunk) == (TextDeltas(chunk) + calls) + finish
    ensures forall d :: d in calls ==> d.CallDelta?
  {
    hide TextDeltas;
  }

  lemma TailsAreQuiet(chunk: Chunk, calls: seq<Delta>, finish: seq<Delta>)
    requires (forall d :: d in calls ==> d.CallDelta?) && (forall d :: d in finish ==> d.Finish?)
    ensures var texts := TextDeltas(chunk);
      && AllText((texts + calls) + finish) == AllText(texts)
      && AllThinking((texts + calls) + finish) == AllThinking(texts)
  {
    hide *;
    QuietTail(TextDeltas(chunk), calls);
    QuietTail(TextDeltas(chunk) + calls, finish);
  }

  lemma TextsSay(chunk: Chunk)
    ensures AllText(TextDeltas(chunk)) == (if chunk.content.Some? then chunk.content.value else "")
    ensures AllThinking(TextDeltas(chunk)) == (if chunk.reasoning.Some? then chunk.reasoning.value else "")
  {
    var a := if chunk.content.Some? && chunk.content.value != "" then [TextDelta(chunk.content.value)] else [];
    if a != [] {
      Snoc([], a[0]);
      assert [] + [a[0]] == a;
    }
    if chunk.reasoning.Some? && chunk.reasoning.value != "" {
      Snoc(a, ThinkingDelta(chunk.reasoning.value));
      assert TextDeltas(chunk) == a + [ThinkingDelta(chunk.reasoning.value)];
    } else {
      assert TextDeltas(chunk) == a;
    }
  }

  lemma {:induction false} QuietTail(front: seq<Delta>, tail: seq<Delta>)
    requires forall d :: d in tail ==> d.CallDelta? || d.Finish?
    ensures AllText(front + tail) == AllText(front) && AllThinking(front + tail) == AllThinking(front)
    decreases |tail|
  {
    hide AllText, AllThinking;
    if tail == [] {
      assert front + tail == front;
    } else {
      var n := |tail| - 1;
      var rest := tail[..n];
      assert forall d :: d in rest ==> d in tail;
      QuietTail(front, rest);
      QuietOne(front + rest, tail[n]);
      assert front + tail == (front + rest) + [tail[n]];
    }
  }

  lemma QuietOne(ds: seq<Delta>, d: Delta)
    requires d.CallDelta? || d.Finish?
    ensures AllText(ds + [d]) == AllText(ds) && AllThinking(ds + [d]) == AllThinking(ds)
  {
    assert (ds + [d])[..|ds|] == ds;
    assert AllText(ds) + "" == AllText(ds) && AllThinking(ds) + "" == AllThinking(ds);
  }

  /** Why a call entry is rejected: the first thing wrong with it. */
  lemma CallRejectedBecause(ds: seq<Delta>, c: RawCall)
    requires Accepted(ds) && Handle(After(ds), CallDelta(c)).Err?
    ensures Handle(After(ds), CallDelta(c)).error ==
              if c.index.None? then MissingIndex
              else if !c.hasFunction then MissingFunction
              else if c.id != "" then DuplicateStart
              else UnknownIndex
  {
    hide After, Accepted;
  }

  // ---------------------------------------------------------------------------------------
  // Rejected chunks
  // ---------------------------------------------------------------------------------------

  /** What comes behind a rejected delta is not looked at. */
  lemma RestIgnored(s: State, some: seq<Delta>, all: seq<Delta>)
    requires some <= all && Applied(s, some).error.Some?
    ensures Applied(s, all) == Applied(s, some)
  {
    assert all == some + all[|some|..];
    AppliedJoin(s, some, all[|some|..]);
  }

  /** A continuation of a call that brings no arguments. */
  predicate Idle(d: Delta) {
    d.CallDelta? && d.call.id == "" && d.call.arguments == ""
  }

  /** A delta that brings something. */
  predicate Brings(d: Delta) {
    match d
    case TextDelta(text) => text != ""
    case ThinkingDelta(thinking) => thinking != ""
    case CallDelta(c) => c.id != "" || c.arguments != ""
    case Finish(_) => false
  }

  lemma {:induction false} IdleChangesNothing(s: State, ds: seq<Delta>)
    requires Applied(s, ds).error.None? && forall d :: d in ds ==> Idle(d)
    ensures Applied(s, ds).state == s
    decreases |ds|
  {
    if ds != [] {
      assert Idle(ds[0]);
      assert forall d :: d in ds[1..] ==> d in ds;
      IdleChangesNothing(s, ds[1..]);
    }
  }

  /** No text, thinking, start or argument of `a` is missing from `b`. */
  ghost predicate NoLess(a: seq<Delta>, b: seq<Delta>) {
    && |AllText(a)| <= |AllText(b)| && |AllThinking(a)| <= |AllThinking(b)| && |Starts(a)| <= |Starts(b)|
    && forall i: nat :: |AllArguments(a, i)| <= |AllArguments(b, i)|
  }

  ghost predicate Same(a: seq<Delta>, b: seq<Delta>) {
    && AllText(a) == AllText(b) && AllThinking(a) == AllThinking(b) && Starts(a) == Starts(b)
    && forall i: nat :: AllArguments(a, i) == AllArguments(b, i)
  }

  lemma {:induction false} MoreIsNoLess(ds: seq<Delta>, more: seq<Delta>)
    ensures NoLess(ds, ds + more)
    decreases |more|
  {
    if more == [] {
      assert ds + more == ds;
    } else {
      var rest, d := more[..|more| - 1], more[|more| - 1];
      MoreIsNoLess(ds, rest);
      Snoc(ds + rest, d);
      assert ds + more == (ds + rest) + [d];
      hide AllText, AllThinking, Starts, AllArguments;
    }
  }

  lemma BringsGrows(ds: seq<Delta>, d: Delta)
    requires Brings(d) && (d.CallDelta? ==> d.call.index.Some?)
    ensures !NoLess(ds + [d], ds)
  {
    Snoc(ds, d);
    hide AllText, AllThinking, Starts, AllArguments;
    if d.CallDelta? {
      var i := d.call.index.value;
      assert AllArguments(ds + [d], i) == AllArguments(ds, i) + d.call.arguments;
    }
  }

  lemma NoLessJoins(a: seq<Delta>, b: seq<Delta>, c: seq<Delta>)
    requires NoLess(a, b) && NoLess(b, c)
    ensures NoLess(a, c)
  {
    hide AllText, AllThinking, Starts, AllArguments;
  }

  lemma SameIsNoLess(a: seq<Delta>, b: seq<Delta>)
    requires Same(a, b)
    ensures NoLess(a, b) && NoLess(b, a)
  {
    hide AllText, AllThinking, Starts, AllArguments;
  }

  /** What the deltas say can be read off the accumulator. */
  lemma StateTells(s: State, a: seq<Delta>, b: seq<Delta>)
    requires Represents(s, a) && Represents(s, b)
    ensures Same(a, b)
  {
    hide AllText, AllThinking, AllArguments, Starts, Order, Ended, HasText, HasThinking, LocalIndex;
    StartsTold(s, a, b);
    forall i: nat ensures AllArguments(a, i) == AllArguments(b, i) {
      if LocalIndex(s, i).Some? {
        assert Starts(a)[LocalIndex(s, i).value].index == i;
      }
    }
  }

  lemma StartsTold(s: State, a: seq<Delta>, b: seq<Delta>)
    requires CallsOk(s, a) && CallsOk(s, b) && Known(s, Starts(a)) && NoOther(s, Starts(b))
    ensures Starts(a) == Starts(b)
  {
    hide AllArguments, Starts, Ended, LocalIndex;
    forall j | 0 <= j < |Starts(a)| ensures Starts(a)[j] == Starts(b)[j] {
      assert LocalIndex(s, Starts(a)[j].index) == Some(j);
      assert s.calls[j].id == Starts(a)[j].id;
    }
  }

  lemma BringingSaysMore(ds: seq<Delta>, some: seq<Delta>, d: Delta, rest: seq<Delta>)
    requires Brings(d) && (d.CallDelta? ==> d.call.index.Some?)
    ensures !NoLess(ds + (some + ([d] + rest)), ds)
  {
    hide NoLess, Brings;
    assert ds + (some + ([d] + rest)) == ((ds + some) + [d]) + rest;
    MoreIsNoLess(ds, some);
    BringsGrows(ds + some, d);
    MoreIsNoLess((ds + some) + [d], rest);
    if NoLess(ds + (some + ([d] + rest)), ds) {
      NoLessJoins((ds + some) + [d], ds + (some + ([d] + rest)), ds);
      NoLessJoins((ds + some) + [d], ds, ds + some);
    }
  }

  lemma HandledInside(s: State, some: seq<Delta>, d: Delta, rest: seq<Delta>)
    requires Applied(s, some + ([d] + rest)).error.None? && d.CallDelta?
    ensures d.call.index.Some?
  {
    AppliedJoin(s, some, [d] + rest);
    AppliedJoin(Applied(s, some).state, [d], rest);
    AppliedOne(Applied(s, some).state, d);
    hide Applied, EndsOf;
  }

  /** Handled deltas of which one brings something change the accumulator. */
  lemma BringingChanges(ds: seq<Delta>, more: seq<Delta>, j: nat)
    requires Accepted(ds) && Applied(After(ds), more).error.None? && j < |more| && Brings(more[j])
    ensures Applied(After(ds), more).state != After(ds)
  {
    hide After, Accepted, Applied, Ends, Handle, Brings, NoLess, Same, Represents;
    var s, some, d, rest := After(ds), more[..j], more[j], more[j + 1..];
    assert more == some + ([d] + rest);
    if d.CallDelta? { HandledInside(s, some, d, rest); }
    BringingSaysMore(ds, some, d, rest);
    ChunkContinuesRun(ds, more);
    if After(ds + more) == s {
      AcceptedIsRepresented(ds);
      AcceptedIsRepresented(ds + more);
      StateTells(s, ds, ds + more);
      SameIsNoLess(ds, ds + more);
    }
  }

  /** What of a chunk is handled before its k-th call entry. */
  function FrontOf(chunk: Chunk, k: nat): seq<Delta>
    requires k <= |chunk.calls|
  {
    TextDeltas(chunk) + CallDeltas(chunk.calls[..k])
  }

  /** The chunk is rejected at this call entry. */
  predicate RejectedAt(s: State, chunk: Chunk, k: nat) {
    && k < |chunk.calls|
    && Applied(s, FrontOf(chunk, k)).error.None?
    && Handle(Applied(s, FrontOf(chunk, k)).state, CallDelta(chunk.calls[k])).Err?
  }

  lemma RejectedState(s: State, chunk: Chunk, k: nat)
    requires RejectedAt(s, chunk, k)
    ensures Applied(s, DeltasOf(chunk)).error.Some?
        && Applied(s, DeltasOf(chunk)).state == Applied(s, FrontOf(chunk, k)).state
  {
    var p, d := FrontOf(chunk, k), CallDelta(chunk.calls[k]);
    assert CallDeltas(chunk.calls)[..k + 1] == CallDeltas(chunk.calls[..k]) + [d];
    assert p + [d] <= DeltasOf(chunk);
    AppliedJoin(s, p, [d]);
    AppliedOne(Applied(s, p).state, d);
    hide Handle, Applied, DeltasOf, FrontOf;
    RestIgnored(s, p + [d], DeltasOf(chunk));
  }

  /** Texts and the reason of finishing are never rejected, so a chunk is rejected at a call entry or not at all. */
  lemma RejectedSomewhere(s: State, chunk: Chunk) returns (k: nat)
    requires Applied(s, DeltasOf(chunk)).error.Some?
    ensures RejectedAt(s, chunk, k)
  {
    TextsAccepted(s, chunk);
    k := 0;
    assert FrontOf(chunk, 0) == TextDeltas(chunk);
    while k < |chunk.calls| && Applied(s, FrontOf(chunk, k + 1)).error.None?
      invariant k <= |chunk.calls| && Applied(s, FrontOf(chunk, k)).error.None?
    {
      k := k + 1;
    }
    if k < |chunk.calls| {
      FrontSnoc(chunk, k);
      AppliedJoin(s, FrontOf(chunk, k), [CallDelta(chunk.calls[k])]);
      AppliedOne(Applied(s, FrontOf(chunk, k)).state, CallDelta(chunk.calls[k]));
    } else {
      FinishAccepted(s, chunk);
      assert false;
    }
  }

  lemma FrontSnoc(chunk: Chunk, k: nat)
    requires k < |chunk.calls|
    ensures FrontOf(chunk, k + 1) == FrontOf(chunk, k) + [CallDelta(chunk.calls[k])]
  {
    assert CallDeltas(chunk.calls[..k + 1]) == CallDeltas(chunk.calls[..k]) + [CallDelta(chunk.calls[k])];
  }

  lemma TextsAccepted(s: State, chunk: Chunk)
    ensures Applied(s, TextDeltas(chunk)).error.None?
  {
    hide WithText, WithThinking;
    var a := if chunk.content.Some? && chunk.content.value != "" then [TextDelta(chunk.content.value)] else [];
    AppliedJoin(s, a, TextDeltas(chunk)[|a|..]);
    assert TextDeltas(chunk) == a + TextDeltas(chunk)[|a|..];
  }

  lemma FinishAccepted(s: State, chunk: Chunk)
    requires Applied(s, FrontOf(chunk, |chunk.calls|)).error.None?
    ensures Applied(s, DeltasOf(chunk)).error.None?
  {
    var front := FrontOf(chunk, |chunk.calls|);
    assert chunk.calls[..|chunk.calls|] == chunk.calls;
    if chunk.finish.None? {
      assert DeltasOf(chunk) == front;
    } else {
      var d := Finish(chunk.finish.value);
      assert DeltasOf(chunk) == front + [d];
      AppliedJoin(s, front, [d]);
      AppliedOne(Applied(s, front).state, d);
    }
  }

  /** The entry carries neither an id nor arguments. */
  predicate IsEmptyEntry(c: RawCall) {
    c.id == "" && c.arguments == ""
  }

  /**
   Every chunk that is rejected, whatever was accepted before it: there is the call entry at which it is, and it leaves
   the accumulator as it was exactly when it carries no text and no thinking and all entries before that one are empty.
   */
  lemma RejectedChunkExactly(ds: seq<Delta>, chunk: Chunk) returns (k: nat)
    requires Accepted(ds) && Applied(After(ds), DeltasOf(chunk)).error.Some?
    ensures RejectedAt(After(ds), chunk, k)
    ensures Applied(After(ds), DeltasOf(chunk)).state == After(ds)
            <==> TextDeltas(chunk) == [] && forall j :: 0 <= j < k ==> IsEmptyEntry(chunk.calls[j])
  {
    var s := After(ds);
    k := RejectedSomewhere(s, chunk);
    RejectedState(s, chunk, k);
    var p := FrontOf(chunk, k);
    assert |p| == |TextDeltas(chunk)| + k;
    assert forall j :: 0 <= j < k ==> p[|TextDeltas(chunk)| + j] == CallDelta(chunk.calls[j]);
    hide After, Accepted, Applied, Handle, DeltasOf, TextDeltas, CallDeltas;
    if TextDeltas(chunk) != [] {
      TextBrings(chunk);
      BringingChanges(ds, p, 0);
    } else if j :| 0 <= j < k && !IsEmptyEntry(chunk.calls[j]) {
      BringingChanges(ds, p, j);
    } else {
      IdleChangesNothing(s, p);
    }
  }

  lemma TextBrings(chunk: Chunk)
    requires TextDeltas(chunk) != []
    ensures Brings(TextDeltas(chunk)[0])
  {
  }

  /** A chunk that is rejected half-way has already left its text behind. */
  lemma RejectedChunkLeavesText(text: string, call: RawCall)
    requires text != "" && call.index.None?
    ensures var chunk := Chunk(Some(text), None, [call], None);
      Applied(Empty, DeltasOf(chunk)) == Outcome(WithText(Empty, text), Some(MissingIndex), [])
          && WithText(Empty, text).texts == [text]
  {
    assert DeltasOf(Chunk(Some(text), None, [call], None)) == [TextDelta(text)] + [CallDelta(call)];
    AppliedJoin(Empty, [TextDelta(text)], [CallDelta(call)]);
    AppliedOne(Empty, TextDelta(text));
    AppliedOne(WithText(Empty, text), CallDelta(call));
  }

  // ---------------------------------------------------------------------------------------
  // The accumulator object
  // ---------------------------------------------------------------------------------------

  class Acc {
    var texts: seq<string>
    var thinkings: seq<string>
    var calls: seq<B.CallAcc>
    var segments: seq<B.Segment>
    var toolIndex: seq<Option<nat>>

    constructor ()
      ensures AsState() == Empty
    {
      texts, thinkings, calls, segments, toolIndex := [], [], [], [], [];
    }

    function AsState(): State
      reads this
    {
      State(texts, thinkings, calls, segments, toolIndex)
    }

    method AppendText(text: string)
      modifies this`texts, this`segments
      ensures AsState() == WithText(old(AsState()), text)
    {
      var existing := FirstText(segments);
      match existing {
        case Some(i) =>
          if i < |texts| {
            texts := texts[i := texts[i] + text];
          }
        case None =>
          var i := |texts|;
          texts := texts + [""];
          segments := segments + [B.TextAt(i)];
          texts := texts[i := texts[i] + text];
          assert "" + text == text;
      }
    }

    method AppendThinking(thinking: string)
      modifies this`thinkings, this`segments
      ensures AsState() == WithThinking(old(AsState()), thinking)
    {
      var existing := FirstThinking(segments);
      match existing {
        case Some(i) =>
          if i < |thinkings| {
            thinkings := thinkings[i := thinkings[i] + thinking];
          }
        case None =>
          var i := |thinkings|;
          thinkings := thinkings + [""];
          segments := segments + [B.ThinkingAt(i)];
          thinkings := thinkings[i := thinkings[i] + thinking];
          assert "" + thinking == thinking;
      }
    }

    /** Checks that the index is free before it changes anything. */
    method MapCall(c: RawCall) returns (error: Option<ChunkError>)
      modifies this`calls, this`segments, this`toolIndex
      ensures Outcome(AsState(), error, []) == Applied(old(AsState()), [CallDelta(c)])
    {
      AppliedOne(AsState(), CallDelta(c));
      if c.index.None? {
        return Some(MissingIndex);
      }
      if !c.hasFunction {
        return Some(MissingFunction);
      }
      var index := c.index.value;
      var known := LocalIndex(AsState(), index);
      var slot: nat;
      if c.id != "" {
        if known.Some? {
          return Some(DuplicateStart);
        }
        slot := |calls|;
        calls := calls + [B.CallAcc(c.id, c.name, "", false)];
        segments := segments + [B.CallAt(slot)];
        toolIndex := Mapped(toolIndex, index, slot);
      } else {
        if known.None? {
          return Some(UnknownIndex);
        }
        slot := known.value;
      }
      if c.arguments != "" && slot < |calls| {
        calls := calls[slot := calls[slot].(arguments := calls[slot].arguments + c.arguments)];
      }
      return None;
    }

    /** Reports every call that is not done, then marks all of them. */
    method EndCalls() returns (ends: seq<string>)
      modifies this`calls
      ensures ends == Running(old(calls)) && calls == AllDone(old(calls))
    {
      ends := [];
      for i := 0 to |calls|
        invariant calls == old(calls) && ends == Running(calls[..i])
      {
        assert calls[..i + 1][..i] == calls[..i];
        if !calls[i].done {
          ends := ends + [calls[i].id];
        }
      }
      assert calls[..|calls|] == calls;
      for i := 0 to |calls|
        invariant |calls| == |old(calls)|
        invariant forall j :: 0 <= j < |calls| ==> calls[j] == if j < i then old(calls)[j].(done := true)
            else old(calls)[j]
      {
        calls := calls[i := calls[i].(done := true)];
      }
    }

    method MapTexts(chunk: Chunk)
      modifies this`texts, this`thinkings, this`segments
      ensures Outcome(AsState(), None, []) == Applied(old(AsState()), TextDeltas(chunk))
    {
      ghost var start := AsState();
      AppliedNothing(start);
      hide Handle, Applied, WithText, WithThinking;
      ghost var done: seq<Delta> := [];
      if chunk.content.Some? && chunk.content.value != "" {
        AppendText(chunk.content.value);
        TextApplied(start, chunk.content.value);
        done := [TextDelta(chunk.content.value)];
      }
      if chunk.reasoning.Some? && chunk.reasoning.value != "" {
        TextApplied(AsState(), chunk.reasoning.value);
        AppliedJoin(start, done, [ThinkingDelta(chunk.reasoning.value)]);
        AppendThinking(chunk.reasoning.value);
        done := done + [ThinkingDelta(chunk.reasoning.value)];
      }
      assert done == TextDeltas(chunk);
    }

    /** One chunk: text, thinking, call entries in order, and the end of calls when the answer finishes with them. */
    method MapChunk(chunk: Chunk) returns (error: Option<ChunkError>, ends: seq<string>)
      modifies this
      ensures Outcome(AsState(), error, ends) == Applied(old(AsState()), DeltasOf(chunk))
    {
      ghost var start, front := AsState(), TextDeltas(chunk);
      hide Handle, Applied, TextDeltas;
      error, ends := None, [];
      MapTexts(chunk);
      var i := 0;
      assert front + CallDeltas(chunk.calls[..0]) == front;
      while i < |chunk.calls|
        invariant 0 <= i <= |chunk.calls| && error.None? && ends == []
        invariant Outcome(AsState(), None, []) == Applied(start, front + CallDeltas(chunk.calls[..i]))
      {
        CallsSnoc(front, chunk.calls, i);
        AppliedJoin(start, front + CallDeltas(chunk.calls[..i]), [CallDelta(chunk.calls[i])]);
        error := MapCall(chunk.calls[i]);
        if error.Some? {
          RestIgnored(start, front + CallDeltas(chunk.calls[..i + 1]), DeltasOf(chunk));
          return;
        }
        i := i + 1;
      }
      assert chunk.calls[..i] == chunk.calls;
      if chunk.finish.None? {
        assert DeltasOf(chunk) == front + CallDeltas(chunk.calls);
      } else {
        assert DeltasOf(chunk) == (front + CallDeltas(chunk.calls)) + [Finish(chunk.finish.value)];
        FinishApplied(AsState(), chunk.finish.value);
        AppliedJoin(start, front + CallDeltas(chunk.calls), [Finish(chunk.finish.value)]);
        if chunk.finish.value == "tool_calls" {
          ends := EndCalls();
        }
      }
    }
  }

  lemma TextApplied(s: State, text: string)
    ensures Applied(s, [TextDelta(text)]) == Outcome(WithText(s, text), None, [])
    ensures Applied(s, [ThinkingDelta(text)]) == Outcome(WithThinking(s, text), None, [])
  {
    AppliedOne(s, TextDelta(text));
    AppliedOne(s, ThinkingDelta(text));
  }

  lemma FinishApplied(s: State, reason: string)
    ensures Applied(s, [Finish(reason)])
        == (if reason == "tool_calls" then Outcome(s.(calls := AllDone(s.calls)), None, Running(s.calls))
        else Outcome(s, None, []))
  {
    AppliedOne(s, Finish(reason));
  }

  lemma CallsSnoc(front: seq<Delta>, calls: seq<RawCall>, i: nat)
    requires i < |calls|
    ensures front + CallDeltas(calls[..i + 1]) == (front + CallDeltas(calls[..i])) + [CallDelta(calls[i])]
  {
    assert CallDeltas(calls[..i + 1]) == CallDeltas(calls[..i]) + [CallDelta(calls[i])];
  }
}
