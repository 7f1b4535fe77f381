/**
 Running the tool calls of one turn, one by one or with neighbouring read-only calls in parallel
 (src/core/runtime/tools.rs). Which started call completes next is left open.
 */
module ToolExecution {
  import opened Wrappers
  import opened Messages
  import Transcript

  datatype Scope = ReadOnly | FileWriter | Exclusive
  datatype Tool = Tool(name: string, scope: Scope)
  datatype ToolOutput = ToolOutput(isError: bool, content: seq<ResultContent>)
  datatype Mode = Sequential | ReadOnlyParallel

  /**
   The tools and what surrounds them: `rejects` is why the arguments do not parse or a hook refuses the call, `run`
   what the tool returns or its error made a result, `after` what the hooks make of that.
   */
  datatype Toolbox = Toolbox(tools: seq<Tool>, rejects: ToolCall -> Option<string>,
                             run: (Tool, ToolCall) -> ToolOutput, after: (ToolCall, ToolOutput) -> ToolOutput)

  datatype PreparedCall = PreparedCall(call: ToolCall, tool: Option<Tool>, rejected: Option<string>)

  function FindTool(tools: seq<Tool>, name: string): Option<Tool> {
    if tools == [] then None
    else if tools[0].name == name then Some(tools[0])
    else FindTool(tools[1..], name)
  }

  function Prepare(box: Toolbox, call: ToolCall): PreparedCall {
    PreparedCall(call, FindTool(box.tools, call.name), box.rejects(call))
  }

  /** A call of no known tool counts as exclusive. */
  function ScopeOf(p: PreparedCall): Scope {
    if p.tool.Some? then p.tool.value.scope else Exclusive
  }

  function ErrorOutput(text: string): ToolOutput {
    ToolOutput(true, [ResultText(text)])
  }

  predicate Runs(p: PreparedCall) {
    p.rejected.None? && p.tool.Some?
  }

  function Outcome(box: Toolbox, p: PreparedCall): ToolOutput {
    if p.rejected.Some? then ErrorOutput(p.rejected.value)
    else if p.tool.Some? then box.run(p.tool.value, p.call)
    else ErrorOutput("unknown tool: " + p.call.name)
  }

  function ResultMessage(call: ToolCall, output: ToolOutput): Message {
    ToolResult(call.id, call.name, output.isError, output.content)
  }

  // ---------------------------------------------------------------------------------------
  // Which tool answers a call
  // ---------------------------------------------------------------------------------------

  /** The i-th tool is the first of this name. */
  predicate IsFirst(tools: seq<Tool>, name: string, i: nat) {
    i < |tools| && tools[i].name == name && forall j :: 0 <= j < i ==> tools[j].name != name
  }

  predicate Knows(tools: seq<Tool>, name: string) {
    exists i :: 0 <= i < |tools| && tools[i].name == name
  }

  lemma {:induction false} FindToolExactly(tools: seq<Tool>, name: string)
    ensures forall i: nat :: IsFirst(tools, name, i) ==> FindTool(tools, name) == Some(tools[i])
    ensures FindTool(tools, name).Some? <==> Knows(tools, name)
  {
    if tools != [] {
      var rest := tools[1..];
      FindToolExactly(rest, name);
      forall i: nat | IsFirst(tools, name, i) ensures FindTool(tools, name) == Some(tools[i]) {
        if i > 0 {
          assert tools[0].name != name;
          forall j | 0 <= j < i - 1 ensures rest[j].name != name { assert rest[j] == tools[j + 1]; }
          assert IsFirst(rest, name, i - 1);
        }
      }
      if Knows(tools, name) && tools[0].name != name {
        var i :| 0 <= i < |tools| && tools[i].name == name;
        assert rest[i - 1] == tools[i];
      }
    }
  }

  /** A call counts as read-only exactly when the tool it names is. */
  lemma ScopeIsOfTool(box: Toolbox, call: ToolCall)
    ensures forall i: nat :: IsFirst(box.tools, call.name, i) ==> ScopeOf(Prepare(box, call)) == box.tools[i].scope
    ensures !Knows(box.tools, call.name) ==> ScopeOf(Prepare(box, call)) == Exclusive
  {
    FindToolExactly(box.tools, call.name);
  }

  /** The message gives this output, as the hooks leave it, under the name of the call. */
  predicate Gives(m: Message, box: Toolbox, call: ToolCall, output: ToolOutput) {
    var final := box.after(call, output);
    m == ToolResult(call.id, call.name, final.isError, final.content)
  }

  /**
   How one call is answered: a refused one by why it is refused, one that names no tool by an error, and neither is
   run; any other by what the first tool of its name returns, and that is run.
   */
  ghost predicate IsAnswered(box: Toolbox, call: ToolCall, m: Message, runs: bool) {
    if box.rejects(call).Some? then
      !runs && Gives(m, box, call, ToolOutput(true, [ResultText(box.rejects(call).value)]))
    else if !Knows(box.tools, call.name) then
      !runs && Gives(m, box, call, ToolOutput(true, [ResultText("unknown tool: " + call.name)]))
    else runs && forall i: nat :: IsFirst(box.tools, call.name, i) ==> Gives(m, box, call, box.run(box.tools[i], call))
  }

  lemma PreparedIsAnswered(box: Toolbox, call: ToolCall)
    ensures var p := Prepare(box, call);
      IsAnswered(box, call, ResultMessage(call, box.after(call, Outcome(box, p))), Runs(p))
  {
    FindToolExactly(box.tools, call.name);
  }

  /** Each of these calls is answered so, and these are the ones run. */
  ghost predicate AllAnswered(box: Toolbox, calls: seq<ToolCall>, messages: seq<Message>, ran: set<nat>) {
    && |messages| == |calls| && (forall k :: k in ran ==> k < |calls|)
    && forall k :: 0 <= k < |calls| ==> IsAnswered(box, calls[k], messages[k], k in ran)
  }

  /** Each of these calls is answered by the same error. */
  predicate AllCutOff(calls: seq<ToolCall>, messages: seq<Message>) {
    && |messages| == |calls|
    && forall k :: 0 <= k < |calls| ==>
         messages[k] == ToolResult(calls[k].id, calls[k].name, true,
                                   [ResultText("tool call arguments truncated by length limit")])
  }

  /** One message per call, in call order. */
  function Expected(box: Toolbox, calls: seq<ToolCall>): seq<Message> {
    seq(|calls|, i requires 0 <= i < |calls| => ResultMessage(calls[i],
        box.after(calls[i], Outcome(box, Prepare(box, calls[i])))))
  }

  const TruncatedOutput := ErrorOutput("tool call arguments truncated by length limit")

  /** The answer to calls whose arguments the length limit cut off. */
  function Refusals(calls: seq<ToolCall>): seq<Message> {
    seq(|calls|, i requires 0 <= i < |calls| => ResultMessage(calls[i], TruncatedOutput))
  }

  // ---------------------------------------------------------------------------------------
  // What overlaps in time
  // ---------------------------------------------------------------------------------------

  /** The execution events of a batch, each named by the index of its call. */
  datatype ToolEvent = Start(index: nat) | End(index: nat)

  function StartedIn(trace: seq<ToolEvent>): set<nat> {
    set e | e in trace && e.Start? :: e.index
  }

  function EndedIn(trace: seq<ToolEvent>): set<nat> {
    set e | e in trace && e.End? :: e.index
  }

  lemma EventAdds(trace: seq<ToolEvent>, e: ToolEvent)
    ensures StartedIn(trace + [e]) == if e.Start? then StartedIn(trace) + {e.index} else StartedIn(trace)
    ensures EndedIn(trace + [e]) == if e.End? then EndedIn(trace) + {e.index} else EndedIn(trace)
  {
    var all := trace + [e];
    assert forall x :: x in all <==> x in trace || x == e;
    if e.Start? {
      assert e in all;
      forall i | i in StartedIn(trace) ensures i in StartedIn(all) {
        var x :| x in trace && x.Start? && x.index == i;
        assert x in all;
      }
    }
    if e.End? {
      assert e in all;
      forall i | i in EndedIn(trace) ensures i in EndedIn(all) {
        var x :| x in trace && x.End? && x.index == i;
        assert x in all;
      }
    }
  }

  predicate AllReadOnly(prepared: seq<PreparedCall>, a: nat, b: nat) {
    forall k :: a <= k <= b && k < |prepared| ==> ScopeOf(prepared[k]).ReadOnly?
  }

  /** Every earlier call has ended, except those joined to this one by read-only calls only. */
  predicate MayStart(prepared: seq<PreparedCall>, trace: seq<ToolEvent>, b: nat) {
    forall a: nat :: a < b ==> a in EndedIn(trace) || AllReadOnly(prepared, a, b)
  }

  /** Each call starts at most once, when it may, and ends at most once, after it started. */
  predicate TraceOk(prepared: seq<PreparedCall>, trace: seq<ToolEvent>) {
    trace == [] ||
    var before := trace[..|trace| - 1];
    && TraceOk(prepared, before)
    && match trace[|trace| - 1]
       case Start(b) => b < |prepared| && b !in StartedIn(before) && MayStart(prepared, before, b)
       case End(b) => b in StartedIn(before) && b !in EndedIn(before)
  }

  predicate Between(lo: nat, k: nat, hi: nat) {
    lo <= k < hi
  }

  function Range(lo: nat, hi: nat): set<nat> {
    set k: nat | k < hi && Between(lo, k, hi)
  }

  /** Every call has started and ended. */
  predicate Complete(prepared: seq<PreparedCall>, trace: seq<ToolEvent>) {
    StartedIn(trace) == Range(0, |prepared|) && EndedIn(trace) == Range(0, |prepared|)
  }

  /** Strictly one call after the other. */
  predicate OneByOne(trace: seq<ToolEvent>, n: nat) {
    |trace| == 2 * n && forall i :: 0 <= i < n ==> trace[2 * i] == Start(i) && trace[2 * i + 1] == End(i)
  }

  /** If one call has started while an earlier one has not ended, both and all between them are read-only. */
  lemma {:induction false} OnlyReadOnlyOverlaps(prepared: seq<PreparedCall>, trace: seq<ToolEvent>, a: nat, b: nat)
    requires TraceOk(prepared, trace)
    requires a < b && b in StartedIn(trace) && a !in EndedIn(trace)
    ensures b < |prepared| && AllReadOnly(prepared, a, b)
  {
    var n := |trace| - 1;
    var before, e := trace[..n], trace[n];
    assert trace == before + [e];
    EventAdds(before, e);
    if e != Start(b) {
      OnlyReadOnlyOverlaps(prepared, before, a, b);
    }
  }

  // ---------------------------------------------------------------------------------------
  // Execution
  // ---------------------------------------------------------------------------------------

  /** The calls whose tool is run. */
  function Runnable(prepared: seq<PreparedCall>): set<nat> {
    set k: nat | k < |prepared| && Runs(prepared[k])
  }

  predicate AreOutcomes(box: Toolbox, prepared: seq<PreparedCall>, results: seq<ToolOutput>) {
    |results| == |prepared| && forall i :: 0 <= i < |results| ==> results[i] == Outcome(box, prepared[i])
  }

  /** All calls before i have run and ended, none other has started. */
  predicate RanUpTo(box: Toolbox, prepared: seq<PreparedCall>, i: nat, trace: seq<ToolEvent>, ran: set<nat>)
    requires i <= |prepared|
  {
    && TraceOk(prepared, trace) && StartedIn(trace) == Range(0, i) && EndedIn(trace) == Range(0, i)
    && ran == Runnable(prepared[..i])
  }

  function Marked(prepared: PreparedCall, i: nat, ran: set<nat>): set<nat> {
    if Runs(prepared) then ran + {i} else ran
  }

  lemma NothingRan(box: Toolbox, prepared: seq<PreparedCall>)
    ensures RanUpTo(box, prepared, 0, [], {})
  {
  }

  /** When all earlier calls have ended, the next one can run alone. */
  lemma RunAlone(box: Toolbox, prepared: seq<PreparedCall>, i: nat, trace: seq<ToolEvent>, ran: set<nat>)
    requires i < |prepared| && RanUpTo(box, prepared, i, trace, ran)
    ensures RanUpTo(box, prepared, i + 1, trace + [Start(i)] + [End(i)], Marked(prepared[i], i, ran))
  {
    EventAdds(trace, Start(i));
    var started := trace + [Start(i)];
    assert started[..|started| - 1] == trace;
    EventAdds(started, End(i));
    var after := started + [End(i)];
    assert after[..|after| - 1] == started;
    assert Range(0, i + 1) == Range(0, i) + {i};
    assert Runnable(prepared[..i + 1]) == Marked(prepared[i], i, Runnable(prepared[..i]));
  }

  lemma AllRan(box: Toolbox, prepared: seq<PreparedCall>, trace: seq<ToolEvent>, ran: set<nat>)
    requires RanUpTo(box, prepared, |prepared|, trace, ran)
    ensures TraceOk(prepared, trace) && Complete(prepared, trace) && ran == Runnable(prepared)
  {
    assert prepared[..|prepared|] == prepared;
  }

  method ExecuteSequential(box: Toolbox, prepared: seq<PreparedCall>)
    returns (results: seq<ToolOutput>, trace: seq<ToolEvent>, ran: set<nat>)
    ensures AreOutcomes(box, prepared, results)
    ensures OneByOne(trace, |prepared|) && TraceOk(prepared, trace) && Complete(prepared, trace)
    ensures ran == Runnable(prepared)
  {
    hide RanUpTo, TraceOk, Complete, Runnable, Outcome;
    results, trace, ran := [], [], {};
    NothingRan(box, prepared);
    var i := 0;
    while i < |prepared|
      invariant 0 <= i <= |prepared|
      invariant |results| == i && forall k :: 0 <= k < i ==> results[k] == Outcome(box, prepared[k])
      invariant OneByOne(trace, i)
      invariant RanUpTo(box, prepared, i, trace, ran)
    {
      RunAlone(box, prepared, i, trace, ran);
      trace := trace + [Start(i)] + [End(i)];
      results := results + [Outcome(box, prepared[i])];
      ran := Marked(prepared[i], i, ran);
      i := i + 1;
    }
    AllRan(box, prepared, trace, ran);
  }

  // ---------------------------------------------------------------------------------------
  // Read-only groups
  // ---------------------------------------------------------------------------------------

  predicate HasKey(pairs: seq<(nat, ToolOutput)>, k: nat) {
    exists i :: 0 <= i < |pairs| && pairs[i].0 == k
  }

  /** Outcomes with the index of their call, in the order they came in: for these indices, each once. */
  ghost predicate AreOutcomesOf(box: Toolbox, prepared: seq<PreparedCall>, pairs: seq<(nat, ToolOutput)>,
      keys: set<nat>) {
    && (forall k: nat :: k in keys <==> HasKey(pairs, k))
    && (forall i :: 0 <= i < |pairs| ==> pairs[i].0 < |prepared| && pairs[i].1 == Outcome(box, prepared[pairs[i].0]))
    && (forall i, j :: 0 <= i < j < |pairs| ==> pairs[i].0 != pairs[j].0)
  }

  lemma OutcomeAdds(box: Toolbox, prepared: seq<PreparedCall>, pairs: seq<(nat, ToolOutput)>, keys: set<nat>, k: nat)
    requires AreOutcomesOf(box, prepared, pairs, keys) && k !in keys && k < |prepared|
    ensures AreOutcomesOf(box, prepared, pairs + [(k, Outcome(box, prepared[k]))], keys + {k})
  {
    hide Outcome;
    var all := pairs + [(k, Outcome(box, prepared[k]))];
    assert all[|pairs|].0 == k;
    forall x: nat | x in keys ensures HasKey(all, x) {
      assert HasKey(pairs, x);
      var i :| 0 <= i < |pairs| && pairs[i].0 == x;
      assert all[i].0 == x;
    }
  }

  /** The group i to j is under way: what waits has not started, what runs has not ended. */
  predicate UnderWay(prepared: seq<PreparedCall>, i: nat, j: nat, waiting: set<nat>, running: set<nat>,
      done: set<nat>, trace: seq<ToolEvent>) {
    && i <= j <= |prepared| && Range(i, j) == waiting + running + done
    && waiting !! running && waiting !! done && running !! done
    && TraceOk(prepared, trace)
    && StartedIn(trace) == Range(0, i) + running + done
    && EndedIn(trace) == Range(0, i) + done
  }

  lemma GroupBegins(prepared: seq<PreparedCall>, i: nat, j: nat, trace: seq<ToolEvent>)
    requires i <= j <= |prepared| && TraceOk(prepared, trace)
    requires StartedIn(trace) == Range(0, i) && EndedIn(trace) == Range(0, i)
    ensures UnderWay(prepared, i, j, Range(i, j), {}, {}, trace)
  {
  }

  lemma GroupStarts(prepared: seq<PreparedCall>, i: nat, j: nat, waiting: set<nat>, running: set<nat>, done: set<nat>,
                    trace: seq<ToolEvent>, k: nat)
    requires UnderWay(prepared, i, j, waiting, running, done, trace) && k in waiting
    requires forall x :: i <= x < j ==> ScopeOf(prepared[x]).ReadOnly?
    ensures UnderWay(prepared, i, j, waiting - {k}, running + {k}, done, trace + [Start(k)])
  {
    EventAdds(trace, Start(k));
    var after := trace + [Start(k)];
    assert after[..|after| - 1] == trace;
    assert Between(i, k, j);
    forall a: nat | a < k ensures a in EndedIn(trace) || AllReadOnly(prepared, a, k) {
      if a < i { assert Between(0, a, i); }
    }
  }

  lemma GroupEnds(prepared: seq<PreparedCall>, i: nat, j: nat, waiting: set<nat>, running: set<nat>, done: set<nat>,
                  trace: seq<ToolEvent>, k: nat)
    requires UnderWay(prepared, i, j, waiting, running, done, trace) && k in running
    ensures k !in done && k < |prepared|
    ensures UnderWay(prepared, i, j, waiting, running - {k}, done + {k}, trace + [End(k)])
  {
    EventAdds(trace, End(k));
    var after := trace + [End(k)];
    assert after[..|after| - 1] == trace;
    assert k in Range(i, j) && k !in Range(0, i);
  }

  lemma GroupFinishes(prepared: seq<PreparedCall>, i: nat, j: nat, done: set<nat>, trace: seq<ToolEvent>)
    requires UnderWay(prepared, i, j, {}, {}, done, trace)
    ensures done == Range(i, j)
    ensures TraceOk(prepared, trace) && StartedIn(trace) == Range(0, j) && EndedIn(trace) == Range(0, j)
  {
    forall k: nat ensures k in Range(0, j) <==> k in Range(0, i) + Range(i, j) {
      assert Between(0, k, j) <==> Between(0, k, i) || Between(i, k, j);
    }
  }

  /** Runs a group of read-only calls; which one starts or completes next is anyone's choice. */
  method RunGroup(box: Toolbox, prepared: seq<PreparedCall>, i: nat, j: nat, before: seq<ToolEvent>)
    returns (pairs: seq<(nat, ToolOutput)>, trace: seq<ToolEvent>)
    requires i <= j <= |prepared| && forall x :: i <= x < j ==> ScopeOf(prepared[x]).ReadOnly?
    requires TraceOk(prepared, before) && StartedIn(before) == Range(0, i) && EndedIn(before) == Range(0, i)
    ensures AreOutcomesOf(box, prepared, pairs, Range(i, j))
    ensures TraceOk(prepared, trace) && StartedIn(trace) == Range(0, j) && EndedIn(trace) == Range(0, j)
  {
    hide TraceOk, StartedIn, EndedIn, Outcome, AreOutcomesOf, UnderWay, Range;
    var waiting := Range(i, j);
    var running: set<nat>, done: set<nat> := {}, {};
    pairs, trace := [], before;
    NoOutcomes(box, prepared);
    GroupBegins(prepared, i, j, before);
    while waiting != {} || running != {}
      invariant UnderWay(prepared, i, j, waiting, running, done, trace)
      invariant AreOutcomesOf(box, prepared, pairs, done)
      decreases |waiting|, |running|
    {
      if {
      case waiting != {} =>
        var k :| k in waiting;
        GroupStarts(prepared, i, j, waiting, running, done, trace, k);
        trace := trace + [Start(k)];
        waiting, running := waiting - {k}, running + {k};
      case running != {} =>
        var k :| k in running;
        GroupEnds(prepared, i, j, waiting, running, done, trace, k);
        OutcomeAdds(box, prepared, pairs, done, k);
        trace := trace + [End(k)];
        pairs := pairs + [(k, Outcome(box, prepared[k]))];
        running, done := running - {k}, done + {k};
      }
    }
    GroupFinishes(prepared, i, j, done, trace);
  }

  lemma NoOutcomes(box: Toolbox, prepared: seq<PreparedCall>)
    ensures AreOutcomesOf(box, prepared, [], {})
  {
  }

  // ---------------------------------------------------------------------------------------
  // Back into call order
  // ---------------------------------------------------------------------------------------

  predicate Ascending(pairs: seq<(nat, ToolOutput)>) {
    forall i, j :: 0 <= i < j < |pairs| ==> pairs[i].0 < pairs[j].0
  }

  lemma InsertedInOrder(sorted: seq<(nat, ToolOutput)>, k: nat, pair: (nat, ToolOutput))
    requires Ascending(sorted) && k <= |sorted|
    requires forall i :: 0 <= i < k ==> sorted[i].0 < pair.0
    requires forall i :: k <= i < |sorted| ==> pair.0 < sorted[i].0
    ensures var r := sorted[..k] + [pair] + sorted[k..];
      Ascending(r) && multiset(r) == multiset(sorted) + multiset{pair}
  {
    assert sorted == sorted[..k] + sorted[k..];
  }

  /** Puts one pair at its place among pairs in ascending order. */
  method InsertByKey(sorted: seq<(nat, ToolOutput)>, pair: (nat, ToolOutput)) returns (r: seq<(nat, ToolOutput)>)
    requires Ascending(sorted) && forall i :: 0 <= i < |sorted| ==> sorted[i].0 != pair.0
    ensures Ascending(r) && multiset(r) == multiset(sorted) + multiset{pair}
  {
    var k := |sorted|;
    while k > 0 && pair.0 < sorted[k - 1].0
      invariant 0 <= k <= |sorted|
      invariant forall i :: k <= i < |sorted| ==> pair.0 < sorted[i].0
    {
      k := k - 1;
    }
    forall i | 0 <= i < k ensures sorted[i].0 < pair.0 {
      assert i == k - 1 || sorted[i].0 < sorted[k - 1].0;
    }
    hide Ascending;
    r := sorted[..k] + [pair] + sorted[k..];
    InsertedInOrder(sorted, k, pair);
  }

  method SortByKey(pairs: seq<(nat, ToolOutput)>) returns (r: seq<(nat, ToolOutput)>)
    requires forall i, j :: 0 <= i < j < |pairs| ==> pairs[i].0 != pairs[j].0
    ensures Ascending(r) && multiset(r) == multiset(pairs)
  {
    r := [];
    var i := 0;
    while i < |pairs|
      invariant 0 <= i <= |pairs|
      invariant Ascending(r) && multiset(r) == multiset(pairs[..i])
    {
      forall k | 0 <= k < |r| ensures r[k].0 != pairs[i].0 {
        assert r[k] in multiset(r);
        assert r[k] in pairs[..i];
      }
      r := InsertByKey(r, pairs[i]);
      assert pairs[..i + 1] == pairs[..i] + [pairs[i]];
      i := i + 1;
    }
    assert pairs[..|pairs|] == pairs;
  }

  /** Pairs in ascending order with exactly the keys below n carry key i at place i. */
  lemma {:induction false} AscendingIsDense(pairs: seq<(nat, ToolOutput)>, n: nat)
    requires Ascending(pairs)
    requires forall i :: 0 <= i < |pairs| ==> pairs[i].0 < n
    requires forall k: nat :: k < n ==> HasKey(pairs, k)
    ensures |pairs| == n && forall i :: 0 <= i < n ==> pairs[i].0 == i
  {
    if n == 0 {
      assert pairs == [];
    } else {
      var last := |pairs| - 1;
      assert HasKey(pairs, n - 1);
      var at :| 0 <= at < |pairs| && pairs[at].0 == n - 1;
      assert forall i :: 0 <= i < last ==> pairs[i].0 < pairs[last].0;
      assert pairs[last].0 < n;
      var front := pairs[..last];
      forall k: nat | k < n - 1 ensures HasKey(front, k) {
        assert HasKey(pairs, k);
        var i :| 0 <= i < |pairs| && pairs[i].0 == k;
        assert front[i].0 == k;
      }
      AscendingIsDense(front, n - 1);
    }
  }

  /** Once sorted, the outcomes of all calls are the outcomes in call order. */
  lemma SortedOutcomes(box: Toolbox, prepared: seq<PreparedCall>, pairs: seq<(nat, ToolOutput)>,
      sorted: seq<(nat, ToolOutput)>)
    requires AreOutcomesOf(box, prepared, pairs, Range(0, |prepared|))
    requires Ascending(sorted) && multiset(sorted) == multiset(pairs)
    ensures |sorted| == |prepared| && forall i :: 0 <= i < |sorted| ==> sorted[i].1 == Outcome(box, prepared[i])
  {
    hide Outcome;
    forall i | 0 <= i < |sorted|
        ensures sorted[i].0 < |prepared| && sorted[i].1 == Outcome(box, prepared[sorted[i].0]) {
      assert sorted[i] in multiset(sorted);
      assert sorted[i] in pairs;
    }
    forall k: nat | k < |prepared| ensures HasKey(sorted, k) {
      assert Between(0, k, |prepared|) && k in Range(0, |prepared|);
      assert HasKey(pairs, k);
      var i :| 0 <= i < |pairs| && pairs[i].0 == k;
      assert pairs[i] in multiset(pairs);
      assert pairs[i] in sorted;
    }
    AscendingIsDense(sorted, |prepared|);
  }

  // ---------------------------------------------------------------------------------------
  // A whole batch
  // ---------------------------------------------------------------------------------------

  lemma GroupExtends(box: Toolbox, prepared: seq<PreparedCall>, pairs: seq<(nat, ToolOutput)>,
      more: seq<(nat, ToolOutput)>, i: nat, j: nat)
    requires i <= j && AreOutcomesOf(box, prepared, pairs, Range(0, i))
        && AreOutcomesOf(box, prepared, more, Range(i, j))
    ensures AreOutcomesOf(box, prepared, pairs + more, Range(0, j))
  {
    hide Outcome;
    var all := pairs + more;
    forall k: nat ensures k in Range(0, j) <==> HasKey(all, k) {
      assert k in Range(0, i) <==> HasKey(pairs, k);
      assert k in Range(i, j) <==> HasKey(more, k);
      assert k in Range(0, j) <==> k in Range(0, i) || k in Range(i, j) by {
        assert Between(0, k, j) <==> Between(0, k, i) || Between(i, k, j);
      }
      if HasKey(pairs, k) {
        var x :| 0 <= x < |pairs| && pairs[x].0 == k;
        assert all[x].0 == k;
      }
      if HasKey(more, k) {
        var x :| 0 <= x < |more| && more[x].0 == k;
        assert all[|pairs| + x].0 == k;
      }
    }
    forall x, y | 0 <= x < |pairs| && 0 <= y < |more| ensures pairs[x].0 != more[y].0 {
      assert HasKey(pairs, pairs[x].0) && HasKey(more, more[y].0);
    }
  }

  /** The calls among the first j that are run, seen from those among the first i. */
  function MarkedAll(prepared: seq<PreparedCall>, i: nat, j: nat, ran: set<nat>): set<nat> {
    ran + set k: nat | k < |prepared| && Between(i, k, j) && Runs(prepared[k])
  }

  lemma RunnableExtends(prepared: seq<PreparedCall>, i: nat, j: nat)
    requires i <= j <= |prepared|
    ensures Runnable(prepared[..j]) == MarkedAll(prepared, i, j, Runnable(prepared[..i]))
  {
    forall k: nat ensures k in Runnable(prepared[..j]) <==> k in MarkedAll(prepared, i, j, Runnable(prepared[..i])) {
      assert Between(i, k, j) <==> i <= k < j;
    }
  }

  /** Each maximal run of read-only calls as a group, any other call alone; then back into call order. */
  method ExecuteReadonlyParallel(box: Toolbox, prepared: seq<PreparedCall>)
    returns (results: seq<ToolOutput>, trace: seq<ToolEvent>, ran: set<nat>)
    ensures AreOutcomes(box, prepared, results)
    ensures TraceOk(prepared, trace) && Complete(prepared, trace)
    ensures ran == Runnable(prepared)
  {
    hide TraceOk, StartedIn, EndedIn, Outcome, AreOutcomesOf, Range, Runnable, MarkedAll;
    var pairs: seq<(nat, ToolOutput)> := [];
    trace, ran := [], {};
    NothingRan(box, prepared);
    NoOutcomes(box, prepared);
    assert Range(0, 0) == {} by { EmptyRange(0); }
    var i := 0;
    while i < |prepared|
      invariant 0 <= i <= |prepared|
      invariant RanUpTo(box, prepared, i, trace, ran)
      invariant AreOutcomesOf(box, prepared, pairs, Range(0, i))
    {
      if ScopeOf(prepared[i]) == ReadOnly {
        var j := i;
        while j < |prepared| && ScopeOf(prepared[j]) == ReadOnly
          invariant i <= j <= |prepared| && forall x :: i <= x < j ==> ScopeOf(prepared[x]).ReadOnly?
          invariant j == i ==> ScopeOf(prepared[i]).ReadOnly?
        {
          j := j + 1;
        }
        var more: seq<(nat, ToolOutput)>;
        more, trace := RunGroup(box, prepared, i, j, trace);
        GroupExtends(box, prepared, pairs, more, i, j);
        pairs := pairs + more;
        RunnableExtends(prepared, i, j);
        ran := MarkedAll(prepared, i, j, ran);
        i := j;
      } else {
        RunAlone(box, prepared, i, trace, ran);
        OneOutcome(box, prepared, i);
        GroupExtends(box, prepared, pairs, [(i, Outcome(box, prepared[i]))], i, i + 1);
        trace := trace + [Start(i)] + [End(i)];
        pairs := pairs + [(i, Outcome(box, prepared[i]))];
        ran := Marked(prepared[i], i, ran);
        i := i + 1;
      }
    }
    AllRan(box, prepared, trace, ran);
    DistinctKeys(box, prepared, pairs, Range(0, i));
    var sorted := SortByKey(pairs);
    SortedOutcomes(box, prepared, pairs, sorted);
    results := seq(|sorted|, k requires 0 <= k < |sorted| => sorted[k].1);
  }

  lemma EmptyRange(i: nat)
    ensures Range(i, i) == {}
  {
  }

  lemma DistinctKeys(box: Toolbox, prepared: seq<PreparedCall>, pairs: seq<(nat, ToolOutput)>, keys: set<nat>)
    requires AreOutcomesOf(box, prepared, pairs, keys)
    ensures forall i, j :: 0 <= i < j < |pairs| ==> pairs[i].0 != pairs[j].0
  {
  }

  lemma OneOutcome(box: Toolbox, prepared: seq<PreparedCall>, i: nat)
    requires i < |prepared|
    ensures AreOutcomesOf(box, prepared, [(i, Outcome(box, prepared[i]))], Range(i, i + 1))
  {
    NoOutcomes(box, prepared);
    OutcomeAdds(box, prepared, [], {}, i);
    assert Between(i, i, i + 1);
    assert Range(i, i + 1) == {} + {i};
    assert [] + [(i, Outcome(box, prepared[i]))] == [(i, Outcome(box, prepared[i]))];
  }

  /** The answer to a turn that the length limit cut off: an error per call, in order; nothing is run. */
  method SynthesizeTruncatedResults(calls: seq<ToolCall>) returns (messages: seq<Message>, trace: seq<ToolEvent>)
    ensures messages == Refusals(calls) && OneByOne(trace, |calls|)
  {
    messages, trace := [], [];
    var i := 0;
    while i < |calls|
      invariant 0 <= i <= |calls|
      invariant messages == Refusals(calls)[..i] && OneByOne(trace, i)
    {
      trace := trace + [Start(i)] + [End(i)];
      messages := messages + [ResultMessage(calls[i], TruncatedOutput)];
      i := i + 1;
    }
  }

  lemma ExpectedIsAnswered(box: Toolbox, calls: seq<ToolCall>)
    ensures AllAnswered(box, calls, Expected(box, calls), Runnable(PreparedAll(box, calls)))
    ensures AllCutOff(calls, Refusals(calls))
  {
    var messages, prepared := Expected(box, calls), PreparedAll(box, calls);
    hide IsAnswered, Outcome;
    forall k | 0 <= k < |calls| ensures IsAnswered(box, calls[k], messages[k], k in Runnable(prepared)) {
      PreparedIsAnswered(box, calls[k]);
      assert prepared[k] == Prepare(box, calls[k]);
      assert k in Runnable(prepared) <==> Runs(prepared[k]);
    }
  }

  /**
   One message per call, in call order, the same in both modes and for every order of completion. When
   the turn stopped at the length limit nothing runs; otherwise each call with a tool that is not refused runs.
   */
  method ExecuteToolCalls(box: Toolbox, calls: seq<ToolCall>, stopReason: Option<StopReason>, mode: Mode)
    returns (messages: seq<Message>, trace: seq<ToolEvent>, ran: set<nat>)
    ensures Transcript.AnswerAll(messages, calls)
    ensures stopReason == Some(Length)
        ==> messages == Refusals(calls) && ran == {} && (calls == [] || OneByOne(trace, |calls|))
    ensures stopReason == Some(Length) ==> AllCutOff(calls, messages)
    ensures stopReason != Some(Length) ==> messages == Expected(box, calls)
    ensures stopReason != Some(Length) ==> AllAnswered(box, calls, messages, ran)
    ensures stopReason != Some(Length) && mode.Sequential? ==> OneByOne(trace, |calls|)
    ensures stopReason != Some(Length) ==>
              var prepared := PreparedAll(box, calls);
              TraceOk(prepared, trace) && Complete(prepared, trace) && ran == Runnable(prepared)
  {
    hide TraceOk, Complete, Runnable, Outcome, AllAnswered, AllCutOff;
    ExpectedIsAnswered(box, calls);
    if stopReason == Some(Length) && calls != [] {
      messages, trace := SynthesizeTruncatedResults(calls);
      ran := {};
      ExpectedAnswer(box, calls);
      return;
    }
    var prepared: seq<PreparedCall> := [];
    var i := 0;
    while i < |calls|
      invariant 0 <= i <= |calls|
      invariant prepared == PreparedAll(box, calls)[..i]
    {
      prepared := prepared + [Prepare(box, calls[i])];
      i := i + 1;
    }
    assert prepared == PreparedAll(box, calls);
    var results: seq<ToolOutput>;
    match mode {
      case Sequential => results, trace, ran := ExecuteSequential(box, prepared);
      case ReadOnlyParallel => results, trace, ran := ExecuteReadonlyParallel(box, prepared);
    }
    messages := [];
    i := 0;
    while i < |results|
      invariant 0 <= i <= |results|
      invariant messages == Expected(box, calls)[..i]
    {
      var call := prepared[i].call;
      messages := messages + [ResultMessage(call, box.after(call, results[i]))];
      i := i + 1;
    }
    assert messages == Expected(box, calls);
    ExpectedAnswer(box, calls);
    if calls == [] {
      NothingRunnable();
      assert prepared == [];
    }
  }

  /** Either answer names the calls one by one. */
  lemma ExpectedAnswer(box: Toolbox, calls: seq<ToolCall>)
    ensures Transcript.AnswerAll(Expected(box, calls), calls) && Transcript.AnswerAll(Refusals(calls), calls)
  {
    var expected, refusals := Expected(box, calls), Refusals(calls);
    forall i | 0 <= i < |calls|
        ensures Transcript.Answers(expected[i], calls[i]) && Transcript.Answers(refusals[i], calls[i]) {
      assert expected[i] == ResultMessage(calls[i], box.after(calls[i], Outcome(box, Prepare(box, calls[i]))));
      assert refusals[i] == ResultMessage(calls[i], TruncatedOutput);
    }
  }

  lemma NothingRunnable()
    ensures Runnable([]) == {}
  {
  }

  function PreparedAll(box: Toolbox, calls: seq<ToolCall>): seq<PreparedCall> {
    seq(|calls|, i requires 0 <= i < |calls| => Prepare(box, calls[i]))
  }

  /** The end of a turn with calls: runs them and puts their results behind the assistant message. */
  method ToolStep(ctx: Transcript.RunContext, box: Toolbox, mode: Mode) returns (ran: set<nat>)
    requires ctx.transcript != [] && ctx.transcript[|ctx.transcript| - 1].Assistant?
    modifies ctx
    ensures var assistant := old(ctx.transcript)[|old(ctx.transcript)| - 1];
      && (assistant.stopReason == Some(Length) ==>
            ran == {} && ctx.transcript == old(ctx.transcript) + Refusals(CallsOf(assistant)))
      && (assistant.stopReason != Some(Length) ==>
            && ctx.transcript == old(ctx.transcript) + Expected(box, CallsOf(assistant))
            && AllAnswered(box, CallsOf(assistant), ctx.transcript[|old(ctx.transcript)|..], ran))
    ensures Transcript.Grouped(old(ctx.transcript)) ==> Transcript.Grouped(ctx.transcript)
  {
    hide Transcript.Grouped, TraceOk, Complete, Runnable, AllAnswered;
    var assistant := ctx.transcript[|ctx.transcript| - 1];
    var messages, trace;
    messages, trace, ran := ExecuteToolCalls(box, CallsOf(assistant), assistant.stopReason, mode);
    if Transcript.Grouped(ctx.transcript) {
      Transcript.NextKeepsGrouped(ctx.transcript, Transcript.PushResults(messages));
    }
    ctx.PushToolResults(messages);
  }
}
