/**
 The transcript of an agent run: what each step of the loop adds to it, and the grouping of tool results
 every step and every request keeps (src/core/runtime/mod.rs, step.rs, context_prep.rs).
 */
module Transcript {
  import opened Wrappers
  import opened Messages
  import opened Context

  /** The message is the result of this call. */
  predicate Answers(m: Message, call: ToolCall) {
    m.ToolResult? && m.callId == call.id && m.toolName == call.name
  }

  predicate AnswerAll(results: seq<Message>, calls: seq<ToolCall>) {
    |results| == |calls| && forall i :: 0 <= i < |calls| ==> Answers(results[i], calls[i])
  }

  predicate NoResultAt(ms: seq<Message>, i: nat) {
    i < |ms| ==> !ms[i].ToolResult?
  }

  /** The calls of message k are answered by exactly the messages that follow it, or not at all. */
  predicate AnsweredAt(ms: seq<Message>, k: nat)
    requires k < |ms|
  {
    var calls := CallsOf(ms[k]);
    || NoResultAt(ms, k + 1)
    || (k + |calls| < |ms| && AnswerAll(ms[k + 1..k + 1 + |calls|], calls) && NoResultAt(ms, k + 1 + |calls|))
  }

  /**
   A tool result follows a tool result or an assistant message; an assistant message is answered in full or not at all.
   */
  predicate RunOk(ms: seq<Message>, k: nat)
    requires k < |ms|
  {
    && (ms[k].ToolResult? ==> k > 0 && !ms[k - 1].User?)
    && (ms[k].Assistant? ==> AnsweredAt(ms, k))
  }

  predicate Grouped(ms: seq<Message>) {
    forall k :: 0 <= k < |ms| ==> RunOk(ms, k)
  }

  // ---------------------------------------------------------------------------------------
  // Cutting and joining
  // ---------------------------------------------------------------------------------------

  /** A run of results does not reach over a message that is none. */
  lemma RunStopsAt(a: seq<Message>, b: seq<Message>, k: nat)
    requires k < |a| && b != [] && !b[0].ToolResult? && |a| <= k + |CallsOf(a[k])| < |a + b|
    ensures !AnswerAll((a + b)[k + 1..k + 1 + |CallsOf(a[k])|], CallsOf(a[k]))
  {
    var calls := CallsOf(a[k]);
    var run := (a + b)[k + 1..k + 1 + |calls|];
    var i := |a| - k - 1;
    assert run[i] == b[0];
    assert !Answers(run[i], calls[i]);
  }

  lemma AnsweredFront(a: seq<Message>, b: seq<Message>, k: nat)
    requires k < |a| && NoResultAt(b, 0)
    ensures AnsweredAt(a + b, k) <==> AnsweredAt(a, k)
  {
    var n := |CallsOf(a[k])|;
    var ms := a + b;
    if |a| <= k + n < |ms| {
      RunStopsAt(a, b, k);
    }
    hide AnswerAll, CallsOf;
    if k + n < |a| {
      assert ms[k + 1..k + 1 + n] == a[k + 1..k + 1 + n];
    }
  }

  lemma AnsweredBack(a: seq<Message>, b: seq<Message>, k: nat)
    requires k < |b|
    ensures AnsweredAt(a + b, |a| + k) <==> AnsweredAt(b, k)
  {
    hide AnswerAll, CallsOf;
    var n := |CallsOf(b[k])|;
    if k + n < |b| {
      assert (a + b)[|a| + k + 1..|a| + k + 1 + n] == b[k + 1..k + 1 + n];
    }
  }

  /** Grouping is kept and given by both halves of any cut that is not in front of a tool result. */
  lemma GroupedSplits(a: seq<Message>, b: seq<Message>)
    requires NoResultAt(b, 0)
    ensures Grouped(a + b) <==> Grouped(a) && Grouped(b)
  {
    forall k | 0 <= k < |a| ensures RunOk(a + b, k) <==> RunOk(a, k) {
      AnsweredFront(a, b, k);
    }
    forall k | 0 <= k < |b| ensures RunOk(a + b, |a| + k) <==> RunOk(b, k) {
      AnsweredBack(a, b, k);
      if k > 0 { assert (a + b)[|a| + k - 1] == b[k - 1]; }
    }
    if Grouped(a + b) {
      forall k | 0 <= k < |b| ensures RunOk(b, k) { assert RunOk(a + b, |a| + k); }
      forall k | 0 <= k < |a| ensures RunOk(a, k) { assert RunOk(a + b, k); }
    }
    if Grouped(a) && Grouped(b) {
      forall k | 0 <= k < |a + b| ensures RunOk(a + b, k) {
        if k < |a| {
          assert RunOk(a, k);
        } else {
          assert RunOk(b, k - |a|);
        }
      }
    }
  }

  lemma AnsweredCallIsGrouped(assistant: Message, results: seq<Message>)
    requires assistant.Assistant? && AnswerAll(results, CallsOf(assistant))
    ensures Grouped([assistant] + results)
  {
    var ms := [assistant] + results;
    assert ms[1..1 + |results|] == results;
    forall k | 0 < k < |ms| ensures RunOk(ms, k) {
      assert Answers(results[k - 1], CallsOf(assistant)[k - 1]);
      assert k > 1 ==> Answers(results[k - 2], CallsOf(assistant)[k - 2]);
    }
  }

  /** Dropping everything before a user message keeps grouping. */
  lemma SuffixGrouped(ms: seq<Message>, b: nat)
    requires Grouped(ms) && b < |ms| && ms[b].User?
    ensures Grouped(ms[b..])
  {
    GroupedSplits(ms[..b], ms[b..]);
    assert ms[..b] + ms[b..] == ms;
  }

  // ---------------------------------------------------------------------------------------
  // Requests
  // ---------------------------------------------------------------------------------------

  lemma TruncationGrouped(ms: seq<Message>, overhead: nat, maxTokens: nat, r: seq<Message>)
    requires Grouped(ms) && overhead <= U32_MAX && IsTruncation(ms, overhead, maxTokens, r)
    ensures Grouped(r)
  {
    hide FitsIn, Grouped;
    if r != ms {
      var b: nat :| IsFirstFit(ms, overhead, maxTokens, b) && r == ms[b..];
      assert ms[0..] == ms;
      SuffixGrouped(ms, b);
    }
  }

  lemma CommittedGrouped(ms: seq<Message>, commit: CompactionCommit)
    requires Grouped(ms) && commit.keepFrom < |ms| && ms[commit.keepFrom].User?
    ensures Grouped(Committed(ms, commit))
  {
    SuffixGrouped(ms, commit.keepFrom);
    var kept := ms[commit.keepFrom..];
    assert kept[0].User?;
    GroupedSplits([SummaryMessage(commit.summary)], kept);
  }

  /** Whatever the plan, the request it prepares is grouped when the transcript is. */
  lemma PlannedRequestGrouped(ms: seq<Message>, policy: CompactionPolicy, compaction: Compaction,
      r: Result<PreparedContext, CompactionError>)
    requires Grouped(ms) && IsPlan(ms, policy, compaction, r) && r.Ok?
    ensures Grouped(r.value.request)
  {
    if r.value.commit.Some? {
      CommittedGrouped(ms, r.value.commit.value);
    } else if !FitsIn(ms, 0, policy.budgetTokens) {
      TruncationGrouped(ms, 0, policy.budgetTokens, r.value.request);
    }
  }

  // ---------------------------------------------------------------------------------------
  // The steps of a run
  // ---------------------------------------------------------------------------------------

  /** An aborted turn pushes its assistant message and no results. */
  datatype Event =
    | AppendUser(message: Message)
    | PushAssistant(message: Message)
    | PushResults(results: seq<Message>)
    | Commit(commit: CompactionCommit)
    | Clear

  predicate Enabled(ms: seq<Message>, e: Event) {
    match e
    case AppendUser(m) => m.User?
    case PushAssistant(m) => m.Assistant?
    case PushResults(results) => ms != [] && ms[|ms| - 1].Assistant? && AnswerAll(results, CallsOf(ms[|ms| - 1]))
    case Commit(commit) => commit.keepFrom < |ms| && ms[commit.keepFrom].User?
    case Clear => true
  }

  function Next(ms: seq<Message>, e: Event): seq<Message>
    requires Enabled(ms, e)
  {
    match e
    case AppendUser(m) => ms + [m]
    case PushAssistant(m) => ms + [m]
    case PushResults(results) => ms + results
    case Commit(commit) => Committed(ms, commit)
    case Clear => []
  }

  lemma ResultsKeepGrouped(ms: seq<Message>, results: seq<Message>)
    requires Grouped(ms) && Enabled(ms, PushResults(results))
    ensures Grouped(ms + results)
  {
    var n := |ms| - 1;
    GroupedSplits(ms[..n], [ms[n]]);
    assert ms[..n] + [ms[n]] == ms;
    AnsweredCallIsGrouped(ms[n], results);
    GroupedSplits(ms[..n], [ms[n]] + results);
    assert ms[..n] + ([ms[n]] + results) == ms + results;
  }

  lemma NextKeepsGrouped(ms: seq<Message>, e: Event)
    requires Grouped(ms) && Enabled(ms, e)
    ensures Grouped(Next(ms, e))
  {
    match e
    case AppendUser(m) => GroupedSplits(ms, [m]);
    case PushAssistant(m) => GroupedSplits(ms, [m]);
    case PushResults(results) => ResultsKeepGrouped(ms, results);
    case Commit(commit) => CommittedGrouped(ms, commit);
    case Clear =>
  }

  predicate RunEnabled(ms: seq<Message>, es: seq<Event>)
    decreases |es|
  {
    es == [] || (Enabled(ms, es[0]) && RunEnabled(Next(ms, es[0]), es[1..]))
  }

  function Run(ms: seq<Message>, es: seq<Event>): seq<Message>
    requires RunEnabled(ms, es)
    decreases |es|
  {
    if es == [] then ms else Run(Next(ms, es[0]), es[1..])
  }

  /**
   From the empty transcript on, every run of tool results stands directly behind the assistant message whose
   calls it answers, result i naming call i, and answers all of them.
   */
  lemma {:induction false} EveryTranscriptIsGrouped(ms: seq<Message>, es: seq<Event>)
    requires Grouped(ms) && RunEnabled(ms, es)
    ensures Grouped(Run(ms, es))
    decreases |es|
  {
    if es != [] {
      NextKeepsGrouped(ms, es[0]);
      EveryTranscriptIsGrouped(Next(ms, es[0]), es[1..]);
    }
  }

  /** Read off a grouped transcript: the assistant message behind a tool result, and which of its calls it names. */
  lemma ResultNamesItsCall(ms: seq<Message>, k: nat) returns (a: nat)
    requires Grouped(ms) && k < |ms| && ms[k].ToolResult?
    ensures a < k && ms[a].Assistant? && k - a <= |CallsOf(ms[a])|
    ensures forall j :: a < j <= k ==> ms[j].ToolResult?
    ensures Answers(ms[k], CallsOf(ms[a])[k - a - 1])
  {
    assert RunOk(ms, k);
    a := k - 1;
    while !ms[a].Assistant?
      invariant 0 <= a < k && !ms[a].User?
      invariant forall j :: a < j <= k ==> ms[j].ToolResult?
      decreases a
    {
      assert RunOk(ms, a);
      a := a - 1;
    }
    assert RunOk(ms, a);
    var calls := CallsOf(ms[a]);
    assert ms[a + 1].ToolResult?;
    assert k < a + 1 + |calls|;
    assert ms[a + 1..a + 1 + |calls|][k - a - 1] == ms[k];
  }

  // ---------------------------------------------------------------------------------------
  // The run object
  // ---------------------------------------------------------------------------------------

  /**
   One request prepared from `before`: the final projection is the truncation of what the plan asks to send. Only a
   successful compaction changes the transcript, and then into exactly that.
   */
  ghost predicate IsPrepared(before: seq<Message>, after: seq<Message>, compactor: Option<CompactionPolicy>,
      compaction: Compaction,
                             budget: ContextBudget, r: Option<seq<Message>>)
    requires IsBudget(budget)
  {
    if compactor.None? then after == before && r.Some?
        && IsTruncation(before, budget.fixedOverhead, Available(budget), r.value)
    else exists plan :: IsPlan(before, compactor.value, compaction, plan) && FollowsPlan(before, after, budget, plan, r)
  }

  ghost predicate FollowsPlan(before: seq<Message>, after: seq<Message>, budget: ContextBudget,
                              plan: Result<PreparedContext, CompactionError>, r: Option<seq<Message>>)
    requires IsBudget(budget)
  {
    match plan
    case Err(_) => after == before && r.None?
    case Ok(prepared) =>
      && after == (if prepared.commit.Some? then prepared.request else before)
      && r.Some? && IsTruncation(prepared.request, budget.fixedOverhead, Available(budget), r.value)
  }

  /** What a prepared request and the transcript behind it have in common with the transcript before. */
  lemma PreparedIsGrouped(before: seq<Message>, after: seq<Message>, compactor: Option<CompactionPolicy>,
      compaction: Compaction,
                          budget: ContextBudget, r: Option<seq<Message>>)
    requires IsBudget(budget) && Grouped(before) && IsPrepared(before, after, compactor, compaction, budget, r)
    ensures Grouped(after) && |after| <= |before|
    ensures r.Some? ==> Grouped(r.value) && |r.value| <= |before| && (r.value == [] ==> before == [])
    ensures r.None? ==> compaction.Cancelled? && after == before
  {
    hide FitsIn, Grouped, IsTruncation;
    if compactor.None? {
      TruncationGrouped(before, budget.fixedOverhead, Available(budget), r.value);
      TruncationDetermined(before, budget.fixedOverhead, Available(budget), r.value, r.value);
    } else {
      var plan :| IsPlan(before, compactor.value, compaction, plan) && FollowsPlan(before, after, budget, plan, r);
      if plan.Ok? {
        PlannedRequestGrouped(before, compactor.value, compaction, plan);
        CommitShortens(before, compactor.value, compaction, plan);
        TruncationGrouped(plan.value.request, budget.fixedOverhead, Available(budget), r.value);
        TruncationDetermined(plan.value.request, budget.fixedOverhead, Available(budget), r.value, r.value);
      }
    }
  }

  class RunContext {
    var transcript: seq<Message>

    constructor ()
      ensures transcript == []
    {
      transcript := [];
    }

    method AppendUserMessage(message: Message)
      requires message.User?
      modifies this
      ensures transcript == Next(old(transcript), AppendUser(message)) == old(transcript) + [message]
    {
      transcript := transcript + [message];
    }

    method PushAssistantMessage(message: Message)
      requires message.Assistant?
      modifies this
      ensures transcript == Next(old(transcript), PushAssistant(message)) == old(transcript) + [message]
    {
      transcript := transcript + [message];
    }

    /** The end of a tool step: pushes the results one by one. */
    method PushToolResults(results: seq<Message>)
      requires Enabled(transcript, PushResults(results))
      modifies this
      ensures transcript == Next(old(transcript), PushResults(results)) == old(transcript) + results
    {
      hide AnswerAll;
      var i := 0;
      while i < |results|
        invariant 0 <= i <= |results| && transcript == old(transcript) + results[..i]
      {
        assert results[..i + 1] == results[..i] + [results[i]];
        transcript := transcript + [results[i]];
        i := i + 1;
      }
      assert results[..|results|] == results;
    }

    /** Drops what the summary stands for and puts the summary in front. */
    method CommitCompaction(commit: CompactionCommit)
      requires commit.keepFrom <= |transcript|
      modifies this
      ensures transcript == Committed(old(transcript), commit)
    {
      transcript := transcript[commit.keepFrom..];
      transcript := [SummaryMessage(commit.summary)] + transcript;
    }

    /** None when the compaction was cancelled, which ends the run. */
    method PrepareRequestMessages(compactor: Option<CompactionPolicy>, compaction: Compaction, budget: ContextBudget)
      returns (r: Option<seq<Message>>)
      requires IsBudget(budget)
      modifies this
      ensures IsPrepared(old(transcript), transcript, compactor, compaction, budget, r)
    {
      hide FitsIn, IsTruncation;
      var intermediate := transcript;
      if compactor.Some? {
        var plan := PlanContext(transcript, compactor.value, compaction);
        if plan.Err? {
          assert FollowsPlan(transcript, transcript, budget, plan, None);
          return None;
        }
        if plan.value.commit.Some? {
          CommitCompaction(plan.value.commit.value);
        }
        intermediate := plan.value.request;
        var request := TruncateToBudget(intermediate, Available(budget), budget.fixedOverhead);
        assert FollowsPlan(old(transcript), transcript, budget, plan, Some(request));
        return Some(request);
      }
      var request := TruncateToBudget(intermediate, Available(budget), budget.fixedOverhead);
      return Some(request);
    }
  }
}
