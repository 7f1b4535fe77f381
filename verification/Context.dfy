/**
 Fitting a transcript into the context window: token estimates, truncation at turn boundaries, and the plan
 of a compaction (src/core/context.rs).
 */
module Context {
  import opened Wrappers
  import opened Messages

  // ---------------------------------------------------------------------------------------
  // Estimates, in the source's integer widths
  // ---------------------------------------------------------------------------------------

  function U32(n: nat): (r: nat)
    ensures r <= U32_MAX
    ensures n <= U32_MAX ==> r == n
  {
    n % (U32_MAX + 1)
  }

  function Add64(a: U64, b: U64): U64 {
    (a + b) % U64_SIZE
  }

  function EstimateTokens(text: string): nat {
    U32(|text|) / 4 + 1
  }

  function EstimateUser(parts: seq<UserContent>): nat {
    if parts == [] then 0
    else
      var last := parts[|parts| - 1];
      U32(EstimateUser(parts[..|parts| - 1])
          + match last case UserText(t) => EstimateTokens(t) case UserImage(d) => EstimateTokens(d) + 8)
  }

  function EstimateAssistant(parts: seq<AssistantContent>): nat {
    if parts == [] then 0
    else
      var last := parts[|parts| - 1];
      U32(EstimateAssistant(parts[..|parts| - 1]) + match last
          case Text(t) => EstimateTokens(t)
          case Thinking(t) => EstimateTokens(t)
          case Call(c) => EstimateTokens(c.name) + EstimateTokens(c.arguments))
  }

  function EstimateResult(parts: seq<ResultContent>): nat {
    if parts == [] then 0
    else
      var last := parts[|parts| - 1];
      U32(EstimateResult(parts[..|parts| - 1])
          + match last case ResultText(t) => EstimateTokens(t) case ResultImage(d) => EstimateTokens(d) + 8)
  }

  function EstimateMessage(m: Message): (r: nat)
    ensures r <= U32_MAX
  {
    match m
    case User(content) => U32(EstimateUser(content))
    case Assistant(parts, _, _) => U32(EstimateAssistant(parts))
    case ToolResult(_, name, _, output) => U32(EstimateTokens(name) + EstimateResult(output))
  }

  function SumFrom(start: U64, messages: seq<Message>): U64 {
    if messages == [] then start
    else Add64(SumFrom(start, messages[..|messages| - 1]), EstimateMessage(messages[|messages| - 1]))
  }

  /** The last assistant message that carries a usage: its index and the input tokens it reports. */
  function LastUsage(messages: seq<Message>): (r: Option<(nat, U64)>)
    ensures r.Some? ==> r.value.0 < |messages|
  {
    if messages == [] then None
    else
      var last := messages[|messages| - 1];
      if last.Assistant? && last.usage.Some? then Some((|messages| - 1, last.usage.value))
      else LastUsage(messages[..|messages| - 1])
  }

  /** The provider's last count plus an estimate of what came after it; without one, overhead plus everything. */
  function EstimateTotal(messages: seq<Message>, overhead: nat): U64
    requires overhead <= U32_MAX
  {
    match LastUsage(messages)
    case Some((index, input)) => SumFrom(input, messages[index + 1..])
    case None => SumFrom(overhead, messages)
  }

  /** Seen from the end: a usage starts the count afresh, any other message adds its own estimate. */
  lemma EstimateSnoc(messages: seq<Message>, m: Message, overhead: nat)
    requires overhead <= U32_MAX
    ensures EstimateTotal([], overhead) == overhead
    ensures EstimateTotal(messages + [m], overhead) ==
            if m.Assistant? && m.usage.Some? then m.usage.value
            else Add64(EstimateTotal(messages, overhead), EstimateMessage(m))
  {
    var all := messages + [m];
    assert all[..|all| - 1] == messages;
    if m.Assistant? && m.usage.Some? {
      assert all[|all|..] == [];
    } else {
      match LastUsage(messages)
      case Some((index, input)) =>
        var tail := all[index + 1..];
        assert tail[..|tail| - 1] == messages[index + 1..];
        assert tail[|tail| - 1] == m;
      case None =>
    }
  }

  /** Four characters are one token, rounded up beyond the whole ones. */
  lemma FourCharactersAreOneToken(text: string)
    requires |text| <= U32_MAX
    ensures 4 * (EstimateTokens(text) - 1) <= |text| < 4 * EstimateTokens(text)
  {
  }

  lemma WrapsOnce(a: nat, b: nat)
    ensures U32(a + U32(b)) == U32(a + b) && U32(U32(a)) == U32(a)
  {
    var m := U32_MAX + 1;
    assert b == (b / m) * m + U32(b);
    assert (a + U32(b) + (b / m) * m) % m == (a + U32(b)) % m;
  }

  /** What one more part adds to the estimate of a message: its characters, and an image eight tokens more. */
  lemma EstimateUserPart(user: seq<UserContent>, text: string)
    ensures EstimateMessage(User([])) == 0
    ensures EstimateMessage(User(user + [UserText(text)])) == U32(EstimateMessage(User(user)) + EstimateTokens(text))
    ensures EstimateMessage(User(user + [UserImage(text)]))
        == U32(EstimateMessage(User(user)) + EstimateTokens(text) + 8)
  {
    hide EstimateTokens, U32;
    assert (user + [UserText(text)])[..|user|] == user && (user + [UserImage(text)])[..|user|] == user;
    var before, t := EstimateUser(user), EstimateTokens(text);
    WrapsOnce(t, before);
    WrapsOnce(t + 8, before);
    WrapsOnce(before + t, 0);
    WrapsOnce(before + t + 8, 0);
    WrapsOnce(0, 0);
  }

  lemma EstimateAssistantPart(parts: seq<AssistantContent>, text: string, call: ToolCall)
    ensures EstimateMessage(Assistant([], None, None)) == 0
    ensures var before := EstimateMessage(Assistant(parts, None, None));
      && EstimateMessage(Assistant(parts + [Text(text)], None, None)) == U32(before + EstimateTokens(text))
      && EstimateMessage(Assistant(parts + [Thinking(text)], None, None)) == U32(before + EstimateTokens(text))
      && EstimateMessage(Assistant(parts + [Call(call)], None, None))
           == U32(before + EstimateTokens(call.name) + EstimateTokens(call.arguments))
  {
    hide EstimateTokens, U32;
    assert (parts + [Text(text)])[..|parts|] == parts && (parts + [Thinking(text)])[..|parts|] == parts;
    assert (parts + [Call(call)])[..|parts|] == parts;
    var before, t, c := EstimateAssistant(parts), EstimateTokens(text), EstimateTokens(call.name)
        + EstimateTokens(call.arguments);
    WrapsOnce(t, before);
    WrapsOnce(c, before);
    WrapsOnce(before + t, 0);
    WrapsOnce(before + c, 0);
    WrapsOnce(0, 0);
  }

  lemma EstimateResultPart(output: seq<ResultContent>, text: string, id: string, name: string, isError: bool)
    ensures EstimateMessage(ToolResult(id, name, isError, [])) == U32(EstimateTokens(name))
    ensures var before := EstimateMessage(ToolResult(id, name, isError, output));
      && EstimateMessage(ToolResult(id, name, isError, output + [ResultText(text)]))
          == U32(before + EstimateTokens(text))
      && EstimateMessage(ToolResult(id, name, isError, output + [ResultImage(text)]))
           == U32(before + EstimateTokens(text) + 8)
  {
    hide EstimateTokens, U32;
    assert (output + [ResultText(text)])[..|output|] == output && (output + [ResultImage(text)])[..|output|] == output;
    var before, t, n := EstimateResult(output), EstimateTokens(text), EstimateTokens(name);
    WrapsOnce(n, before + t);
    WrapsOnce(n, before + t + 8);
    WrapsOnce(t, n + before);
    WrapsOnce(t + 8, n + before);
  }

  /** The usage and the reason of stopping do not count, and neither does which call a result answers. */
  lemma EstimateIgnores(m: Message, n: Message)
    requires m.User? ==> n == m
    requires m.Assistant? ==> n.Assistant? && n.parts == m.parts
    requires m.ToolResult? ==> n.ToolResult? && n.toolName == m.toolName && n.output == m.output
    ensures EstimateMessage(m) == EstimateMessage(n)
  {
  }

  // ---------------------------------------------------------------------------------------
  // Turn boundaries
  // ---------------------------------------------------------------------------------------

  /** Where a request may start: at a user message, or at the front. */
  predicate IsCut(messages: seq<Message>, i: nat) {
    i < |messages| && (i == 0 || messages[i].User?)
  }

  function Turns(messages: seq<Message>): nat {
    if messages == [] then 0
    else Turns(messages[..|messages| - 1]) + if messages[|messages| - 1].User? then 1 else 0
  }

  lemma {:induction false} TurnsSplit(a: seq<Message>, b: seq<Message>)
    ensures Turns(a + b) == Turns(a) + Turns(b)
    decreases |b|
  {
    if b == [] {
      assert a + b == a;
    } else {
      var n := |b| - 1;
      TurnsSplit(a, b[..n]);
      assert (a + b)[..|a + b| - 1] == a + b[..n];
    }
  }

  predicate Increasing(s: seq<nat>) {
    forall i, j :: 0 <= i < j < |s| ==> s[i] < s[j]
  }

  /** `r` is the indices of the user messages before `n`, ascending; the j-th has j turns before it. */
  ghost predicate AreUserIndices(messages: seq<Message>, n: nat, r: seq<nat>) {
    && n <= |messages|
    && Increasing(r)
    && (forall j :: 0 <= j < |r| ==> r[j] < n && messages[r[j]].User? && Turns(messages[..r[j]]) == j)
    && (forall i :: 0 <= i < n && messages[i].User? ==> i in r)
    && |r| == Turns(messages[..n])
  }

  lemma OneMoreTurn(messages: seq<Message>, i: nat)
    requires i < |messages|
    ensures Turns(messages[..i + 1]) == Turns(messages[..i]) + if messages[i].User? then 1 else 0
  {
    assert messages[..i + 1][..i] == messages[..i];
  }

  method UserIndices(messages: seq<Message>) returns (r: seq<nat>)
    ensures AreUserIndices(messages, |messages|, r)
  {
    assert messages[..0] == [];
    assert Turns([]) == 0;
    hide Turns;
    r := [];
    var i := 0;
    while i < |messages|
      invariant 0 <= i <= |messages|
      invariant AreUserIndices(messages, i, r)
    {
      OneMoreTurn(messages, i);
      if messages[i].User? {
        r := r + [i];
      }
      i := i + 1;
    }
  }

  // ---------------------------------------------------------------------------------------
  // Truncation
  // ---------------------------------------------------------------------------------------

  predicate FitsIn(messages: seq<Message>, overhead: nat, maxTokens: nat)
    requires overhead <= U32_MAX
  {
    EstimateTotal(messages, overhead) <= maxTokens
  }

  /** `b` is the first cut from which the rest fits, or the last cut when no rest fits. */
  ghost predicate IsFirstFit(messages: seq<Message>, overhead: nat, maxTokens: nat, b: nat)
    requires overhead <= U32_MAX
  {
    && IsCut(messages, b)
    && (forall c: nat :: c < b && IsCut(messages, c) ==> !FitsIn(messages[c..], overhead, maxTokens))
    && (FitsIn(messages[b..], overhead, maxTokens) || forall c: nat :: IsCut(messages, c) ==> c <= b)
  }

  /** The messages if they fit, else the longest rest from a turn boundary that fits, else the last turn. */
  ghost predicate IsTruncation(messages: seq<Message>, overhead: nat, maxTokens: nat, r: seq<Message>)
    requires overhead <= U32_MAX
  {
    if FitsIn(messages, overhead, maxTokens) || messages == [] then r == messages
    else exists b: nat :: IsFirstFit(messages, overhead, maxTokens, b) && r == messages[b..]
  }

  /** The cut before `next` would tear a tool result from its call. */
  predicate SplitsToolResult(prev: Message, next: Message) {
    CallsOf(prev) != [] && next.ToolResult?
  }

  /**
   Tries the turn boundaries from the oldest on. The guard against tearing a tool result off its call
   is never taken: a cut behind the front is a user message.
   */
  method TruncateToBudget(messages: seq<Message>, maxTokens: nat, overhead: nat) returns (r: seq<Message>)
    requires overhead <= U32_MAX
    ensures IsTruncation(messages, overhead, maxTokens, r)
  {
    hide FitsIn, AreCuts, SplitsToolResult, IsFirstFit, IsCut;
    if FitsIn(messages, overhead, maxTokens) {
      return messages;
    }
    if |messages| == 0 {
      return [];
    }
    var boundaries := Boundaries(messages);
    forall j | 0 <= j < |boundaries| ensures boundaries[j] < |messages| {
      CutNeverSplits(messages, boundaries, j);
    }
    var k := 0;
    while k < |boundaries|
      invariant 0 <= k <= |boundaries|
      invariant forall j :: 0 <= j < |boundaries| ==> boundaries[j] < |messages|
      invariant forall j :: 0 <= j < k ==> !FitsIn(messages[boundaries[j]..], overhead, maxTokens)
    {
      CutNeverSplits(messages, boundaries, k);
      var boundary := boundaries[k];
      if boundary > 0 && SplitsToolResult(messages[boundary - 1], messages[boundary]) {
        assert false;
      } else if FitsIn(messages[boundary..], overhead, maxTokens) {
        FirstFitFound(messages, overhead, maxTokens, boundaries, k);
        return messages[boundary..];
      }
      k := k + 1;
    }
    FirstFitFound(messages, overhead, maxTokens, boundaries, |boundaries| - 1);
    return messages[boundaries[|boundaries| - 1]..];
  }

  ghost predicate AreCuts(messages: seq<Message>, cuts: seq<nat>) {
    && Increasing(cuts)
    && (forall j :: 0 <= j < |cuts| ==> IsCut(messages, cuts[j]))
    && (forall c: nat :: IsCut(messages, c) ==> c in cuts)
  }

  lemma CutNeverSplits(messages: seq<Message>, cuts: seq<nat>, k: nat)
    requires AreCuts(messages, cuts) && k < |cuts|
    ensures cuts[k] < |messages|
    ensures cuts[k] > 0 ==> !SplitsToolResult(messages[cuts[k] - 1], messages[cuts[k]])
  {
    assert IsCut(messages, cuts[k]);
  }

  method Boundaries(messages: seq<Message>) returns (cuts: seq<nat>)
    requires messages != []
    ensures AreCuts(messages, cuts) && cuts != []
  {
    cuts := UserIndices(messages);
    if !messages[0].User? {
      cuts := [0] + cuts;
      assert cuts[0] == 0;
    }
    assert IsCut(messages, 0);
  }

  lemma FirstFitFound(messages: seq<Message>, overhead: nat, maxTokens: nat, cuts: seq<nat>, k: nat)
    requires overhead <= U32_MAX && AreCuts(messages, cuts) && k < |cuts|
    requires forall j :: 0 <= j < k ==> !FitsIn(messages[cuts[j]..], overhead, maxTokens)
    requires FitsIn(messages[cuts[k]..], overhead, maxTokens) || k == |cuts| - 1
    ensures IsFirstFit(messages, overhead, maxTokens, cuts[k])
  {
    hide FitsIn;
    forall c: nat | IsCut(messages, c) ensures c < cuts[k] ==> !FitsIn(messages[c..], overhead, maxTokens)
      ensures k == |cuts| - 1 ==> c <= cuts[k]
    {
      var j :| 0 <= j < |cuts| && cuts[j] == c;
      assert j < k || j == k || k < j;
    }
  }

  /**
   Truncation has one answer, a suffix that is empty only for no messages and starts at a turn unless nothing was
   dropped.
   */
  lemma TruncationDetermined(messages: seq<Message>, overhead: nat, maxTokens: nat, r: seq<Message>, r': seq<Message>)
    requires overhead <= U32_MAX && IsTruncation(messages, overhead, maxTokens, r)
    ensures IsTruncation(messages, overhead, maxTokens, r') <==> r' == r
    ensures r == [] <==> messages == []
    ensures |r| <= |messages| && r == messages[|messages| - |r|..]
    ensures r == messages || r[0].User?
    ensures Turns(r) <= Turns(messages)
  {
    hide FitsIn;
    if !FitsIn(messages, overhead, maxTokens) && messages != [] {
      var b: nat :| IsFirstFit(messages, overhead, maxTokens, b) && r == messages[b..];
      if IsTruncation(messages, overhead, maxTokens, r') {
        var c: nat :| IsFirstFit(messages, overhead, maxTokens, c) && r' == messages[c..];
        assert b == c;
      }
      TurnsSplit(messages[..b], messages[b..]);
      assert messages[..b] + messages[b..] == messages;
    }
  }

  // ---------------------------------------------------------------------------------------
  // The budget of one model
  // ---------------------------------------------------------------------------------------

  function Min(a: nat, b: nat): nat {
    if a < b then a else b
  }

  function SaturatingSub(a: nat, b: nat): nat {
    if a < b then 0 else a - b
  }

  /** All three are 32-bit numbers. */
  datatype ContextBudget = ContextBudget(contextWindow: nat, fixedOverhead: nat, reserveOutputTokens: nat)

  predicate IsBudget(budget: ContextBudget) {
    budget.contextWindow <= U32_MAX && budget.fixedOverhead <= U32_MAX && budget.reserveOutputTokens <= U32_MAX
  }

  function WithOverhead(contextWindow: nat, systemPrompt: string, toolSchemas: string, reserve: nat,
      wrapper: nat): (r: ContextBudget)
    requires contextWindow <= U32_MAX
    ensures IsBudget(r) && r.contextWindow == contextWindow && r.reserveOutputTokens == Min(reserve, U32_MAX)
    ensures r.fixedOverhead == Min(EstimateTokens(systemPrompt) + EstimateTokens(toolSchemas) + wrapper, U32_MAX)
  {
    var overhead := Min(EstimateTokens(systemPrompt) + EstimateTokens(toolSchemas), U32_MAX);
    ContextBudget(contextWindow, Min(overhead + Min(wrapper, U32_MAX), U32_MAX), Min(reserve, U32_MAX))
  }

  function Available(budget: ContextBudget): nat {
    SaturatingSub(budget.contextWindow, budget.reserveOutputTokens)
  }

  function Estimate(budget: ContextBudget, messages: seq<Message>): nat
    requires IsBudget(budget)
  {
    Min(EstimateTotal(messages, budget.fixedOverhead), U32_MAX)
  }

  predicate Fits(budget: ContextBudget, messages: seq<Message>)
    requires IsBudget(budget)
  {
    Estimate(budget, messages) <= Available(budget)
  }

  /** What fits leaves the reserve free: estimate and reserve together stay within the window, if the reserve does. */
  lemma FittingLeavesReserve(budget: ContextBudget, messages: seq<Message>)
    requires IsBudget(budget)
    ensures budget.reserveOutputTokens <= budget.contextWindow ==>
              (Fits(budget, messages) <==>
                Estimate(budget, messages) + budget.reserveOutputTokens <= budget.contextWindow)
    ensures budget.contextWindow < budget.reserveOutputTokens
        ==> (Fits(budget, messages) <==> Estimate(budget, messages) == 0)
    ensures Estimate(budget, messages) <= U32_MAX
    ensures EstimateTotal(messages, budget.fixedOverhead) <= U32_MAX ==>
              Estimate(budget, messages) == EstimateTotal(messages, budget.fixedOverhead)
  {
    hide EstimateTotal;
  }

  /**
   What `fits` accepts is kept whole exactly when the unclamped estimate fits too or there is just one cut. The
   clamp matters only for a window of all 32 bits: below that, what fits is always kept whole.
   */
  lemma FittingIsKeptWhole(budget: ContextBudget, messages: seq<Message>, r: seq<Message>)
    requires IsBudget(budget) && Fits(budget, messages)
    requires IsTruncation(messages, budget.fixedOverhead, Available(budget), r)
    ensures r == messages <==>
            || EstimateTotal(messages, budget.fixedOverhead) <= Available(budget)
            || forall i :: 0 < i < |messages| ==> !messages[i].User?
    ensures Available(budget) < U32_MAX ==> r == messages
  {
    hide EstimateTotal;
    var total := EstimateTotal(messages, budget.fixedOverhead);
    if total > Available(budget) && messages != [] {
      var b: nat :| IsFirstFit(messages, budget.fixedOverhead, Available(budget), b) && r == messages[b..];
      assert messages[0..] == messages;
      assert IsCut(messages, 0);
      if i :| 0 < i < |messages| && messages[i].User? {
        assert IsCut(messages, i);
        assert b > 0;
      }
    }
  }

  /** At a window of all 32 bits a transcript that `fits` accepts loses its older turn. */
  lemma FullWindowDropsWhatFits()
    ensures var messages := [User([]), Assistant([], Some(0x1_0000_0000), None), User([])];
      var budget := ContextBudget(U32_MAX, 0, 0);
      && Fits(budget, messages)
      && IsTruncation(messages, 0, Available(budget), [User([])])
  {
    var messages := [User([]), Assistant([], Some(0x1_0000_0000), None), User([])];
    var answer := Assistant([], Some(0x1_0000_0000), None);
    EstimateSnoc([User([]), answer], User([]), 0);
    EstimateSnoc([User([])], answer, 0);
    EstimateSnoc([], User([]), 0);
    assert messages == [User([]), answer] + [User([])];
    assert [User([]), answer] == [User([])] + [answer];
    assert [] + [User([])] == [User([])];
    assert messages[2..] == [User([])];
    assert messages[0..] == messages;
    assert IsFirstFit(messages, 0, U32_MAX, 2);
  }

  // ---------------------------------------------------------------------------------------
  // Compaction
  // ---------------------------------------------------------------------------------------

  function AtLeastOne(n: nat): nat {
    if n == 0 then 1 else n
  }

  /** Zero when there are no more than the turns to keep, else the start of exactly that many last turns. */
  method ComputeSplit(messages: seq<Message>, keepRecent: nat) returns (split: nat)
    ensures split == 0 <==> Turns(messages) <= AtLeastOne(keepRecent)
    ensures split > 0 ==> KeepsTurns(messages, split, AtLeastOne(keepRecent))
  {
    var boundaries := UserIndices(messages);
    assert messages[..|messages|] == messages;
    if |boundaries| == 0 {
      return 0;
    }
    var keep := if keepRecent < 1 then 1 else keepRecent;
    if keep >= |boundaries| {
      return 0;
    }
    split := boundaries[|boundaries| - keep];
    assert boundaries[0] < split;
    TurnsSplit(messages[..split], messages[split..]);
    assert messages[..split] + messages[split..] == messages;
  }

  predicate KeepsTurns(messages: seq<Message>, split: nat, turns: nat) {
    split < |messages| && messages[split].User? && Turns(messages[split..]) == turns
  }

  /** A later split keeps fewer turns, so only one keeps as many as asked for. */
  lemma LaterSplitKeepsFewer(messages: seq<Message>, i: nat, j: nat, turns: nat)
    requires i < j < |messages| && KeepsTurns(messages, i, turns)
    ensures Turns(messages[j..]) < turns
  {
    TurnsSplit([messages[i]], messages[i + 1..j] + messages[j..]);
    TurnsSplit(messages[i + 1..j], messages[j..]);
    assert messages[i..] == [messages[i]] + (messages[i + 1..j] + messages[j..]);
    assert Turns([messages[i]]) == 1;
  }

  datatype CompactionPolicy = CompactionPolicy(budgetTokens: nat, keepRecent: nat)

  /** What the compactor makes of the older messages. */
  datatype Compaction = Summarized(summary: string) | Cancelled | Failed

  datatype CompactionCommit = CompactionCommit(summary: string, keepFrom: nat)
  datatype PreparedContext = PreparedContext(request: seq<Message>, commit: Option<CompactionCommit>)
  datatype CompactionError = CompactionCancelled

  function SummaryMessage(summary: string): Message {
    User([UserText(summary)])
  }

  /** What the commit makes of the transcript it was planned for. */
  function Committed(transcript: seq<Message>, commit: CompactionCommit): seq<Message>
    requires commit.keepFrom <= |transcript|
  {
    [SummaryMessage(commit.summary)] + transcript[commit.keepFrom..]
  }

  /**
   Within the budget the transcript is sent as it is. Beyond it the older turns are summarized; with none to
   spare, or when that fails, the request alone is truncated; cancellation ends the run.
   */
  ghost predicate IsPlan(transcript: seq<Message>, policy: CompactionPolicy, compaction: Compaction,
                         r: Result<PreparedContext, CompactionError>)
  {
    var keep := AtLeastOne(policy.keepRecent);
    if FitsIn(transcript, 0, policy.budgetTokens) then r == Ok(PreparedContext(transcript, None))
    else if Turns(transcript) <= keep || compaction.Failed? then
      r.Ok? && r.value.commit.None? && IsTruncation(transcript, 0, policy.budgetTokens, r.value.request)
    else if compaction.Cancelled? then r == Err(CompactionCancelled)
    else
      && r.Ok? && r.value.commit.Some?
      && r.value.commit.value.summary == compaction.summary
      && 0 < r.value.commit.value.keepFrom && KeepsTurns(transcript, r.value.commit.value.keepFrom, keep)
      && r.value.request == Committed(transcript, r.value.commit.value)
  }

  method PlanContext(transcript: seq<Message>, policy: CompactionPolicy, compaction: Compaction)
    returns (r: Result<PreparedContext, CompactionError>)
    ensures IsPlan(transcript, policy, compaction, r)
  {
    hide FitsIn, IsTruncation;
    if FitsIn(transcript, 0, policy.budgetTokens) {
      return Ok(PreparedContext(transcript, None));
    }
    var split := ComputeSplit(transcript, policy.keepRecent);
    if split == 0 {
      var request := TruncateToBudget(transcript, policy.budgetTokens, 0);
      return Ok(PreparedContext(request, None));
    }
    match compaction {
      case Summarized(summary) =>
        var request := [SummaryMessage(summary)];
        request := request + transcript[split..];
        return Ok(PreparedContext(request, Some(CompactionCommit(summary, split))));
      case Cancelled =>
        return Err(CompactionCancelled);
      case Failed =>
        var request := TruncateToBudget(transcript, policy.budgetTokens, 0);
        return Ok(PreparedContext(request, None));
    }
  }

  /** The transcript never gets longer by a plan, its commit keeps one turn more than asked for: the summary. */
  lemma CommitShortens(transcript: seq<Message>, policy: CompactionPolicy, compaction: Compaction,
                       r: Result<PreparedContext, CompactionError>)
    requires IsPlan(transcript, policy, compaction, r)
    ensures r.Ok? ==> |r.value.request| <= |transcript| && (r.value.request == [] ==> transcript == [])
    ensures r.Ok? && r.value.commit.Some? ==>
              && compaction.Summarized? && r.value.commit.value.keepFrom <= |transcript|
              && r.value.request == [User([UserText(compaction.summary)])] + transcript[r.value.commit.value.keepFrom..]
              && Turns(r.value.request) == AtLeastOne(policy.keepRecent) + 1
              && Turns(r.value.request) <= Turns(transcript)
  {
    if r.Ok? && r.value.commit.None? && !FitsIn(transcript, 0, policy.budgetTokens) {
      TruncationDetermined(transcript, 0, policy.budgetTokens, r.value.request, r.value.request);
    } else if r.Ok? && r.value.commit.Some? {
      var commit := r.value.commit.value;
      TurnsSplit([SummaryMessage(commit.summary)], transcript[commit.keepFrom..]);
      assert Turns([SummaryMessage(commit.summary)]) == 1;
    }
  }
}
