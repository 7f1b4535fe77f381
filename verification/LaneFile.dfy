/**
 Lanes of one process on one file in locked mode, end to end: what their writers did to the text of the file is
 read back from it, after any operations with failed and cut writes.
 */
module LaneFile {
  import opened Wrappers
  import opened SessionTree
  import opened RecordCodec
  import opened LogRecords
  import opened LogText
  import opened LaneLog
  import opened SharedFile
  import L = LaneSystem
  import R = LaneRuns
  import opened SharedStorage
  import opened StorageRefinement

  /**
   The shared storage and its lane writers. `births` is the head each writer started from, `pending` the lanes whose
   initial head has not been attempted; `starts` and `acked` are history: the messages behind that first head, and those
   acknowledged since, the lanes of which a head record has reached the file (`spoken`), and those whose last one was
   left there by an append that reported failure (`ahead`).
   */
  datatype Session = Session(log: Log, committed: set<LaneId>, heads: map<LaneId, Option<NodeId>>,
                             births: map<LaneId, Option<NodeId>>, pending: set<LaneId>,
                             starts: map<LaneId, seq<Message>>, acked: map<LaneId, seq<Message>>,
                             spoken: set<LaneId>, ahead: set<LaneId>)

  const NewFile := Session(Log("", 0), {}, map[], map[], {}, map[], map[], {}, {})

  /** A lane is made once; the other operations do nothing without their lane. */
  datatype Op =
    | Open(lane: LaneId)
    | Fork(from: LaneId, lane: LaneId)
    | PersistInitial(lane: LaneId, fate: WriteFate)
    | Append(lane: LaneId, message: Message, messageFate: WriteFate, headFate: WriteFate)

  function Born(o: Session, l: LaneId, head: Option<NodeId>, start: seq<Message>): Session {
    o.(heads := o.heads[l := head], births := o.births[l := head], pending := o.pending + {l},
       starts := o.starts[l := start], acked := o.acked[l := []], spoken := o.spoken - {l}, ahead := o.ahead - {l})
  }

  predicate Knows(o: Session, l: LaneId) {
    l in o.heads && l in o.births && l in o.starts && l in o.acked
  }

  function AfterOp(o: Session, op: Op): Session {
    match op
    case Open(l) => if l in o.heads then o else Born(o, l, None, [])
    case Fork(from, l) =>
      if l in o.heads || !Knows(o, from) then o else Born(o, l, o.heads[from], o.starts[from] + o.acked[from])
    case PersistInitial(l, fate) =>
      if !Knows(o, l) || l !in o.pending then o else AfterPersist(o, l, fate)
    case Append(l, m, messageFate, headFate) =>
      if !Knows(o, l) then o
      else
        var after := CombinedCommit(o.log, true, true, o.committed, l, o.heads[l], m, messageFate, headFate);
        AfterAppendOp(o, l, m, after, HeadWrite(after, l, messageFate, headFate))
  }

  /**
   No message is written right behind a record without its newline, and no initial head behind one or behind a torn
   line.
   */
  predicate Clean(o: Session, op: Op) {
    match op
    case PersistInitial(l, fate) =>
      Knows(o, l) && l in o.pending && l !in o.committed ==>
        Shows(o.log.text, HeadRecord(l, o.births[l]), fate)
    case Append(l, _, messageFate, _) => Knows(o, l) ==> !MessageOverruns(o.log, messageFate)
    case _ => true
  }

  predicate RunClean(o: Session, ops: seq<Op>)
    decreases |ops|
  {
    ops == [] || (Clean(o, ops[0]) && RunClean(AfterOp(o, ops[0]), ops[1..]))
  }

  function Run(o: Session, ops: seq<Op>): Session
    decreases |ops|
  {
    if ops == [] then o else Run(AfterOp(o, ops[0]), ops[1..])
  }

  // ---------------------------------------------------------------------------------------
  // The lane system behind the objects
  // ---------------------------------------------------------------------------------------

  /** The lane of the step system and its writer agree, and no call is in progress. */
  predicate LaneMatches(o: Session, l: LaneId, lane: L.Lane) {
    && Knows(o, l)
    && o.heads[l] == lane.head && o.births[l] == lane.start && o.starts[l] == lane.startPath && o.acked[l] == lane.acked
    && lane.call.NoCall? && (l in o.pending <==> lane.initial.Pending?)
    && lane.unheard && (l in o.spoken <==> lane.spoken) && (l in o.ahead <==> lane.ahead)
  }

  ghost predicate Matches(o: Session, s: L.Sys) {
    && Simulates(o.log, s) && o.committed == s.committed && s.writing.None? && AllMatch(o, s.lanes)
    && HeadsOfLanes(s)
  }

  /** The log holds head records of lanes only. */
  predicate HeadsOfLanes(s: L.Sys) {
    ReplayHeads(s.log).Keys <= s.lanes.Keys
  }

  predicate AllMatch(o: Session, lanes: map<LaneId, L.Lane>) {
    o.heads.Keys == lanes.Keys && forall l :: l in lanes ==> LaneMatches(o, l, lanes[l])
  }

  /** What the session says of one lane. */
  predicate SameOf(o: Session, o': Session, l: LaneId) {
    Knows(o, l) ==>
      && Knows(o', l) && o'.heads[l] == o.heads[l] && o'.births[l] == o.births[l]
      && o'.starts[l] == o.starts[l] && o'.acked[l] == o.acked[l] && (l in o'.pending <==> l in o.pending)
      && (l in o'.spoken <==> l in o.spoken) && (l in o'.ahead <==> l in o.ahead)
  }

  /** When one lane moves on both sides and the others stay, all still match. */
  lemma OneMoves(o: Session, lanes: map<LaneId, L.Lane>, o': Session, lanes': map<LaneId, L.Lane>, l: LaneId)
    requires AllMatch(o, lanes)
    requires lanes'.Keys == lanes.Keys + {l} && o'.heads.Keys == lanes'.Keys
    requires forall k :: k in lanes && k != l ==> lanes'[k] == lanes[k] && SameOf(o, o', k)
    requires LaneMatches(o', l, lanes'[l])
    ensures AllMatch(o', lanes')
  {
    forall k | k in lanes' && k != l ensures LaneMatches(o', k, lanes'[k]) { assert LaneMatches(o, k, lanes[k]); }
  }

  /** Another lane, and what an append never touches of its own. */
  predicate SameBut(s: L.Sys, t: L.Sys, l: LaneId)
    requires l in s.lanes && l in t.lanes
  {
    && t.lanes.Keys == s.lanes.Keys
    && (forall k :: k in s.lanes && k != l ==> t.lanes[k] == s.lanes[k])
    && SameLane(s.lanes[l], t.lanes[l])
  }

  predicate SameLane(a: L.Lane, b: L.Lane) {
    && b.head == a.head && b.start == a.start && b.initial == a.initial && b.startPath == a.startPath
    && b.acked == a.acked
    && b.unheard == a.unheard
  }

  /** What a write of a head record by an append, if there was one, makes of the marks kept of the lane. */
  predicate Marks(a: L.Lane, b: L.Lane, write: Option<L.Write>) {
    match write
    case Some(Acked) => b.spoken && !b.ahead
    case Some(FailedLanded) => b.spoken && b.ahead
    case _ => b.spoken == a.spoken && b.ahead == a.ahead
  }

  lemma BegunFields(s: L.Sys, l: LaneId, m: Message, write: L.Write)
    requires l in s.lanes && s.lanes[l].call.NoCall? && s.writing.None?
    ensures var t := L.Begun(s, l, m, write);
      && l in t.lanes && SameBut(s, t, l)
      && if write.Acked? && s.nextId < U64_MAX then
           t.writing == Some(l) && t.lanes[l].call == L.BetweenRecords(s.nextId, m)
         else t.writing.None? && t.lanes[l].call.NoCall?
    ensures Marks(s.lanes[l], L.Begun(s, l, m, write).lanes[l], None)
    ensures ReplayHeads(L.Begun(s, l, m, write).log) == ReplayHeads(s.log)
    ensures L.Begun(s, l, m, write).nextId == if s.nextId < U64_MAX then s.nextId + 1 else s.nextId
  {
    Snoc(s.log, MessageRecord(SessionEntry(s.nextId, s.lanes[l].head, m)));
  }

  lemma WrittenFields(s: L.Sys, l: LaneId, write: L.Write)
    requires l in s.lanes && s.lanes[l].call.BetweenRecords?
    ensures var t := L.HeadWritten(s, l, write);
      && l in t.lanes && SameBut(s, t, l) && t.writing.None?
      && (t.lanes[l].call.NoCall? || t.lanes[l].call == L.Committed(s.lanes[l].call.id, s.lanes[l].call.message))
      && Marks(s.lanes[l], t.lanes[l], Some(write))
      && ReplayHeads(t.log).Keys <= ReplayHeads(s.log).Keys + {l} && t.nextId == s.nextId
  {
    Snoc(s.log, HeadRecord(l, Some(s.lanes[l].call.id)));
  }

  /** The write of its head record by an append that claims this id. */
  function HeadStep(s: L.Sys, l: LaneId, messageFate: WriteFate, headFate: WriteFate): Option<L.Write> {
    if messageFate.Written? && s.nextId < U64_MAX then Some(AsWrite(HeadRecord(l, Some(s.nextId)), headFate)) else None
  }

  /** What an append may change of the lanes; every step of it is one of the lane system. */
  lemma AppendSteps(s: L.Sys, l: LaneId, m: Message, messageFate: WriteFate, headFate: WriteFate)
      returns (es: seq<L.Event>)
    requires L.Inv(s) && l in s.lanes && s.lanes[l].call.NoCall? && s.writing.None?
    ensures var t := AfterAppend(s, l, m, messageFate, headFate);
      && L.Inv(t) && SameBut(s, t, l) && t.writing.None?
      && (t.lanes[l].call.NoCall? || (t.lanes[l].call.Committed? && t.lanes[l].call.message == m))
      && Marks(s.lanes[l], t.lanes[l], HeadStep(s, l, messageFate, headFate))
      && ReplayHeads(t.log).Keys <= ReplayHeads(s.log).Keys + {l}
      && t.nextId == (if s.nextId < U64_MAX then s.nextId + 1 else s.nextId)
      && R.RunEnabled(s, es) && R.Run(s, es) == t
  {
    hide L.Inv, L.Begun, L.HeadWritten, Marks, ReplayHeads;
    var message := AsWrite(MessageRecord(SessionEntry(s.nextId, s.lanes[l].head, m)), messageFate);
    BegunFields(s, l, m, message);
    L.BeginKeepsInv(s, l, m, message);
    R.RunOne(s, L.BeginAppend(l, m, message));
    es := [L.BeginAppend(l, m, message)];
    if message.Acked? && s.nextId < U64_MAX {
      var begun, head := L.Begun(s, l, m, message), AsWrite(HeadRecord(l, Some(s.nextId)), headFate);
      WrittenFields(begun, l, head);
      MarksLater(s.lanes[l], begun.lanes[l], L.HeadWritten(begun, l, head).lanes[l], head);
      L.HeadKeepsInv(begun, l, head);
      R.RunOne(begun, L.WriteHead(l, head));
      R.RunJoin(s, es, [L.WriteHead(l, head)]);
      es := es + [L.WriteHead(l, head)];
    }
  }

  lemma MarksLater(a: L.Lane, b: L.Lane, c: L.Lane, write: L.Write)
    requires Marks(a, b, None) && Marks(b, c, Some(write))
    ensures Marks(a, c, Some(write))
  {
  }

  /** How the head record of an append with this outcome was written, if its message was. */
  function HeadWrite(after: Outcome, l: LaneId, messageFate: WriteFate, headFate: WriteFate): Option<L.Write> {
    if messageFate.Failed? || after.result == Err(IdExhausted) || after.log.cursor == 0 then None
    else Some(AsWrite(HeadRecord(l, Some(after.log.cursor - 1)), headFate))
  }

  /** The session after an append with this outcome. */
  function AfterAppendOp(o: Session, l: LaneId, m: Message, after: Outcome, write: Option<L.Write>): Session
    requires Knows(o, l)
  {
    var moved := o.(log := after.log, committed := after.committed,
                    spoken := if write.Some? && !write.value.FailedLost? then o.spoken + {l} else o.spoken,
                    ahead := match write
                      case Some(Acked) => o.ahead - {l}
                      case Some(FailedLanded) => o.ahead + {l}
                      case _ => o.ahead);
    if after.result.Err? then moved
    else moved.(heads := o.heads[l := Some(after.result.value)], acked := o.acked[l := o.acked[l] + [m]])
  }

  /** The steps of the append and, when it was acknowledged, its return to the caller. */
  function Returned(t: L.Sys, l: LaneId): L.Sys
    requires l in t.lanes
  {
    if t.lanes[l].call.Committed? then L.Next(t, L.FinishAppend(l)) else t
  }

  lemma AppendKeepsMatch(o: Session, s: L.Sys, t: L.Sys, l: LaneId, m: Message, after: Outcome, write: Option<L.Write>)
    requires AllMatch(o, s.lanes) && l in s.lanes && l in t.lanes && SameBut(s, t, l) && Agrees(after, s, t, l)
    requires t.lanes[l].call.NoCall? || (t.lanes[l].call.Committed? && t.lanes[l].call.message == m)
    requires Marks(s.lanes[l], t.lanes[l], write)
    ensures Knows(o, l) && AllMatch(AfterAppendOp(o, l, m, after, write), Returned(t, l).lanes)
  {
    hide Simulates, ReplayHeads, AsWrite;
    assert LaneMatches(o, l, s.lanes[l]);
    var o', t' := AfterAppendOp(o, l, m, after, write), Returned(t, l);
    assert LaneMatches(o', l, t'.lanes[l]);
    OneMoves(o, s.lanes, o', t'.lanes, l);
  }

  /** The outcome on the file is that of the steps. */
  lemma AppendAgrees(o: Session, s: L.Sys, op: Op)
    requires L.Inv(s) && Matches(o, s) && op.Append? && op.lane in s.lanes && Clean(o, op)
    ensures Knows(o, op.lane)
    ensures Agrees(CombinedCommit(o.log, true, true, o.committed, op.lane, o.heads[op.lane], op.message,
                                  op.messageFate, op.headFate),
                   s, AfterAppend(s, op.lane, op.message, op.messageFate, op.headFate), op.lane)
  {
    assert LaneMatches(o, op.lane, s.lanes[op.lane]);
    hide L.Inv, CombinedCommit, AfterAppend, Simulates, Agrees, MessageOverruns;
    LockedAppendSimulates(o.log, s, op.lane, op.message, op.messageFate, op.headFate);
  }

  lemma ReturnKeepsInv(t: L.Sys, l: LaneId) returns (es: seq<L.Event>)
    requires L.Inv(t) && l in t.lanes
    ensures L.Inv(Returned(t, l)) && R.RunEnabled(t, es) && R.Run(t, es) == Returned(t, l)
  {
    hide L.Inv;
    es := [];
    if t.lanes[l].call.Committed? {
      L.NextKeepsInv(t, L.FinishAppend(l));
      R.RunOne(t, L.FinishAppend(l));
      es := [L.FinishAppend(l)];
    }
  }

  lemma AgreesThenMatches(o: Session, s: L.Sys, t: L.Sys, l: LaneId, m: Message, after: Outcome, write: Option<L.Write>)
    requires AllMatch(o, s.lanes) && l in s.lanes && l in t.lanes && SameBut(s, t, l) && Agrees(after, s, t, l)
    requires t.writing.None?
        && (t.lanes[l].call.NoCall? || (t.lanes[l].call.Committed? && t.lanes[l].call.message == m))
    requires Marks(s.lanes[l], t.lanes[l], write)
    requires HeadsOfLanes(s) && ReplayHeads(t.log).Keys <= ReplayHeads(s.log).Keys + {l}
    ensures Knows(o, l) && Matches(AfterAppendOp(o, l, m, after, write), Returned(t, l))
  {
    AppendKeepsMatch(o, s, t, l, m, after, write);
    ReturnedLog(t, l);
    hide AllMatch, Simulates, Marks, ReplayHeads;
  }

  /** What the outcome says of the head record is what the steps wrote. */
  lemma HeadWriteAgrees(s: L.Sys, done: L.Sys, l: LaneId, after: Outcome, messageFate: WriteFate, headFate: WriteFate)
    requires l in done.lanes && Agrees(after, s, done, l) && s.nextId <= U64_MAX
    requires done.nextId == if s.nextId < U64_MAX then s.nextId + 1 else s.nextId
    ensures HeadWrite(after, l, messageFate, headFate) == HeadStep(s, l, messageFate, headFate)
  {
    hide HoldsLines, AsWrite;
  }

  lemma AppendMatches(o: Session, s: L.Sys, op: Op) returns (es: seq<L.Event>)
    requires L.Inv(s) && Matches(o, s) && op.Append? && op.lane in s.lanes
    ensures var t := Target(s, op);
      L.Inv(t) && R.RunEnabled(s, es) && R.Run(s, es) == t && (Matches(AfterOp(o, op), t) <==> Clean(o, op))
  {
    var l, m := op.lane, op.message;
    assert LaneMatches(o, l, s.lanes[l]);
    assert HeadsOfLanes(s) && s.nextId <= U64_MAX;
    var done := AfterAppend(s, l, m, op.messageFate, op.headFate);
    assert Target(s, op) == Returned(done, l);
    assert Clean(o, op) <==> !MessageOverruns(o.log, op.messageFate);
    hide *;
    es := AppendSteps(s, l, m, op.messageFate, op.headFate);
    var last := ReturnKeepsInv(done, l);
    R.RunJoin(s, es, last);
    es := es + last;
    AppendIsAfterOp(o, op);
    var after := CombinedCommit(o.log, true, true, o.committed, l, o.heads[l], m, op.messageFate, op.headFate);
    if Clean(o, op) {
      AppendAgrees(o, s, op);
      HeadWriteAgrees(s, done, l, after, op.messageFate, op.headFate);
      AgreesThenMatches(o, s, done, l, m, after, HeadStep(s, l, op.messageFate, op.headFate));
    } else {
      AppendDisagrees(o, s, op);
      ReturnedLog(done, l);
      MatchesHoldsLog(AfterOp(o, op), Returned(done, l));
    }
  }

  lemma MatchesHoldsLog(o: Session, s: L.Sys)
    ensures Matches(o, s) ==> Simulates(o.log, s)
  {
  }

  /** A message that overruns leaves a text which no longer holds the log of the steps. */
  lemma AppendDisagrees(o: Session, s: L.Sys, op: Op)
    requires L.Inv(s) && Matches(o, s) && op.Append? && op.lane in s.lanes && MessageOverruns(o.log, op.messageFate)
    ensures Knows(o, op.lane)
    ensures !Simulates(AfterOp(o, op).log, AfterAppend(s, op.lane, op.message, op.messageFate, op.headFate))
  {
    AppendReady(o, s, op);
    hide *;
    HeadsFit(s, op.lane);
    OverrunDisagrees(o.log, s, op.lane, op.message, op.messageFate, op.headFate);
    AppendIsAfterOp(o, op);
    var after := CombinedCommit(o.log, true, true, o.committed, op.lane, o.heads[op.lane], op.message, op.messageFate,
        op.headFate);
    AppendLog(o, op.lane, op.message, after, HeadWrite(after, op.lane, op.messageFate, op.headFate));
  }

  lemma AppendReady(o: Session, s: L.Sys, op: Op)
    requires Matches(o, s) && op.Append? && op.lane in s.lanes && MessageOverruns(o.log, op.messageFate)
    ensures Knows(o, op.lane) && o.heads[op.lane] == s.lanes[op.lane].head && o.committed == s.committed
    ensures Simulates(o.log, s) && s.nextId < U64_MAX && L.Enabled(s, L.BeginAppend(op.lane, op.message, L.Acked))
  {
    hide HoldsLines, ReplayHeads;
    assert LaneMatches(o, op.lane, s.lanes[op.lane]);
  }

  lemma AppendLog(o: Session, l: LaneId, m: Message, after: Outcome, write: Option<L.Write>)
    requires Knows(o, l)
    ensures AfterAppendOp(o, l, m, after, write).log == after.log
  {
  }

  lemma AppendIsAfterOp(o: Session, op: Op)
    requires op.Append? && Knows(o, op.lane)
    ensures var after := CombinedCommit(o.log, true, true, o.committed, op.lane, o.heads[op.lane], op.message,
        op.messageFate, op.headFate);
      AfterOp(o, op) == AfterAppendOp(o, op.lane, op.message, after,
          HeadWrite(after, op.lane, op.messageFate, op.headFate))
  {
  }

  lemma ReturnedLog(t: L.Sys, l: LaneId)
    requires l in t.lanes
    ensures Returned(t, l) == t.(lanes := Returned(t, l).lanes)
    ensures forall log :: Simulates(log, Returned(t, l)) <==> Simulates(log, t)
  {
  }

  /** The lane system with a new lane at this head. */
  function WithLane(s: L.Sys, l: LaneId, head: Option<NodeId>): L.Sys {
    s.(lanes := s.lanes[l := L.NewLane(s, l, head, L.Pending)])
  }

  lemma BirthKeepsInv(s: L.Sys, l: LaneId, head: Option<NodeId>)
    requires L.Inv(s) && l !in s.lanes && Names(s.log, head)
    ensures L.Inv(WithLane(s, l, head))
  {
    L.NewLaneOk(s, l, head, L.Pending);
    hide Path, Names, ReplayHeads, WellLinked, L.LaneOk, L.IdsBelow;
  }

  lemma WithLaneLog(s: L.Sys, l: LaneId, head: Option<NodeId>)
    ensures forall log :: Simulates(log, WithLane(s, l, head)) <==> Simulates(log, s)
  {
  }

  lemma BornShape(o: Session, l: LaneId, head: Option<NodeId>, start: seq<Message>)
    ensures var o' := Born(o, l, head, start);
      && o'.log == o.log && o'.committed == o.committed && o'.heads.Keys == o.heads.Keys + {l}
      && Knows(o', l) && o'.heads[l] == head && o'.births[l] == head && o'.starts[l] == start && o'.acked[l] == []
      && l in o'.pending && l !in o'.spoken && l !in o'.ahead
    ensures forall k :: k != l ==> SameOf(o, Born(o, l, head, start), k)
  {
  }

  lemma BirthMatches(o: Session, s: L.Sys, l: LaneId, head: Option<NodeId>, start: seq<Message>)
    requires Matches(o, s) && l !in s.lanes && start == Path(s.log, head)
    ensures Matches(Born(o, l, head, start), WithLane(s, l, head))
  {
    WithLaneLog(s, l, head);
    BornShape(o, l, head, start);
    hide Path, ReplayHeads, Simulates, Born, SameOf;
    var t, o' := WithLane(s, l, head), Born(o, l, head, start);
    assert LaneMatches(o', l, t.lanes[l]);
    OneMoves(o, s.lanes, o', t.lanes, l);
  }

  lemma OpenMatches(o: Session, s: L.Sys, l: LaneId) returns (es: seq<L.Event>)
    requires L.Inv(s) && Matches(o, s) && l !in s.lanes
    ensures var t := WithLane(s, l, None);
      L.Inv(t) && Matches(Born(o, l, None, []), t) && R.RunEnabled(s, es) && R.Run(s, es) == t
  {
    assert Path(s.log, None) == [] && Names(s.log, None);
    BirthKeepsInv(s, l, None);
    BirthMatches(o, s, l, None, []);
    es := [L.Spawn(l)];
    R.RunOne(s, L.Spawn(l));
    hide L.Inv, Matches, Born;
  }

  lemma ForkMatches(o: Session, s: L.Sys, from: LaneId, l: LaneId) returns (es: seq<L.Event>)
    requires L.Inv(s) && Matches(o, s) && l !in s.lanes && from in s.lanes
    ensures var t := WithLane(s, l, s.lanes[from].head);
      && Knows(o, from) && L.Inv(t) && Matches(Born(o, l, o.heads[from], o.starts[from] + o.acked[from]), t)
      && R.RunEnabled(s, es) && R.Run(s, es) == t
  {
    assert LaneMatches(o, from, s.lanes[from]);
    assert L.LaneOk(s.log, s.committed, from, s.lanes[from]);
    BirthKeepsInv(s, l, o.heads[from]);
    BirthMatches(o, s, l, o.heads[from], o.starts[from] + o.acked[from]);
    es := [L.Fork(from, l)];
    R.RunOne(s, L.Fork(from, l));
    hide L.Inv, Matches, Born;
  }

  /** The initial head on the file is that step of the lane, exactly when it is written where its record shows. */
  lemma InitialAgrees(log: Log, s: L.Sys, l: LaneId, fate: WriteFate)
    requires L.Inv(s) && Simulates(log, s) && l in s.lanes && l !in s.committed
    ensures Simulates(log.(text := AppendedHead(log.text, l, s.lanes[l].start, fate)),
                      L.InitialPersisted(s, l, AsWrite(HeadRecord(l, s.lanes[l].start), fate)))
            <==> Shows(log.text, HeadRecord(l, s.lanes[l].start), fate)
  {
    hide L.Inv, Encode, Lines, HoldsLines, Shows;
    HeadsFit(s, l);
    hide L.LaneOk, Names, ReplayHeads, WellLinked;
    ShowsExactly(log.text, s.log, HeadRecord(l, s.lanes[l].start), fate);
  }

  lemma InitialShape(s: L.Sys, l: LaneId, write: L.Write)
    requires l in s.lanes
    ensures var t := L.InitialPersisted(s, l, write);
      && t.nextId == s.nextId && t.writing == s.writing && t.lanes.Keys == s.lanes.Keys
      && (forall k :: k in s.lanes && k != l ==> t.lanes[k] == s.lanes[k])
      && t.lanes[l].head == s.lanes[l].head && t.lanes[l].start == s.lanes[l].start
      && t.lanes[l].call == s.lanes[l].call
      && t.lanes[l].startPath == s.lanes[l].startPath && t.lanes[l].acked == s.lanes[l].acked
      && !t.lanes[l].initial.Pending?
      && (l in s.committed ==> t.log == s.log)
      && t.committed == (if l !in s.committed && write.Acked? then s.committed + {l} else s.committed)
      && t.lanes[l].unheard == s.lanes[l].unheard
      && (if l in s.committed || write.FailedLost? then
            t.lanes[l].spoken == s.lanes[l].spoken && t.lanes[l].ahead == s.lanes[l].ahead
          else t.lanes[l].spoken && !t.lanes[l].ahead)
      && ReplayHeads(t.log).Keys <= ReplayHeads(s.log).Keys + {l}
  {
    Snoc(s.log, HeadRecord(l, s.lanes[l].start));
  }

  /** The session after its initial head was persisted, skipped or failed. */
  function AfterPersist(o: Session, l: LaneId, fate: WriteFate): Session
    requires Knows(o, l)
  {
    if l in o.committed then o.(pending := o.pending - {l})
    else
      o.(log := o.log.(text := AppendedHead(o.log.text, l, o.births[l], fate)), pending := o.pending - {l},
         committed := if fate.Written? then o.committed + {l} else o.committed,
         spoken := if AsWrite(HeadRecord(l, o.births[l]), fate).FailedLost? then o.spoken else o.spoken + {l},
         ahead := if AsWrite(HeadRecord(l, o.births[l]), fate).FailedLost? then o.ahead else o.ahead - {l})
  }

  lemma PersistKeepsMatch(o: Session, s: L.Sys, l: LaneId, fate: WriteFate)
    requires AllMatch(o, s.lanes) && o.committed == s.committed && l in s.lanes
    ensures Knows(o, l) && o.births[l] == s.lanes[l].start
    ensures AllMatch(AfterPersist(o, l, fate),
        L.InitialPersisted(s, l, AsWrite(HeadRecord(l, s.lanes[l].start), fate)).lanes)
  {
    assert LaneMatches(o, l, s.lanes[l]);
    var write := AsWrite(HeadRecord(l, s.lanes[l].start), fate);
    InitialShape(s, l, write);
    hide L.InitialPersisted, Encode, AppendedHead, AsWrite, ReplayHeads;
    var o', t := AfterPersist(o, l, fate), L.InitialPersisted(s, l, write);
    assert LaneMatches(o', l, t.lanes[l]);
    OneMoves(o, s.lanes, o', t.lanes, l);
  }

  /** Whether the initial head is written where its record shows, if it is written at all. */
  predicate InitialShows(o: Session, l: LaneId, fate: WriteFate)
    requires l in o.births
  {
    l !in o.committed ==> Shows(o.log.text, HeadRecord(l, o.births[l]), fate)
  }

  /** The file, the committed lanes and the lock after it. */
  lemma PersistAgrees(o: Session, s: L.Sys, l: LaneId, fate: WriteFate)
    requires L.Inv(s) && Simulates(o.log, s) && o.committed == s.committed && s.writing.None? && l in s.lanes
    requires Knows(o, l) && o.births[l] == s.lanes[l].start
    ensures var t := L.InitialPersisted(s, l, AsWrite(HeadRecord(l, s.lanes[l].start), fate));
      var o' := AfterPersist(o, l, fate);
      (Simulates(o'.log, t) <==> InitialShows(o, l, fate)) && o'.committed == t.committed && t.writing.None?
      && t.lanes.Keys == s.lanes.Keys && ReplayHeads(t.log).Keys <= ReplayHeads(s.log).Keys + {l}
  {
    hide L.Inv, HoldsLines, Shows, AppendedHead;
    var write := AsWrite(HeadRecord(l, s.lanes[l].start), fate);
    if l !in s.committed { InitialAgrees(o.log, s, l, fate); }
    InitialShape(s, l, write);
    hide L.InitialPersisted;
  }

  lemma PersistIsReady(o: Session, s: L.Sys, op: Op)
    requires Matches(o, s) && op.PersistInitial? && op.lane in s.lanes && op.lane in o.pending
    ensures L.Enabled(s, L.PersistInitial(op.lane, L.Acked)) && Knows(o, op.lane)
    ensures o.births[op.lane] == s.lanes[op.lane].start
    ensures AfterOp(o, op) == AfterPersist(o, op.lane, op.fate)
    ensures Clean(o, op) <==> InitialShows(o, op.lane, op.fate)
  {
    hide Simulates, Shows, AfterPersist;
    assert LaneMatches(o, op.lane, s.lanes[op.lane]);
  }

  lemma PersistThenMatches(o: Session, s: L.Sys, l: LaneId, fate: WriteFate)
    requires L.Inv(s) && Matches(o, s) && l in s.lanes && Knows(o, l) && o.births[l] == s.lanes[l].start
    ensures Matches(AfterPersist(o, l, fate), L.InitialPersisted(s, l, AsWrite(HeadRecord(l, s.lanes[l].start), fate)))
            <==> InitialShows(o, l, fate)
  {
    PersistKeepsMatch(o, s, l, fate);
    PersistAgrees(o, s, l, fate);
    hide L.Inv, L.InitialPersisted, Simulates, InitialShows, AllMatch, AfterPersist, Knows, ReplayHeads, AsWrite;
  }

  lemma PersistMatches(o: Session, s: L.Sys, op: Op) returns (es: seq<L.Event>)
    requires L.Inv(s) && Matches(o, s) && op.PersistInitial? && op.lane in s.lanes && op.lane in o.pending
    ensures var t := L.InitialPersisted(s, op.lane, AsWrite(HeadRecord(op.lane, s.lanes[op.lane].start), op.fate));
      L.Inv(t) && R.RunEnabled(s, es) && R.Run(s, es) == t && (Matches(AfterOp(o, op), t) <==> Clean(o, op))
  {
    var l := op.lane;
    hide L.Inv, L.InitialPersisted, Matches, InitialShows, Clean, AfterOp, AfterPersist, Knows, AsWrite;
    PersistIsReady(o, s, op);
    PersistThenMatches(o, s, l, op.fate);
    var write := AsWrite(HeadRecord(l, s.lanes[l].start), op.fate);
    L.InitialKeepsInv(s, l, write);
    R.RunOne(s, L.PersistInitial(l, write));
    es := [L.PersistInitial(l, write)];
  }

  /** Where the steps of an operation lead: opening, forking, persisting and appending as the lane system does them. */
  function Target(s: L.Sys, op: Op): L.Sys {
    match op
    case Open(l) => if l in s.lanes then s else WithLane(s, l, None)
    case Fork(from, l) => if l in s.lanes || from !in s.lanes then s else WithLane(s, l, s.lanes[from].head)
    case PersistInitial(l, fate) =>
      if l !in s.lanes || !s.lanes[l].initial.Pending? then s
      else L.InitialPersisted(s, l, AsWrite(HeadRecord(l, s.lanes[l].start), fate))
    case Append(l, m, messageFate, headFate) =>
      if l !in s.lanes then s else Returned(AfterAppend(s, l, m, messageFate, headFate), l)
  }

  /**
   One operation on the file is a run of steps of the lane system, and the file holds what those steps make of the log
   exactly when the operation writes where its records show.
   */
  lemma OpMatches(o: Session, s: L.Sys, op: Op) returns (es: seq<L.Event>)
    requires L.Inv(s) && Matches(o, s)
    ensures L.Inv(Target(s, op)) && R.RunEnabled(s, es) && R.Run(s, es) == Target(s, op)
    ensures Matches(AfterOp(o, op), Target(s, op)) <==> Clean(o, op)
  {
    hide L.Inv, Simulates, CombinedCommit, HeadsOfLanes, Shows, MessageOverruns, AfterAppend, Returned;
    es := [];
    assert forall l :: l in s.lanes ==> LaneMatches(o, l, s.lanes[l]);
    match op
    case Open(l) => if l !in s.lanes { es := OpenMatches(o, s, l); }
    case Fork(from, l) => if l !in s.lanes && from in s.lanes { es := ForkMatches(o, s, from, l); }
    case PersistInitial(l, _) => if l in s.lanes && l in o.pending { es := PersistMatches(o, s, op); }
    case Append(l, _, _, _) => if l in s.lanes { es := AppendMatches(o, s, op); }
  }

  /** After every operation the file holds the log that the steps have made. */
  ghost predicate MatchesThroughout(o: Session, s: L.Sys, ops: seq<Op>)
    decreases |ops|
  {
    Matches(o, s) && (ops == [] || MatchesThroughout(AfterOp(o, ops[0]), Target(s, ops[0]), ops[1..]))
  }

  /** So it is with any sequence of operations. */
  lemma {:induction false} RunMatchesExactly(o: Session, s: L.Sys, ops: seq<Op>)
    requires L.Inv(s) && Matches(o, s)
    ensures MatchesThroughout(o, s, ops) <==> RunClean(o, ops)
    decreases |ops|
  {
    hide L.Inv, Matches, Clean, AfterOp, Target;
    if ops != [] {
      var es := OpMatches(o, s, ops[0]);
      if Clean(o, ops[0]) { RunMatchesExactly(AfterOp(o, ops[0]), Target(s, ops[0]), ops[1..]); }
    }
  }

  /** And so is any sequence of operations: every result about runs of lanes speaks of the file. */
  lemma {:induction false} RunMatches(o: Session, s: L.Sys, ops: seq<Op>) returns (t: L.Sys, es: seq<L.Event>)
    requires L.Inv(s) && Matches(o, s) && RunClean(o, ops)
    ensures L.Inv(t) && Matches(Run(o, ops), t)
    ensures R.RunEnabled(s, es) && R.Run(s, es) == t
    decreases |ops|
  {
    hide L.Inv, Matches, Clean, AfterOp, Target;
    t, es := s, [];
    if ops != [] {
      es := OpMatches(o, s, ops[0]);
      var rest;
      t, rest := RunMatches(AfterOp(o, ops[0]), Target(s, ops[0]), ops[1..]);
      R.RunJoin(s, es, rest);
      es := es + rest;
    }
  }

  lemma NewFileMatches()
    ensures L.Inv(R.Empty) && Matches(NewFile, R.Empty)
  {
    WholeLinesHeld([]);
  }

  /** The records on the file after any operations are the log of a run of lanes from nothing. */
  lemma FileIsRun(ops: seq<Op>) returns (es: seq<L.Event>)
    requires RunClean(NewFile, ops)
    ensures R.RunEnabled(R.Empty, es)
    ensures var t := R.Run(R.Empty, es);
      L.Inv(t) && Matches(Run(NewFile, ops), t) && Records(Run(NewFile, ops).log.text) == t.log
  {
    NewFileMatches();
    var t;
    t, es := RunMatches(NewFile, R.Empty, ops);
    HeldLines(Run(NewFile, ops).log.text, t.log);
  }

  /**
   End to end: lanes are opened, forked and appended to in any order on a new file, initial heads persisted, writes
   fail and are cut, and each is made where its record shows. Reading the file then gives a well-linked log in which,
   from the head of every writer, the parents spell the messages behind its birth and exactly those it acknowledged, in
   order.
   */
  lemma FileHoldsLaneMessages(ops: seq<Op>, l: LaneId)
    requires RunClean(NewFile, ops) && l in Run(NewFile, ops).heads
    ensures var o := Run(NewFile, ops);
      var rs := Records(o.log.text);
      && Knows(o, l) && WellLinked(rs) && Names(rs, o.heads[l])
      && Path(rs, o.heads[l]) == o.starts[l] + o.acked[l]
      && (WellFormed(Entries(rs)) <==> AtMostOneRoot(Entries(rs)))
  {
    var es := FileIsRun(ops);
    var t := R.Run(R.Empty, es);
    assert LaneMatches(Run(NewFile, ops), l, t.lanes[l]);
    R.LaneHoldsItsMessages(es, l);
    LaneLogReduces(t.log);
  }

  /**
   The heads replayed from that file: exactly those of the lanes of which a head record reached it, and such a head is
   the writer's own exactly when its last record was not left by an append that reported failure. In every prefix of the
   file's records, and so after any crash, a replayed head names a message of that prefix.
   */
  lemma FileReplaysHeads(ops: seq<Op>, l: LaneId, n: nat)
    requires RunClean(NewFile, ops) && l in Run(NewFile, ops).heads && n <= |Records(Run(NewFile, ops).log.text)|
    ensures var o := Run(NewFile, ops);
      var rs := Records(o.log.text);
      && (l in ReplayHeads(rs) <==> l in o.spoken)
      && (l in o.spoken ==> (ReplayHeads(rs)[l] == o.heads[l] <==> l !in o.ahead))
      && (l in ReplayHeads(rs[..n]) ==> Names(rs[..n], ReplayHeads(rs[..n])[l]))
  {
    var es := FileIsRun(ops);
    var o, t := Run(NewFile, ops), R.Run(R.Empty, es);
    assert LaneMatches(o, l, t.lanes[l]);
    assert L.LaneOk(t.log, t.committed, l, t.lanes[l]);
    R.HeadsLiveInEveryPrefix(es, n, l);
    if l in o.spoken {
      R.ReplayedHeadIsHeadInMemory(es, l);
    }
  }
}
