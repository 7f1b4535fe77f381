/**
 Any number of lanes writing one session log through the shared write lock, in any interleaving,
 with failing head and message writes and crashes anywhere (src/core/session.rs,
 src/core/session/lane_writer.rs, the bridge of src/server/lane.rs).

 A step writes at most one record. An append holds the write lock from its message record to its
 head record, and the writer's own mutex until its in-memory head has moved.
 */
module LaneSystem {
  import opened Wrappers
  import opened SessionTree
  import opened RecordCodec
  import opened LogRecords
  import opened LogText
  import opened LaneLog

  /** How writing one record ends: acknowledged, or an error that did or did not leave the record in the log. */
  datatype Write = Acked | FailedLanded | FailedLost

  /**
   The first head of a lane: still to be persisted, persisted or skipped, its write failed, or not needed after a
   resume.
   */
  datatype Initial = Pending | Settled | Abandoned | NotNeeded

  datatype Call =
    | NoCall
    | BetweenRecords(id: NodeId, message: Message)
    | Committed(id: NodeId, message: Message)

  /**
   A lane: the head its writer started from and the head in memory. The other fields are
   history: the path behind the start head when the lane was made, the messages acknowledged since,
   whether the log held no head record of this lane when it was made (`unheard`), whether one has
   been added since (`spoken`), whether a failed append left a head record behind (`leaked`) and that
   record is still the lane's last (`ahead`), and whether the initial head record was put behind another
   head record of the lane, acknowledged or not (`late`).
   */
  datatype Lane = Lane(start: Option<NodeId>, head: Option<NodeId>, initial: Initial, call: Call,
                       startPath: seq<Message>, acked: seq<Message>,
                       unheard: bool, spoken: bool, leaked: bool, ahead: bool, late: bool)

  /** `writing` is the lane that holds the shared write lock between its two records. */
  datatype Sys = Sys(log: seq<SessionRecord>, nextId: nat, committed: set<LaneId>,
                     writing: Option<LaneId>, lanes: map<LaneId, Lane>)

  datatype Event =
    | Spawn(lane: LaneId)
    | Fork(from: LaneId, lane: LaneId)
    | Resume(lane: LaneId, at: Option<NodeId>)
    | BeginAppend(lane: LaneId, message: Message, write: Write)
    | WriteHead(lane: LaneId, write: Write)
    | FinishAppend(lane: LaneId)
    | PersistInitial(lane: LaneId, write: Write)
    | Crash(kept: nat)

  predicate Enabled(s: Sys, e: Event) {
    match e
    case Spawn(l) => l !in s.lanes
    case Fork(from, l) => l !in s.lanes && from in s.lanes && s.lanes[from].call.NoCall?
    case Resume(l, at) => l !in s.lanes && Names(s.log, at)
    case BeginAppend(l, _, _) => l in s.lanes && s.lanes[l].call.NoCall? && s.writing.None?
    case WriteHead(l, _) => l in s.lanes && s.lanes[l].call.BetweenRecords? && s.writing == Some(l)
    case FinishAppend(l) => l in s.lanes && s.lanes[l].call.Committed?
    case PersistInitial(l, _) => l in s.lanes && s.lanes[l].initial.Pending? && s.writing.None?
    case Crash(kept) => kept <= |s.log|
  }

  function NewLane(s: Sys, l: LaneId, at: Option<NodeId>, initial: Initial): Lane {
    Lane(at, at, initial, NoCall, Path(s.log, at), [], l !in ReplayHeads(s.log), false, false, false, false)
  }

  function Next(s: Sys, e: Event): Sys
    requires Enabled(s, e)
  {
    match e
    case Spawn(l) => s.(lanes := s.lanes[l := NewLane(s, l, None, Pending)])
    case Fork(from, l) => s.(lanes := s.lanes[l := NewLane(s, l, s.lanes[from].head, Pending)])
    case Resume(l, at) => s.(lanes := s.lanes[l := NewLane(s, l, at, NotNeeded)])
    case BeginAppend(l, m, write) => Begun(s, l, m, write)
    case WriteHead(l, write) => HeadWritten(s, l, write)
    case FinishAppend(l) =>
      var lane := s.lanes[l];
      s.(lanes := s.lanes[l := lane.(head := Some(lane.call.id), acked := lane.acked + [lane.call.message],
          call := NoCall)])
    case PersistInitial(l, write) => InitialPersisted(s, l, write)
    case Crash(kept) => Sys(s.log[..kept], NextFree(s.log[..kept]), {}, None, map[])
  }

  /** Takes the write lock, claims an id and writes the message record; a failure gives the lock back. */
  function Begun(s: Sys, l: LaneId, m: Message, write: Write): Sys
    requires l in s.lanes
  {
    if s.nextId >= U64_MAX then s
    else
      var record := MessageRecord(SessionEntry(s.nextId, s.lanes[l].head, m));
      match write
      case Acked =>
        s.(log := s.log + [record], nextId := s.nextId + 1, writing := Some(l),
           lanes := s.lanes[l := s.lanes[l].(call := BetweenRecords(s.nextId, m))])
      case FailedLanded => s.(log := s.log + [record], nextId := s.nextId + 1)
      case FailedLost => s.(nextId := s.nextId + 1)
  }

  /** Writes the head record of the append in progress and gives the write lock back. */
  function HeadWritten(s: Sys, l: LaneId, write: Write): Sys
    requires l in s.lanes && s.lanes[l].call.BetweenRecords?
  {
    var lane := s.lanes[l];
    var record := HeadRecord(l, Some(lane.call.id));
    match write
    case Acked =>
      s.(log := s.log + [record], committed := s.committed + {l}, writing := None,
         lanes := s.lanes[l := lane.(call := Committed(lane.call.id, lane.call.message), spoken := true,
             ahead := false)])
    case FailedLanded =>
      s.(log := s.log + [record], writing := None,
         lanes := s.lanes[l := lane.(call := NoCall, spoken := true, leaked := true, ahead := true)])
    case FailedLost =>
      s.(writing := None, lanes := s.lanes[l := lane.(call := NoCall)])
  }

  /** Writes the lane's start head unless some head of the lane has been committed already. */
  function InitialPersisted(s: Sys, l: LaneId, write: Write): Sys
    requires l in s.lanes
  {
    var lane := s.lanes[l];
    var record := HeadRecord(l, lane.start);
    if l in s.committed then s.(lanes := s.lanes[l := lane.(initial := Settled)])
    else
      match write
      case Acked =>
        s.(log := s.log + [record], committed := s.committed + {l},
           lanes := s.lanes[l := lane.(initial := Settled, late := l in ReplayHeads(s.log), spoken := true,
               ahead := false)])
      case FailedLanded =>
        s.(log := s.log + [record],
           lanes := s.lanes[l := lane.(initial := Abandoned, late := l in ReplayHeads(s.log), spoken := true,
                                       ahead := false)])
      case FailedLost =>
        s.(lanes := s.lanes[l := lane.(initial := Abandoned)])
  }

  // ---------------------------------------------------------------------------------------
  // The invariant
  // ---------------------------------------------------------------------------------------

  ghost predicate IdsBelow(log: seq<SessionRecord>, n: nat) {
    forall i :: 0 <= i < |log| && log[i].MessageRecord? ==> log[i].entry.id < n
  }

  /** The path behind the in-memory head is the start path followed by the acknowledged messages. */
  ghost predicate OnPath(log: seq<SessionRecord>, lane: Lane) {
    Names(log, lane.start) && Names(log, lane.head) && Path(log, lane.head) == lane.startPath + lane.acked
  }

  /** The record just written for the append in progress continues that path. */
  ghost predicate CallOk(log: seq<SessionRecord>, l: LaneId, lane: Lane) {
    && (!lane.call.NoCall? ==>
          && Names(log, Some(lane.call.id))
          && Path(log, Some(lane.call.id)) == lane.startPath + lane.acked + [lane.call.message]
          && (lane.head.Some? ==> lane.head.value < lane.call.id))
    && (lane.call.Committed? ==> l in ReplayHeads(log) && ReplayHeads(log)[l] == Some(lane.call.id) && !lane.ahead)
  }

  /** How the persisted head of the lane relates to the one in memory. */
  ghost predicate HeadOk(log: seq<SessionRecord>, committed: set<LaneId>, l: LaneId, lane: Lane) {
    && (lane.spoken ==> l in ReplayHeads(log))
    && (lane.spoken && !lane.call.Committed? ==> (ReplayHeads(log)[l] == lane.head <==> !lane.ahead))
    && (lane.unheard && !lane.spoken ==> l !in ReplayHeads(log))
    && (l in committed ==> lane.spoken)
    && (l !in committed ==> lane.head == lane.start && lane.acked == [] && !lane.call.Committed?)
    && (lane.spoken && !lane.leaked && lane.initial.Pending? ==> l in committed)
    && (lane.initial.Settled? || lane.acked != [] ==> l in committed)
    && (lane.ahead ==> lane.leaked)
    && (lane.late ==> lane.leaked || !lane.unheard)
    && (lane.leaked ==> lane.spoken)
    && (!lane.unheard ==> l in ReplayHeads(log))
  }

  ghost predicate LaneOk(log: seq<SessionRecord>, committed: set<LaneId>, l: LaneId, lane: Lane) {
    OnPath(log, lane) && CallOk(log, l, lane) && HeadOk(log, committed, l, lane)
  }

  ghost predicate Inv(s: Sys) {
    && WellLinked(s.log) && IdsBelow(s.log, s.nextId) && s.nextId <= U64_MAX
    && s.committed <= s.lanes.Keys
    && (forall l :: l in s.lanes ==> LaneOk(s.log, s.committed, l, s.lanes[l]))
    && (forall l :: l in s.lanes && s.lanes[l].call.BetweenRecords? ==> s.writing == Some(l))
  }

  // ---------------------------------------------------------------------------------------
  // Every step keeps it
  // ---------------------------------------------------------------------------------------

  /** A record of another lane, or a message record, changes nothing for this lane. */
  lemma LaneOkGrows(log: seq<SessionRecord>, r: SessionRecord, committed: set<LaneId>, committed': set<LaneId>,
      l: LaneId, lane: Lane)
    requires WellLinked(log) && MayFollow(log, r) && LaneOk(log, committed, l, lane)
    requires r.HeadRecord? ==> r.laneId != l
    requires l in committed <==> l in committed'
    ensures LaneOk(log + [r], committed', l, lane)
  {
    PathGrows(log, r, lane.head);
    NamesGrows(log, r, lane.head);
    NamesGrows(log, r, lane.start);
    if !lane.call.NoCall? {
      PathGrows(log, r, Some(lane.call.id));
      NamesGrows(log, r, Some(lane.call.id));
    }
    Snoc(log, r);
  }

  lemma IdsBelowGrows(log: seq<SessionRecord>, r: SessionRecord, n: nat, m: nat)
    requires IdsBelow(log, n) && n <= m && (r.MessageRecord? ==> r.entry.id < m)
    ensures IdsBelow(log + [r], m)
  {
  }

  lemma NewLaneOk(s: Sys, l: LaneId, at: Option<NodeId>, initial: Initial)
    requires Inv(s) && l !in s.lanes && Names(s.log, at)
    requires initial.Pending? || initial.NotNeeded?
    ensures LaneOk(s.log, s.committed, l, NewLane(s, l, at, initial))
  {
  }

  lemma EntryMayFollow(log: seq<SessionRecord>, n: nat, head: Option<NodeId>, m: Message)
    requires WellLinked(log) && IdsBelow(log, n) && Names(log, head)
    ensures var r := MessageRecord(SessionEntry(n, head, m));
      && MayFollow(log, r) && WellLinked(log + [r]) && IdsBelow(log + [r], n + 1) && Names(log + [r], Some(n))
      && Path(log + [r], Some(n)) == Path(log, head) + [m]
    ensures head.Some? ==> head.value < n
  {
    var e := SessionEntry(n, head, m);
    LinkedSnoc(log, MessageRecord(e));
    PathOfNew(log, e);
    if head.Some? {
      var i :| 0 <= i < |log| && log[i].MessageRecord? && log[i].entry.id == head.value;
    }
  }

  lemma CallBegins(log: seq<SessionRecord>, committed: set<LaneId>, l: LaneId, lane: Lane, n: nat, m: Message)
    requires LaneOk(log, committed, l, lane) && lane.call.NoCall?
    requires Names(log, Some(n)) && Path(log, Some(n)) == Path(log, lane.head) + [m]
        && (lane.head.Some? ==> lane.head.value < n)
    ensures LaneOk(log, committed, l, lane.(call := BetweenRecords(n, m)))
  {
  }

  lemma AllGrow(s: Sys, r: SessionRecord)
    requires Inv(s) && r.MessageRecord? && MayFollow(s.log, r)
    ensures forall k :: k in s.lanes ==> LaneOk(s.log + [r], s.committed, k, s.lanes[k])
  {
    forall k | k in s.lanes ensures LaneOk(s.log + [r], s.committed, k, s.lanes[k]) {
      LaneOkGrows(s.log, r, s.committed, s.committed, k, s.lanes[k]);
    }
  }

  lemma BeginAcked(s: Sys, l: LaneId, m: Message)
    requires Inv(s) && Enabled(s, BeginAppend(l, m, Acked)) && s.nextId < U64_MAX
    ensures Inv(Begun(s, l, m, Acked))
  {
    var lane := s.lanes[l];
    var r := MessageRecord(SessionEntry(s.nextId, lane.head, m));
    assert LaneOk(s.log, s.committed, l, lane);
    EntryMayFollow(s.log, s.nextId, lane.head, m);
    PathGrows(s.log, r, lane.head);
    AllGrow(s, r);
    CallBegins(s.log + [r], s.committed, l, lane, s.nextId, m);
    LanesOkAfter(s, Begun(s, l, m, Acked), l);
  }

  lemma BeginLanded(s: Sys, l: LaneId, m: Message)
    requires Inv(s) && Enabled(s, BeginAppend(l, m, FailedLanded)) && s.nextId < U64_MAX
    ensures Inv(Begun(s, l, m, FailedLanded))
  {
    assert LaneOk(s.log, s.committed, l, s.lanes[l]);
    EntryMayFollow(s.log, s.nextId, s.lanes[l].head, m);
    AllGrow(s, MessageRecord(SessionEntry(s.nextId, s.lanes[l].head, m)));
  }

  lemma BeginKeepsInv(s: Sys, l: LaneId, m: Message, write: Write)
    requires Inv(s) && Enabled(s, BeginAppend(l, m, write))
    ensures Inv(Begun(s, l, m, write))
  {
    if s.nextId < U64_MAX {
      match write
      case Acked => BeginAcked(s, l, m);
      case FailedLanded => BeginLanded(s, l, m);
      case FailedLost =>
    }
  }

  /** After its own head record the lane replays to exactly that record's head. */
  lemma OwnHeadGrows(log: seq<SessionRecord>, l: LaneId, lane: Lane, head: Option<NodeId>)
    requires WellLinked(log) && Names(log, head) && OnPath(log, lane)
    requires !lane.call.NoCall? ==> Names(log, Some(lane.call.id))
    ensures var r := HeadRecord(l, head);
      && WellLinked(log + [r]) && OnPath(log + [r], lane)
      && l in ReplayHeads(log + [r]) && ReplayHeads(log + [r])[l] == head
      && (!lane.call.NoCall? ==>
            && Names(log + [r], Some(lane.call.id))
            && Path(log + [r], Some(lane.call.id)) == Path(log, Some(lane.call.id)))
  {
    var r := HeadRecord(l, head);
    LinkedSnoc(log, r);
    PathGrows(log, r, lane.head);
    NamesGrows(log, r, lane.head);
    NamesGrows(log, r, lane.start);
    if !lane.call.NoCall? {
      PathGrows(log, r, Some(lane.call.id));
      NamesGrows(log, r, Some(lane.call.id));
    }
    Snoc(log, r);
  }

  lemma OthersGrow(s: Sys, l: LaneId, r: SessionRecord, committed': set<LaneId>)
    requires Inv(s) && MayFollow(s.log, r) && r.HeadRecord? && r.laneId == l
    requires committed' == s.committed || committed' == s.committed + {l}
    ensures forall k :: k in s.lanes && k != l ==> LaneOk(s.log + [r], committed', k, s.lanes[k])
    ensures IdsBelow(s.log + [r], s.nextId)
  {
    forall k | k in s.lanes && k != l ensures LaneOk(s.log + [r], committed', k, s.lanes[k]) {
      LaneOkGrows(s.log, r, s.committed, committed', k, s.lanes[k]);
    }
    IdsBelowGrows(s.log, r, s.nextId, s.nextId);
  }

  /** The lane that wrote its head record, or failed to, is still sound. */
  lemma HeadLaneOk(s: Sys, l: LaneId, write: Write)
    requires Inv(s) && Enabled(s, WriteHead(l, write))
    ensures var t := HeadWritten(s, l, write);
      l in t.lanes && WellLinked(t.log) && LaneOk(t.log, t.committed, l, t.lanes[l])
  {
    hide WellLinked, Path, ReplayHeads, IdsBelow, MayFollow, Names;
    var lane := s.lanes[l];
    assert LaneOk(s.log, s.committed, l, lane);
    OwnHeadGrows(s.log, l, lane, Some(lane.call.id));
  }

  lemma LaneNames(s: Sys, l: LaneId)
    requires Inv(s) && l in s.lanes
    ensures Names(s.log, s.lanes[l].start) && Names(s.log, s.lanes[l].head)
    ensures !s.lanes[l].call.NoCall? ==> Names(s.log, Some(s.lanes[l].call.id))
  {
    assert LaneOk(s.log, s.committed, l, s.lanes[l]);
  }

  lemma HeadAcked(s: Sys, l: LaneId)
    requires Inv(s) && Enabled(s, WriteHead(l, Acked))
    ensures Inv(HeadWritten(s, l, Acked))
  {
    HeadLaneOk(s, l, Acked);
    LaneNames(s, l);
    hide LaneOk, WellLinked, Path, Names, ReplayHeads, IdsBelow;
    OthersGrow(s, l, HeadRecord(l, Some(s.lanes[l].call.id)), s.committed + {l});
  }

  lemma HeadLanded(s: Sys, l: LaneId)
    requires Inv(s) && Enabled(s, WriteHead(l, FailedLanded))
    ensures Inv(HeadWritten(s, l, FailedLanded))
  {
    HeadLaneOk(s, l, FailedLanded);
    LaneNames(s, l);
    hide LaneOk, WellLinked, Path, Names, ReplayHeads, IdsBelow;
    OthersGrow(s, l, HeadRecord(l, Some(s.lanes[l].call.id)), s.committed);
  }

  lemma HeadKeepsInv(s: Sys, l: LaneId, write: Write)
    requires Inv(s) && Enabled(s, WriteHead(l, write))
    ensures Inv(HeadWritten(s, l, write))
  {
    match write
    case Acked => HeadAcked(s, l);
    case FailedLanded => HeadLanded(s, l);
    case FailedLost =>
      HeadLaneOk(s, l, FailedLost);
      LanesOkAfter(s, HeadWritten(s, l, FailedLost), l);
  }

  /** The lane whose initial head was persisted, skipped or failed is still sound. */
  lemma InitialLaneOk(s: Sys, l: LaneId, write: Write)
    requires Inv(s) && Enabled(s, PersistInitial(l, write))
    ensures var t := InitialPersisted(s, l, write);
      l in t.lanes && WellLinked(t.log) && LaneOk(t.log, t.committed, l, t.lanes[l])
  {
    hide WellLinked, Path, ReplayHeads, IdsBelow, MayFollow, Names;
    var lane := s.lanes[l];
    assert LaneOk(s.log, s.committed, l, lane);
    if l !in s.committed {
      OwnHeadGrows(s.log, l, lane, lane.start);
    }
  }

  lemma InitialAcked(s: Sys, l: LaneId)
    requires Inv(s) && Enabled(s, PersistInitial(l, Acked)) && l !in s.committed
    ensures Inv(InitialPersisted(s, l, Acked))
  {
    InitialLaneOk(s, l, Acked);
    LaneNames(s, l);
    hide LaneOk, WellLinked, Path, Names, ReplayHeads, IdsBelow;
    OthersGrow(s, l, HeadRecord(l, s.lanes[l].start), s.committed + {l});
  }

  lemma InitialLanded(s: Sys, l: LaneId)
    requires Inv(s) && Enabled(s, PersistInitial(l, FailedLanded)) && l !in s.committed
    ensures Inv(InitialPersisted(s, l, FailedLanded))
  {
    InitialLaneOk(s, l, FailedLanded);
    LaneNames(s, l);
    hide LaneOk, WellLinked, Path, Names, ReplayHeads, IdsBelow;
    OthersGrow(s, l, HeadRecord(l, s.lanes[l].start), s.committed);
  }

  lemma InitialKeepsInv(s: Sys, l: LaneId, write: Write)
    requires Inv(s) && Enabled(s, PersistInitial(l, write))
    ensures Inv(InitialPersisted(s, l, write))
  {
    if l !in s.committed && write.Acked? {
      InitialAcked(s, l);
    } else if l !in s.committed && write.FailedLanded? {
      InitialLanded(s, l);
    } else {
      InitialLaneOk(s, l, write);
      hide LaneOk, WellLinked, IdsBelow;
      LanesOkAfter(s, InitialPersisted(s, l, write), l);
    }
  }

  /** A step of one lane keeps every lane sound when it keeps that one and grows the log past the others. */
  lemma LanesOkAfter(s: Sys, t: Sys, l: LaneId)
    requires l in s.lanes && t.lanes.Keys == s.lanes.Keys && LaneOk(t.log, t.committed, l, t.lanes[l])
    requires forall k :: k in s.lanes && k != l ==>
               t.lanes[k] == s.lanes[k] && LaneOk(t.log, t.committed, k, s.lanes[k])
    ensures forall k :: k in t.lanes ==> LaneOk(t.log, t.committed, k, t.lanes[k])
  {
  }

  lemma CrashKeepsInv(s: Sys, kept: nat)
    requires Inv(s) && kept <= |s.log|
    ensures Inv(Next(s, Crash(kept)))
  {
    var log := s.log[..kept];
    PrefixLinked(s.log, kept);
    NextFreeBounds(log);
    forall i | 0 <= i < |log| && log[i].MessageRecord? ensures log[i].entry.id < NextFree(log) {
      assert log[i] in log;
    }
    if NextFree(log) > 0 {
      var r :| r in log && r.MessageRecord? && r.entry.id == NextFree(log) - 1;
      var i :| 0 <= i < |log| && log[i] == r;
      assert s.log[i] == r;
    }
  }

  lemma NextKeepsInv(s: Sys, e: Event)
    requires Inv(s) && Enabled(s, e)
    ensures Inv(Next(s, e))
  {
    hide WellLinked, Path, Names, ReplayHeads, MayFollow, IdsBelow;
    match e
    case Spawn(l) => NewLaneOk(s, l, None, Pending);
    case Fork(from, l) => NewLaneOk(s, l, s.lanes[from].head, Pending);
    case Resume(l, at) => NewLaneOk(s, l, at, NotNeeded);
    case BeginAppend(l, m, write) => BeginKeepsInv(s, l, m, write);
    case WriteHead(l, write) => HeadKeepsInv(s, l, write);
    case FinishAppend(l) =>
    case PersistInitial(l, write) => InitialKeepsInv(s, l, write);
    case Crash(kept) => CrashKeepsInv(s, kept);
  }
}
