/** What holds after every run of the lane system, and the runs that show where the code stops short. */
module LaneRuns {
  import opened Wrappers
  import opened SessionTree
  import opened RecordCodec
  import opened LogRecords
  import opened LogText
  import opened LaneLog
  import opened LaneSystem

  const Empty := Sys([], 0, {}, None, map[])

  predicate RunEnabled(s: Sys, es: seq<Event>)
    decreases |es|
  {
    es == [] || (Enabled(s, es[0]) && RunEnabled(Next(s, es[0]), es[1..]))
  }

  function Run(s: Sys, es: seq<Event>): Sys
    requires RunEnabled(s, es)
    decreases |es|
  {
    if es == [] then s else Run(Next(s, es[0]), es[1..])
  }

  lemma {:induction false} RunKeepsInv(s: Sys, es: seq<Event>)
    requires Inv(s) && RunEnabled(s, es)
    ensures Inv(Run(s, es))
    decreases |es|
  {
    if es != [] {
      NextKeepsInv(s, es[0]);
      RunKeepsInv(Next(s, es[0]), es[1..]);
    }
  }

  lemma ReachableInv(es: seq<Event>)
    requires RunEnabled(Empty, es)
    ensures Inv(Run(Empty, es))
  {
    RunKeepsInv(Empty, es);
  }

  lemma {:induction false} RunJoin(s: Sys, a: seq<Event>, b: seq<Event>)
    requires RunEnabled(s, a) && RunEnabled(Run(s, a), b)
    ensures RunEnabled(s, a + b) && Run(s, a + b) == Run(Run(s, a), b)
    decreases |a|
  {
    if a == [] {
      assert a + b == b;
    } else {
      assert (a + b)[1..] == a[1..] + b;
      RunJoin(Next(s, a[0]), a[1..], b);
    }
  }

  lemma RunOne(s: Sys, e: Event)
    requires Enabled(s, e)
    ensures RunEnabled(s, [e]) && Run(s, [e]) == Next(s, e)
  {
    assert [e][1..] == [];
  }

  // ---------------------------------------------------------------------------------------
  // Safety over whole runs
  // ---------------------------------------------------------------------------------------

  /**
   However the lanes interleave and whatever writes fail, walking parents from a lane's head yields
   the path of its start head followed by exactly the messages its appends acknowledged, in order.
   */
  lemma LaneHoldsItsMessages(es: seq<Event>, l: LaneId)
    requires RunEnabled(Empty, es) && l in Run(Empty, es).lanes
    ensures var s := Run(Empty, es);
      && Names(s.log, s.lanes[l].head)
      && Path(s.log, s.lanes[l].head) == s.lanes[l].startPath + s.lanes[l].acked
  {
    ReachableInv(es);
    var s := Run(Empty, es);
    assert LaneOk(s.log, s.committed, l, s.lanes[l]);
  }

  /** A record added to the log leaves the path behind the lane's head alone. */
  lemma HeadPathGrows(s: Sys, r: SessionRecord, l: LaneId)
    requires Inv(s) && l in s.lanes && MayFollow(s.log, r)
    ensures Path(s.log + [r], s.lanes[l].head) == Path(s.log, s.lanes[l].head)
  {
    LaneNames(s, l);
    PathGrows(s.log, r, s.lanes[l].head);
  }

  /** A step that is not a crash adds at most one record. */
  lemma StepAddsOne(s: Sys, e: Event) returns (added: Option<SessionRecord>)
    requires Inv(s) && Enabled(s, e) && !e.Crash?
    ensures added.None? ==> Next(s, e).log == s.log
    ensures added.Some? ==> MayFollow(s.log, added.value) && Next(s, e).log == s.log + [added.value]
  {
    hide WellLinked, Path, ReplayHeads, LaneOk, Names;
    added := None;
    if e.BeginAppend? && s.nextId < U64_MAX && !e.write.FailedLost? {
      LaneNames(s, e.lane);
      EntryMayFollow(s.log, s.nextId, s.lanes[e.lane].head, e.message);
      added := Some(MessageRecord(SessionEntry(s.nextId, s.lanes[e.lane].head, e.message)));
    } else if e.WriteHead? && !e.write.FailedLost? {
      LaneNames(s, e.lane);
      added := Some(HeadRecord(e.lane, Some(s.lanes[e.lane].call.id)));
    } else if e.PersistInitial? && !e.write.FailedLost? && e.lane !in s.committed {
      LaneNames(s, e.lane);
      added := Some(HeadRecord(e.lane, s.lanes[e.lane].start));
    }
  }

  /** The head in memory, the acknowledged messages and the start path of a lane. */
  predicate SameProgress(a: Lane, b: Lane) {
    a.head == b.head && a.acked == b.acked && a.startPath == b.startPath
  }

  lemma BegunFields(s: Sys, k: LaneId, m: Message, w: Write, l: LaneId)
    requires k in s.lanes && l in s.lanes
    ensures l in Begun(s, k, m, w).lanes && SameProgress(Begun(s, k, m, w).lanes[l], s.lanes[l])
  {
  }

  lemma HeadWrittenFields(s: Sys, k: LaneId, w: Write, l: LaneId)
    requires k in s.lanes && s.lanes[k].call.BetweenRecords? && l in s.lanes
    ensures l in HeadWritten(s, k, w).lanes && SameProgress(HeadWritten(s, k, w).lanes[l], s.lanes[l])
  {
  }

  lemma InitialFields(s: Sys, k: LaneId, w: Write, l: LaneId)
    requires k in s.lanes && l in s.lanes
    ensures l in InitialPersisted(s, k, w).lanes && SameProgress(InitialPersisted(s, k, w).lanes[l], s.lanes[l])
  {
  }

  lemma StepLeavesFields(s: Sys, e: Event, l: LaneId)
    requires Enabled(s, e) && l in s.lanes && !e.Crash?
    ensures var t := Next(s, e);
      && l in t.lanes
      && t.lanes[l].startPath == s.lanes[l].startPath
      && if e == FinishAppend(l) then
           t.lanes[l].acked == s.lanes[l].acked + [s.lanes[l].call.message]
               && t.lanes[l].head == Some(s.lanes[l].call.id)
         else
           t.lanes[l].acked == s.lanes[l].acked && t.lanes[l].head == s.lanes[l].head
  {
    hide Path, ReplayHeads, Names, Begun, HeadWritten, InitialPersisted;
    match e
    case BeginAppend(k, m, w) => BegunFields(s, k, m, w, l);
    case WriteHead(k, w) => HeadWrittenFields(s, k, w, l);
    case PersistInitial(k, w) => InitialFields(s, k, w, l);
    case _ =>
  }

  /**
   Where a new lane starts: a spawned one with nothing behind it, a forked one where its source stands, with the
   messages behind the source's start and those it acknowledged, a resumed one at the head it is given. Nothing is
   written.
   */
  lemma NewLanesStart(es: seq<Event>, l: LaneId, from: LaneId, at: Option<NodeId>)
    requires RunEnabled(Empty, es) && l !in Run(Empty, es).lanes
    ensures var s := Run(Empty, es);
      && Enabled(s, Spawn(l)) && StartsAt(Next(s, Spawn(l)), s, l, None, [])
      && (from in s.lanes && s.lanes[from].call.NoCall? ==>
            && Enabled(s, Fork(from, l))
            && StartsAt(Next(s, Fork(from, l)), s, l, s.lanes[from].head,
                s.lanes[from].startPath + s.lanes[from].acked))
      && (Names(s.log, at) ==>
            Enabled(s, Resume(l, at)) && StartsAt(Next(s, Resume(l, at)), s, l, at, Path(s.log, at)))
  {
    if from in Run(Empty, es).lanes { LaneHoldsItsMessages(es, from); }
    hide RunEnabled, Run, Names, ReplayHeads;
  }

  /** The lane is new at this head, with these messages behind it, and nothing else has changed. */
  predicate StartsAt(t: Sys, s: Sys, l: LaneId, at: Option<NodeId>, behind: seq<Message>) {
    && t.log == s.log && t.nextId == s.nextId && t.committed == s.committed && t.writing == s.writing
    && t.lanes.Keys == s.lanes.Keys + {l} && (forall k :: k in s.lanes ==> t.lanes[k] == s.lanes[k])
    && t.lanes[l].start == at && t.lanes[l].head == at && t.lanes[l].call.NoCall? && t.lanes[l].acked == []
    && t.lanes[l].startPath == behind && Path(t.log, at) == behind
  }

  /** A crash leaves the first records, as many as were kept, a cursor above them, and no lane. */
  lemma CrashKeeps(es: seq<Event>, kept: nat)
    requires RunEnabled(Empty, es) && kept <= |Run(Empty, es).log|
    ensures var s := Run(Empty, es);
      var t := Next(s, Crash(kept));
      && t.log == s.log[..kept] && t.lanes == map[] && t.writing.None?
      && (forall i :: 0 <= i < kept && s.log[i].MessageRecord? ==> s.log[i].entry.id < t.nextId) && t.nextId <= s.nextId
  {
    ReachableInv(es);
    var s := Run(Empty, es);
    var log := s.log[..kept];
    NextFreeBounds(log);
    assert forall i :: 0 <= i < kept ==> log[i] == s.log[i] && log[i] in log;
    if NextFree(log) > 0 {
      var r :| r in log && r.MessageRecord? && r.entry.id == NextFree(log) - 1;
      var i :| 0 <= i < kept && log[i] == r;
    }
  }

  /**
   Only the lane's own completed append moves it, by that one message; no other step changes its head or the path
   behind it.
   */
  lemma OnlyOwnAppendMovesLane(es: seq<Event>, e: Event, l: LaneId)
    requires RunEnabled(Empty, es) && Enabled(Run(Empty, es), e) && l in Run(Empty, es).lanes && !e.Crash?
    ensures var s := Run(Empty, es);
      var t := Next(s, e);
      && l in t.lanes
      && t.lanes[l].startPath == s.lanes[l].startPath
      && Path(t.log, s.lanes[l].head) == Path(s.log, s.lanes[l].head)
      && if e == FinishAppend(l) then
           t.lanes[l].acked == s.lanes[l].acked + [s.lanes[l].call.message]
               && t.lanes[l].head == Some(s.lanes[l].call.id)
         else
           t.lanes[l].acked == s.lanes[l].acked && t.lanes[l].head == s.lanes[l].head
  {
    ReachableInv(es);
    var s := Run(Empty, es);
    StepLeavesFields(s, e, l);
    var added := StepAddsOne(s, e);
    if added.Some? { HeadPathGrows(s, added.value, l); }
    hide Inv, Next, Path, Enabled;
  }

  /**
   Between calls, a lane that has written a head replays to the head in memory exactly when its last head
   record was not left behind by an append that reported failure.
   */
  lemma ReplayedHeadIsHeadInMemory(es: seq<Event>, l: LaneId)
    requires RunEnabled(Empty, es) && l in Run(Empty, es).lanes
    requires var lane := Run(Empty, es).lanes[l]; lane.call.NoCall? && (lane.spoken || lane.initial.Settled?)
    ensures var s := Run(Empty, es);
      && l in ReplayHeads(s.log)
      && (ReplayHeads(s.log)[l] == s.lanes[l].head <==> !s.lanes[l].ahead)
  {
    ReachableInv(es);
    var s := Run(Empty, es);
    assert LaneOk(s.log, s.committed, l, s.lanes[l]);
  }

  /**
   Read over a whole run. A lane new to the log, none of whose failed appends left a head record: its initial head
   never follows another head record of it, and once that is persisted or skipped the replayed head is the head in
   memory.
   */
  lemma InitialHeadNeverOverrides(es: seq<Event>, l: LaneId)
    requires RunEnabled(Empty, es) && l in Run(Empty, es).lanes
    requires Run(Empty, es).lanes[l].unheard && !Run(Empty, es).lanes[l].leaked
    ensures var s := Run(Empty, es);
      && !s.lanes[l].late
      && (s.lanes[l].initial.Settled? && s.lanes[l].call.NoCall? ==>
            l in ReplayHeads(s.log) && ReplayHeads(s.log)[l] == s.lanes[l].head)
  {
    ReachableInv(es);
    var s := Run(Empty, es);
    assert LaneOk(s.log, s.committed, l, s.lanes[l]);
  }

  /**
   When an initial head record follows another head record of its lane: for a write that leaves a record behind,
   exactly when a failed append of the lane left a head record before it, or the log held one when the lane was made.
   A lane with a committed head writes no initial record at all.
   */
  lemma InitialFollowsHeadExactly(es: seq<Event>, l: LaneId, write: Write)
    requires RunEnabled(Empty, es) && Enabled(Run(Empty, es), PersistInitial(l, write)) && !write.FailedLost?
    ensures var s := Run(Empty, es);
      var t := Next(s, PersistInitial(l, write));
      if l in s.committed then t.log == s.log && t.lanes[l].late == s.lanes[l].late
      else
        && t.log == s.log + [HeadRecord(l, s.lanes[l].start)]
        && (l in ReplayHeads(s.log) <==> s.lanes[l].leaked || !s.lanes[l].unheard)
        && (t.lanes[l].late <==> s.lanes[l].leaked || !s.lanes[l].unheard)
  {
    ReachableInv(es);
    var s := Run(Empty, es);
    assert LaneOk(s.log, s.committed, l, s.lanes[l]);
  }

  /** In every prefix of every log lanes can write, a replayed head names a message of that prefix. */
  lemma HeadsLiveInEveryPrefix(es: seq<Event>, n: nat, l: LaneId)
    requires RunEnabled(Empty, es) && n <= |Run(Empty, es).log|
    ensures var log := Run(Empty, es).log[..n];
      l in ReplayHeads(log) ==> Names(log, ReplayHeads(log)[l])
  {
    ReachableInv(es);
    ReplayedHeadsLive(Run(Empty, es).log, n, l);
  }

  /**
   A snapshot of any such prefix: the entries reduce exactly when at most one has no parent, and every
   head read with them is a node of the tree.
   */
  lemma SnapshotIsConsistent(es: seq<Event>, n: nat, t: SessionTree, sessionId: string)
    requires RunEnabled(Empty, es) && n <= |Run(Empty, es).log|
    ensures var log := Run(Empty, es).log[..n];
      && (WellFormed(Entries(log)) <==> AtMostOneRoot(Entries(log)))
      && (IsTreeOf(t, Entries(log), sessionId) ==>
            forall l :: l in ReplayHeads(log) && ReplayHeads(log)[l].Some? ==> ReplayHeads(log)[l].value in t.nodes)
  {
    ReachableInv(es);
    var log := Run(Empty, es).log[..n];
    PrefixLinked(Run(Empty, es).log, n);
    LaneLogReduces(log);
    forall l | l in ReplayHeads(log) && ReplayHeads(log)[l].Some?
        ensures ReplayHeads(log)[l].value in Ids(Entries(log)) {
      ReplayedHeadsLive(Run(Empty, es).log, n, l);
      LookupFinds(log, ReplayHeads(log)[l].value);
    }
  }

  // ---------------------------------------------------------------------------------------
  // Where the code stops short
  // ---------------------------------------------------------------------------------------

  lemma RunStep(s: Sys, e: Event, es: seq<Event>)
    requires Enabled(s, e)
    ensures RunEnabled(s, [e] + es) <==> RunEnabled(Next(s, e), es)
    ensures RunEnabled(s, [e] + es) ==> Run(s, [e] + es) == Run(Next(s, e), es)
  {
    assert ([e] + es)[1..] == es;
  }

  lemma TwoRootsRejected(es: seq<SessionEntry>, a: SessionEntry, b: SessionEntry)
    requires es == [] + [a] + [b] && a.parentId.None? && b.parentId.None?
    ensures !WellFormed(es)
  {
    assert es[0] == a && es[1] == b;
  }

  /**
   A lane whose first append loses its head record keeps the empty head in memory, so its next append
   makes a second parentless message: the log can no longer be loaded, though no lane misbehaved.
   */
  lemma RetryAfterLostHeadIsUnreadable(l: LaneId, m1: Message, m2: Message)
    ensures var es := [Spawn(l), BeginAppend(l, m1, Acked), WriteHead(l, FailedLost), BeginAppend(l, m2, Acked)];
      RunEnabled(Empty, es) && !WellFormed(Entries(Run(Empty, es).log))
  {
    var s1 := Next(Empty, Spawn(l));
    var s2 := Next(s1, BeginAppend(l, m1, Acked));
    var s3 := Next(s2, WriteHead(l, FailedLost));
    var s4 := Next(s3, BeginAppend(l, m2, Acked));
    RunStep(s3, BeginAppend(l, m2, Acked), []);
    RunStep(s2, WriteHead(l, FailedLost), [BeginAppend(l, m2, Acked)]);
    RunStep(s1, BeginAppend(l, m1, Acked), [WriteHead(l, FailedLost)] + [BeginAppend(l, m2, Acked)]);
    RunStep(Empty, Spawn(l), [BeginAppend(l, m1, Acked)] + ([WriteHead(l, FailedLost)] + [BeginAppend(l, m2, Acked)]));
    var r1 := MessageRecord(SessionEntry(0, None, m1));
    var r2 := MessageRecord(SessionEntry(1, None, m2));
    assert s4.log == [] + [r1] + [r2];
    Snoc([], r1);
    Snoc([] + [r1], r2);
    TwoRootsRejected(Entries(s4.log), r1.entry, r2.entry);
    assert [BeginAppend(l, m2, Acked)] + [] == [BeginAppend(l, m2, Acked)];
    assert [Spawn(l), BeginAppend(l, m1, Acked), WriteHead(l, FailedLost), BeginAppend(l, m2, Acked)]
        == [Spawn(l)] + ([BeginAppend(l, m1, Acked)] + ([WriteHead(l, FailedLost)] + [BeginAppend(l, m2, Acked)]));
  }

  /**
   A head record that reached the log although its write reported failure: the lane replays to a message it
   never acknowledged, and its initial head, persisted afterwards, follows that record.
   */
  lemma LeakedHeadComesFirst(l: LaneId, m: Message)
    ensures var es := [Spawn(l), BeginAppend(l, m, Acked), WriteHead(l, FailedLanded)];
      && RunEnabled(Empty, es)
      && var s := Run(Empty, es);
         && l in s.lanes && l in ReplayHeads(s.log) && ReplayHeads(s.log)[l] != s.lanes[l].head
         && Enabled(s, PersistInitial(l, Acked)) && Next(s, PersistInitial(l, Acked)).lanes[l].late
  {
    var s1 := Next(Empty, Spawn(l));
    var s2 := Next(s1, BeginAppend(l, m, Acked));
    var s3 := Next(s2, WriteHead(l, FailedLanded));
    RunStep(s2, WriteHead(l, FailedLanded), []);
    RunStep(s1, BeginAppend(l, m, Acked), [WriteHead(l, FailedLanded)]);
    RunStep(Empty, Spawn(l), [BeginAppend(l, m, Acked)] + [WriteHead(l, FailedLanded)]);
    assert [WriteHead(l, FailedLanded)] + [] == [WriteHead(l, FailedLanded)];
    Snoc(s2.log, HeadRecord(l, Some(0)));
    assert [Spawn(l), BeginAppend(l, m, Acked), WriteHead(l, FailedLanded)]
        == [Spawn(l)] + ([BeginAppend(l, m, Acked)] + [WriteHead(l, FailedLanded)]);
  }
}
