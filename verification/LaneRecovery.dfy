/** Resuming a lane from the log (src/server/lane_recovery.rs). */
module LaneRecovery {
  import opened Wrappers
  import opened SessionTree
  import opened RecordCodec
  import opened LogRecords
  import opened LaneLog
  import L = LaneSystem
  import R = LaneRuns

  /** The refusal of a head that is not a leaf. */
  datatype ResumeError = NotALeaf(head: NodeId)

  /** Where a resumed lane continues, and the messages its agent starts from. */
  datatype Resumed = Resumed(head: Option<NodeId>, transcript: seq<Message>)

  /** What the reducer guarantees of a tree, as far as resuming depends on it. */
  ghost predicate Sound(tree: SessionTree) {
    && (forall id :: id in tree.nodes ==> tree.nodes[id].id == id)
    && Acyclic(ParentLinks(tree.nodes))
  }

  /** `messages` are those from the root down to the leaf. */
  ghost predicate IsTranscriptOf(tree: SessionTree, leaf: NodeId, messages: seq<Message>) {
    && IsLeaf(tree.nodes, leaf)
    && (exists ids :: IsRootPath(tree.nodes, leaf, ids))
    && forall ids :: IsRootPath(tree.nodes, leaf, ids) ==> messages == MessagesAlong(tree.nodes, ids)
  }

  ghost predicate GreatestLeaf(tree: SessionTree, leaf: NodeId) {
    IsLeaf(tree.nodes, leaf) && forall id: NodeId :: IsLeaf(tree.nodes, id) ==> id <= leaf
  }

  /** Copies the messages of a path into a fresh transcript. */
  method TranscriptFromPath(path: seq<Message>) returns (transcript: seq<Message>)
    ensures transcript == path
  {
    transcript := [];
    var i := 0;
    while i < |path|
      invariant 0 <= i <= |path| && transcript == path[..i]
    {
      transcript := transcript + [path[i]];
      i := i + 1;
    }
  }

  /**
   Fixes the head to resume at. An explicit head, or else the persisted one, must be a leaf; a persisted empty
   head resumes empty; with neither, the leaf with the greatest id is taken.
   */
  method ResolveResumeHead(tree: SessionTree, head: Option<NodeId>, persisted: Option<Option<NodeId>>)
    returns (r: Result<Resumed, ResumeError>)
    requires Sound(tree)
    ensures head.Some? ==> ResumesAt(tree, head.value, r)
    ensures head.None? && persisted.Some? && persisted.value.Some? ==> ResumesAt(tree, persisted.value.value, r)
    ensures head.None? && persisted == Some(None) ==> r == Ok(Resumed(None, []))
    ensures head.None? && persisted.None? && (forall id :: !IsLeaf(tree.nodes, id)) ==> r == Ok(Resumed(None, []))
    ensures forall leaf :: head.None? && persisted.None? && GreatestLeaf(tree, leaf) ==> ResumesAt(tree, leaf, r)
  {
    var effective := head;
    if head.None? && persisted.Some? {
      if persisted.value.None? {
        return Ok(Resumed(None, []));
      }
      effective := persisted.value;
    }
    if effective.None? {
      var leaves := Leaves(tree);
      if leaves == [] {
        assert forall id :: IsLeaf(tree.nodes, id) ==> id in leaves;
        return Ok(Resumed(None, []));
      }
      effective := Some(leaves[|leaves| - 1]);
      assert effective.value in leaves;
      forall id | IsLeaf(tree.nodes, id) ensures id <= effective.value {
        assert id in leaves;
      }
    }
    var path := PathTo(tree, effective.value);
    if path.None? {
      return Err(NotALeaf(effective.value));
    }
    var transcript := TranscriptFromPath(path.value);
    return Ok(Resumed(effective, transcript));
  }

  /** Resuming at `leaf` succeeds exactly when it is a leaf with a path to a root, and then starts from that path. */
  ghost predicate ResumesAt(tree: SessionTree, leaf: NodeId, r: Result<Resumed, ResumeError>) {
    && (r.Ok? <==> IsLeaf(tree.nodes, leaf) && exists ids :: IsRootPath(tree.nodes, leaf, ids))
    && (r.Ok? ==> r.value.head == Some(leaf) && IsTranscriptOf(tree, leaf, r.value.transcript))
    && (r.Err? ==> r.error == NotALeaf(leaf))
  }

  // ---------------------------------------------------------------------------------------
  // Resuming a log that lanes have written
  // ---------------------------------------------------------------------------------------

  /** The parent links of a tree are those of its entries. */
  lemma TreeLinks(es: seq<SessionEntry>, tree: SessionTree, sessionId: string)
    requires IsTreeOf(tree, es, sessionId)
    ensures forall id :: id in tree.nodes ==> tree.nodes[id].id == id
    ensures ParentLinks(tree.nodes) == EntryLinks(es)
  {
    hide ChildIds, Ascending;
    forall id | id in tree.nodes
        ensures tree.nodes[id].id == id && tree.nodes[id].parentId == EntryWith(es, id).parentId {
      var e := EntryWith(es, id);
    }
  }

  lemma LaneTreeSound(rs: seq<SessionRecord>, tree: SessionTree, sessionId: string)
    requires WellLinked(rs) && IsTreeOf(tree, Entries(rs), sessionId)
    ensures Sound(tree)
  {
    LaneLogReduces(rs);
    TreeLinks(Entries(rs), tree, sessionId);
    hide WellLinked, IsTreeOf, Acyclic, ParentLinks, EntryLinks, Entries;
  }

  /** Whatever leaf of such a tree is resumed, resuming succeeds with the messages behind that id in the log. */
  lemma LeafResumesItsPath(rs: seq<SessionRecord>, tree: SessionTree, sessionId: string, leaf: NodeId,
      r: Result<Resumed, ResumeError>)
    requires WellLinked(rs) && IsTreeOf(tree, Entries(rs), sessionId)
    requires IsLeaf(tree.nodes, leaf) && ResumesAt(tree, leaf, r)
    ensures r == Ok(Resumed(Some(leaf), Path(rs, Some(leaf))))
  {
    EntriesMembers(rs);
    var e := EntryWith(Entries(rs), leaf);
    assert MessageRecord(e) in rs;
    var ids := TreePathIsLogPath(rs, tree, sessionId, leaf);
  }

  /** What resuming at this head gives: the messages, when it is a leaf, else the refusal. */
  ghost function ResumedAt(tree: SessionTree, head: NodeId, messages: seq<Message>): Result<Resumed, ResumeError> {
    if IsLeaf(tree.nodes, head) then Ok(Resumed(Some(head), messages)) else Err(NotALeaf(head))
  }

  /**
   A lane of any run, between calls, that has a head record which no failed append left: from the log alone, its
   replayed head is the one it had in memory, and resuming there gives exactly the messages behind its start and those
   it acknowledged, or the refusal exactly when another message already follows that head.
   */
  lemma LaneResumesWhereItWas(es: seq<L.Event>, l: LaneId, tree: SessionTree, sessionId: string)
    requires R.RunEnabled(R.Empty, es) && l in R.Run(R.Empty, es).lanes
    requires var lane := R.Run(R.Empty, es).lanes[l];
      lane.call.NoCall? && lane.spoken && !lane.ahead && lane.head.Some?
    requires IsTreeOf(tree, Entries(R.Run(R.Empty, es).log), sessionId)
    ensures var log, lane := R.Run(R.Empty, es).log, R.Run(R.Empty, es).lanes[l];
      && l in ReplayHeads(log) && ReplayHeads(log)[l] == lane.head
      && forall r :: ResumesAt(tree, lane.head.value, r) ==>
           r == ResumedAt(tree, lane.head.value, lane.startPath + lane.acked)
  {
    R.ReachableInv(es);
    R.ReplayedHeadIsHeadInMemory(es, l);
    R.LaneHoldsItsMessages(es, l);
    var log, h := R.Run(R.Empty, es).log, R.Run(R.Empty, es).lanes[l].head.value;
    hide WellLinked, IsTreeOf, ReplayHeads, Path, Names;
    forall r | ResumesAt(tree, h, r) && IsLeaf(tree.nodes, h) ensures r == Ok(Resumed(Some(h), Path(log, Some(h)))) {
      LeafResumesItsPath(log, tree, sessionId, h, r);
    }
  }

  /**
   With no head given and none recorded, resuming a log written by lanes never errors: an empty log resumes
   empty, any other at its greatest id, which is a leaf, with exactly the messages behind it.
   */
  lemma DefaultResumeNeverErrs(rs: seq<SessionRecord>, tree: SessionTree, sessionId: string,
      r: Result<Resumed, ResumeError>)
    requires WellLinked(rs) && IsTreeOf(tree, Entries(rs), sessionId)
    requires (forall id :: !IsLeaf(tree.nodes, id)) ==> r == Ok(Resumed(None, []))
    requires forall leaf :: GreatestLeaf(tree, leaf) ==> ResumesAt(tree, leaf, r)
    ensures r.Ok?
    ensures Entries(rs) == [] ==> r.value == Resumed(None, [])
    ensures Entries(rs) != [] ==>
              && r.value.head.Some?
              && r.value.head.value in tree.nodes
              && (forall id :: id in tree.nodes ==> id <= r.value.head.value)
              && r.value.transcript == Path(rs, r.value.head)
  {
    var es := Entries(rs);
    if es == [] {
      assert tree.nodes.Keys == {};
    } else {
      var last := es[|es| - 1];
      LinkedEntries(rs);
      assert last in es;
      forall id | id in tree.nodes ensures id <= last.id {
        var e := EntryWith(es, id);
        var i :| 0 <= i < |es| && es[i] == e;
      }
      GreatestIsLeaf(rs, tree, sessionId, last.id);
      LeafResumesItsPath(rs, tree, sessionId, last.id, r);
    }
  }
}
