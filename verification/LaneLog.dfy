/**
 What lanes leave in the session log: parents and heads always name an earlier message, so the
 path behind a head never changes again, and the log reduces to a tree.
 */
module LaneLog {
  import opened Wrappers
  import opened SessionTree
  import opened RecordCodec
  import opened LogRecords

  /** The id is None or names a message of the log. */
  predicate Names(rs: seq<SessionRecord>, id: Option<NodeId>) {
    id.Some? ==> HasId(rs, id.value)
  }

  /** The record may follow the log: its id is above all earlier ones, and what it points to is already there. */
  predicate MayFollow(rs: seq<SessionRecord>, r: SessionRecord) {
    match r
    case MessageRecord(e) =>
      Names(rs, e.parentId) && forall i :: 0 <= i < |rs| && rs[i].MessageRecord? ==> rs[i].entry.id < e.id
    case HeadRecord(_, head) => Names(rs, head)
  }

  predicate WellLinked(rs: seq<SessionRecord>)
    decreases |rs|
  {
    rs == [] || (WellLinked(rs[..|rs| - 1]) && MayFollow(rs[..|rs| - 1], rs[|rs| - 1]))
  }

  function Lookup(rs: seq<SessionRecord>, id: NodeId): Option<SessionEntry>
    decreases |rs|
  {
    if rs == [] then None
    else if rs[|rs| - 1].MessageRecord? && rs[|rs| - 1].entry.id == id then Some(rs[|rs| - 1].entry)
    else Lookup(rs[..|rs| - 1], id)
  }

  /** The messages from the root down to a head, by following parents. */
  function Path(rs: seq<SessionRecord>, head: Option<NodeId>): seq<Message>
    decreases if head.Some? then head.value + 1 else 0
  {
    if head.None? || Lookup(rs, head.value).None? then []
    else
      var e := Lookup(rs, head.value).value;
      if e.parentId.Some? && e.parentId.value >= head.value then [e.message]
      else Path(rs, e.parentId) + [e.message]
  }

  // ---------------------------------------------------------------------------------------
  // Growth of a log
  // ---------------------------------------------------------------------------------------

  lemma LinkedSnoc(rs: seq<SessionRecord>, r: SessionRecord)
    ensures WellLinked(rs + [r]) <==> WellLinked(rs) && MayFollow(rs, r)
  {
    assert (rs + [r])[..|rs|] == rs;
  }

  lemma {:induction false} PrefixLinked(rs: seq<SessionRecord>, n: nat)
    requires WellLinked(rs) && n <= |rs|
    ensures WellLinked(rs[..n])
    decreases |rs|
  {
    if n < |rs| {
      PrefixLinked(rs[..|rs| - 1], n);
      assert rs[..|rs| - 1][..n] == rs[..n];
    } else {
      assert rs[..n] == rs;
    }
  }

  lemma NamesGrows(rs: seq<SessionRecord>, r: SessionRecord, id: Option<NodeId>)
    requires Names(rs, id)
    ensures Names(rs + [r], id)
  {
    if id.Some? {
      var i :| 0 <= i < |rs| && rs[i].MessageRecord? && rs[i].entry.id == id.value;
      assert (rs + [r])[i] == rs[i];
    }
  }

  lemma {:induction false} LookupFinds(rs: seq<SessionRecord>, id: NodeId)
    ensures Lookup(rs, id).Some? <==> HasId(rs, id)
    ensures Lookup(rs, id).Some? ==> Lookup(rs, id).value.id == id && Lookup(rs, id).value in Entries(rs)
    decreases |rs|
  {
    if rs != [] {
      var n := |rs| - 1;
      LookupFinds(rs[..n], id);
      if i :| 0 <= i < |rs| && rs[i].MessageRecord? && rs[i].entry.id == id {
        assert i < n ==> rs[..n][i] == rs[i];
      }
      if HasId(rs[..n], id) {
        var i :| 0 <= i < n && rs[..n][i].MessageRecord? && rs[..n][i].entry.id == id;
        assert rs[i] == rs[..n][i];
      }
      if rs[n].MessageRecord? && rs[n].entry.id == id { assert HasId(rs, id); }
    }
  }

  lemma LookupGrows(rs: seq<SessionRecord>, r: SessionRecord, id: NodeId)
    requires MayFollow(rs, r) && HasId(rs, id)
    ensures Lookup(rs + [r], id) == Lookup(rs, id)
  {
    assert (rs + [r])[..|rs|] == rs;
  }

  /** What an entry found in a linked log points to is there too, and has a smaller id. */
  lemma {:induction false} ParentIsEarlier(rs: seq<SessionRecord>, id: NodeId)
    requires WellLinked(rs) && HasId(rs, id)
    ensures Lookup(rs, id).Some?
    ensures Names(rs, Lookup(rs, id).value.parentId)
    ensures Lookup(rs, id).value.parentId.Some? ==> Lookup(rs, id).value.parentId.value < id
    decreases |rs|
  {
    LookupFinds(rs, id);
    var n := |rs| - 1;
    var front, last := rs[..n], rs[n];
    assert rs == front + [last];
    if last.MessageRecord? && last.entry.id == id {
      if last.entry.parentId.Some? {
        var i :| 0 <= i < n && front[i].MessageRecord? && front[i].entry.id == last.entry.parentId.value;
      }
      NamesGrows(front, last, last.entry.parentId);
    } else {
      LookupFinds(front, id);
      ParentIsEarlier(front, id);
      NamesGrows(front, last, Lookup(front, id).value.parentId);
    }
  }

  /** One more record never changes the path behind a head that was already there. */
  lemma {:induction false} PathGrows(rs: seq<SessionRecord>, r: SessionRecord, head: Option<NodeId>)
    requires WellLinked(rs) && MayFollow(rs, r) && Names(rs, head)
    ensures Path(rs + [r], head) == Path(rs, head)
    decreases if head.Some? then head.value + 1 else 0
  {
    if head.Some? {
      LookupGrows(rs, r, head.value);
      ParentIsEarlier(rs, head.value);
      PathGrows(rs, r, Lookup(rs, head.value).value.parentId);
    }
  }

  /** A new message's path is its parent's path and itself. */
  lemma PathOfNew(rs: seq<SessionRecord>, e: SessionEntry)
    requires WellLinked(rs) && MayFollow(rs, MessageRecord(e))
    ensures Path(rs + [MessageRecord(e)], Some(e.id)) == Path(rs, e.parentId) + [e.message]
    ensures Names(rs + [MessageRecord(e)], Some(e.id))
  {
    var r := MessageRecord(e);
    assert (rs + [r])[|rs|] == r;
    if e.parentId.Some? {
      var i :| 0 <= i < |rs| && rs[i].MessageRecord? && rs[i].entry.id == e.parentId.value;
    }
    PathGrows(rs, r, e.parentId);
    assert Lookup(rs + [r], e.id) == Some(e);
    hide WellLinked, MayFollow, Names, Lookup;
    assert Path(rs + [r], Some(e.id)) == Path(rs + [r], e.parentId) + [e.message];
  }

  /** In every prefix of the log, a replayed head names a message of that same prefix. */
  lemma {:induction false} ReplayedHeadsLive(rs: seq<SessionRecord>, n: nat, lane: LaneId)
    requires WellLinked(rs) && n <= |rs|
    ensures lane in ReplayHeads(rs[..n]) ==> Names(rs[..n], ReplayHeads(rs[..n])[lane])
    decreases n
  {
    PrefixLinked(rs, n);
    if n > 0 {
      var front, last := rs[..n - 1], rs[n - 1];
      assert rs[..n] == front + [last];
      LinkedSnoc(front, last);
      ReplayedHeadsLive(rs, n - 1, lane);
      Snoc(front, last);
      if lane in ReplayHeads(rs[..n]) {
        NamesGrows(front, last, ReplayHeads(rs[..n])[lane]);
      }
    }
  }

  // ---------------------------------------------------------------------------------------
  // Reduction
  // ---------------------------------------------------------------------------------------

  lemma EntriesBelow(rs: seq<SessionRecord>, e: SessionEntry)
    requires MayFollow(rs, MessageRecord(e))
    ensures forall x :: x in Entries(rs) ==> x.id < e.id
  {
    EntriesMembers(rs);
    forall x | x in Entries(rs) ensures x.id < e.id {
      assert MessageRecord(x) in rs;
    }
  }

  lemma {:induction false} LinkedEntries(rs: seq<SessionRecord>)
    requires WellLinked(rs)
    ensures forall i, j :: 0 <= i < j < |Entries(rs)| ==> Entries(rs)[i].id < Entries(rs)[j].id
    ensures forall e :: e in Entries(rs) ==> Lookup(rs, e.id) == Some(e)
    decreases |rs|
  {
    if rs != [] {
      var front, last := rs[..|rs| - 1], rs[|rs| - 1];
      LinkedEntries(front);
      if last.MessageRecord? {
        EntriesBelow(front, last.entry);
        assert Entries(rs) == Entries(front) + [last.entry];
        forall e | e in Entries(rs) ensures Lookup(rs, e.id) == Some(e) {
          assert e in Entries(front) || e == last.entry;
        }
      } else {
        assert Entries(rs) == Entries(front);
      }
    }
  }

  lemma {:induction false} ClimbDescends(links: Links, id: NodeId, k: nat)
    requires forall x :: x in links && links[x].Some? ==> links[x].value < x
    ensures Climb(links, Some(id), k).Some? ==> Climb(links, Some(id), k).value + k <= id
    decreases k
  {
    if k > 0 && id in links && links[id].Some? {
      ClimbDescends(links, links[id].value, k - 1);
    }
  }

  /** A log written by lanes reduces to a tree exactly when at most one of its messages has no parent. */
  lemma LaneLogReduces(rs: seq<SessionRecord>)
    requires WellLinked(rs)
    ensures WellFormed(Entries(rs)) <==> AtMostOneRoot(Entries(rs))
    ensures UniqueIds(Entries(rs)) && ParentsExist(Entries(rs)) && Acyclic(EntryLinks(Entries(rs)))
  {
    var es := Entries(rs);
    LinkedEntries(rs);
    EntriesMembers(rs);
    forall e | e in es
      ensures e.parentId.Some? ==> e.parentId.value < e.id && e.parentId.value in Ids(es)
    {
      LookupFinds(rs, e.id);
      ParentIsEarlier(rs, e.id);
      if e.parentId.Some? { LookupFinds(rs, e.parentId.value); }
    }
    var links := EntryLinks(es);
    forall x | x in links && links[x].Some? ensures links[x].value < x {
      var e := EntryWith(es, x);
    }
    forall id, k: nat | id in links && 0 < k ensures Climb(links, Some(id), k) != Some(id) {
      ClimbDescends(links, id, k);
    }
  }

  /** Appending a message keeps the log readable exactly when it has a parent or is the first message. */
  lemma AppendKeepsReadable(rs: seq<SessionRecord>, e: SessionEntry)
    requires WellLinked(rs) && AtMostOneRoot(Entries(rs)) && MayFollow(rs, MessageRecord(e))
    ensures WellFormed(Entries(rs + [MessageRecord(e)])) <==> e.parentId.Some? || Entries(rs) == []
  {
    var es := Entries(rs);
    Snoc(rs, MessageRecord(e));
    LinkedSnoc(rs, MessageRecord(e));
    LaneLogReduces(rs + [MessageRecord(e)]);
    if es != [] {
      FirstEntryIsRoot(rs);
      assert (es + [e])[0].parentId.None? && (es + [e])[|es|] == e;
    }
    if e.parentId.Some? {
      forall i, j | 0 <= i < j < |es + [e]| ensures (es + [e])[i].parentId.Some? || (es + [e])[j].parentId.Some? {
        assert j < |es| ==> es[i].parentId.Some? || es[j].parentId.Some?;
      }
    }
  }

  lemma {:induction false} FirstEntryIsRoot(rs: seq<SessionRecord>)
    requires WellLinked(rs) && Entries(rs) != []
    ensures Entries(rs)[0].parentId.None?
    decreases |rs|
  {
    var front, last := rs[..|rs| - 1], rs[|rs| - 1];
    if Entries(front) != [] {
      FirstEntryIsRoot(front);
    } else {
      EntriesMembers(front);
      forall i | 0 <= i < |front| ensures !front[i].MessageRecord? {
        assert front[i] in front;
      }
    }
  }

  lemma RootPathExtends(nodes: map<NodeId, SessionNode>, up: seq<NodeId>, parent: NodeId, id: NodeId)
    requires IsRootPath(nodes, parent, up) && id in nodes && nodes[id].parentId == Some(parent)
    ensures IsRootPath(nodes, id, up + [id])
    ensures MessagesAlong(nodes, up + [id]) == MessagesAlong(nodes, up) + [nodes[id].message]
  {
    var ids := up + [id];
    forall i | 0 <= i < |ids| ensures StepsDown(nodes, ids, i) {
      if i < |up| { assert StepsDown(nodes, up, i); }
    }
  }

  lemma NodeOfEntry(rs: seq<SessionRecord>, t: SessionTree, sessionId: string, id: NodeId)
    requires WellLinked(rs) && IsTreeOf(t, Entries(rs), sessionId) && HasId(rs, id)
    ensures Lookup(rs, id).Some? && id in t.nodes
    ensures t.nodes[id].parentId == Lookup(rs, id).value.parentId && t.nodes[id].message == Lookup(rs, id).value.message
  {
    LookupFinds(rs, id);
  }

  /** The tree's path from the root to any node carries exactly the messages behind that id in the log. */
  lemma {:induction false} TreePathIsLogPath(rs: seq<SessionRecord>, t: SessionTree, sessionId: string, id: NodeId)
      returns (ids: seq<NodeId>)
    requires WellLinked(rs) && IsTreeOf(t, Entries(rs), sessionId) && HasId(rs, id)
    ensures IsRootPath(t.nodes, id, ids) && MessagesAlong(t.nodes, ids) == Path(rs, Some(id))
    decreases id
  {
    NodeOfEntry(rs, t, sessionId, id);
    ParentIsEarlier(rs, id);
    var parent := Lookup(rs, id).value.parentId;
    if parent.None? {
      ids := [id];
      assert StepsDown(t.nodes, ids, 0);
      assert Path(rs, None) + [t.nodes[id].message] == MessagesAlong(t.nodes, ids);
    } else {
      var up := TreePathIsLogPath(rs, t, sessionId, parent.value);
      RootPathExtends(t.nodes, up, parent.value, id);
      ids := up + [id];
    }
  }

  /** The greatest id of a log written by lanes is a leaf of its tree. */
  lemma GreatestIsLeaf(rs: seq<SessionRecord>, t: SessionTree, sessionId: string, id: NodeId)
    requires WellLinked(rs) && IsTreeOf(t, Entries(rs), sessionId)
    requires id in t.nodes && forall x :: x in t.nodes ==> x <= id
    ensures IsLeaf(t.nodes, id)
  {
    var es := Entries(rs);
    LinkedEntries(rs);
    EntriesMembers(rs);
    var e := EntryWith(es, id);
    if t.nodes[id].children != [] {
      var c := t.nodes[id].children[0];
      assert c in ChildIds(es, id);
      var child :| child in es && child.parentId == Some(id) && child.id == c;
      assert c in t.nodes;
      LookupFinds(rs, c);
      ParentIsEarlier(rs, c);
    }
  }
}
