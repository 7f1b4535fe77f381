/**
 The session log as a sequence of records: the message entries in it, the lane heads it
 replays to, and the path of messages behind a head (src/core/session/jsonl.rs, session.rs).
 */
module LogRecords {
  import opened Wrappers
  import opened SessionTree
  import opened RecordCodec

  /** The message entries of a log, in order. */
  function Entries(rs: seq<SessionRecord>): seq<SessionEntry> {
    if rs == [] then []
    else if rs[|rs| - 1].MessageRecord? then Entries(rs[..|rs| - 1]) + [rs[|rs| - 1].entry]
    else Entries(rs[..|rs| - 1])
  }

  /** Head records replayed in order: a later one overrides an earlier one of the same lane. */
  function ReplayHeads(rs: seq<SessionRecord>): map<LaneId, Option<NodeId>> {
    if rs == [] then map[]
    else if rs[|rs| - 1].HeadRecord? then ReplayHeads(rs[..|rs| - 1])[rs[|rs| - 1].laneId := rs[|rs| - 1].head]
    else ReplayHeads(rs[..|rs| - 1])
  }

  /** Some message of the log carries this id. */
  predicate HasId(rs: seq<SessionRecord>, id: NodeId) {
    exists i :: 0 <= i < |rs| && rs[i].MessageRecord? && rs[i].entry.id == id
  }

  lemma {:induction false} EntriesMembers(rs: seq<SessionRecord>)
    ensures forall e :: e in Entries(rs) <==> MessageRecord(e) in rs
  {
    if rs != [] {
      EntriesMembers(rs[..|rs| - 1]);
      assert rs == rs[..|rs| - 1] + [rs[|rs| - 1]];
    }
  }

  lemma {:induction false} EntriesJoin(a: seq<SessionRecord>, b: seq<SessionRecord>)
    ensures Entries(a + b) == Entries(a) + Entries(b)
    decreases |b|
  {
    if b == [] {
      assert a + b == a;
    } else {
      assert (a + b)[..|a + b| - 1] == a + b[..|b| - 1];
      EntriesJoin(a, b[..|b| - 1]);
    }
  }

  lemma Snoc(rs: seq<SessionRecord>, r: SessionRecord)
    ensures Entries(rs + [r]) == if r.MessageRecord? then Entries(rs) + [r.entry] else Entries(rs)
    ensures ReplayHeads(rs + [r]) == if r.HeadRecord? then ReplayHeads(rs)[r.laneId := r.head] else ReplayHeads(rs)
  {
    assert (rs + [r])[..|rs|] == rs;
  }

  /** The replayed head of a lane is that of its last head record, and there is one only if the lane has a record. */
  lemma {:induction false} ReplayTakesLast(rs: seq<SessionRecord>, lane: LaneId)
    ensures lane in ReplayHeads(rs) <==> exists i :: 0 <= i < |rs| && rs[i].HeadRecord? && rs[i].laneId == lane
    ensures lane in ReplayHeads(rs) ==> exists i :: IsLastHead(rs, lane, i) && ReplayHeads(rs)[lane] == rs[i].head
  {
    if rs != [] {
      var n := |rs| - 1;
      var front := rs[..n];
      ReplayTakesLast(front, lane);
      if rs[n].HeadRecord? && rs[n].laneId == lane {
        assert IsLastHead(rs, lane, n);
      } else if lane in ReplayHeads(front) {
        var i :| IsLastHead(front, lane, i) && ReplayHeads(front)[lane] == front[i].head;
        assert IsLastHead(rs, lane, i);
      }
      if i :| 0 <= i < |rs| && rs[i].HeadRecord? && rs[i].laneId == lane {
        if i < n { assert front[i] == rs[i]; }
      }
    }
  }

  ghost predicate IsLastHead(rs: seq<SessionRecord>, lane: LaneId, i: int) {
    && 0 <= i < |rs| && rs[i].HeadRecord? && rs[i].laneId == lane
    && forall j :: i < j < |rs| ==> !(rs[j].HeadRecord? && rs[j].laneId == lane)
  }
}
