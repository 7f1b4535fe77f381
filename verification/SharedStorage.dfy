/**
 The in-process write entry shared by all lanes of a session, and the writer of one lane
 (SharedSessionStorage of src/core/session.rs, LaneWriter of src/core/session/lane_writer.rs).
 A method body is what runs while the write lock is held.
 */
module SharedStorage {
  import opened Wrappers
  import opened SessionTree
  import opened RecordCodec
  import opened LogRecords
  import opened LogText
  import opened JsonlStorage

  /** What one combined commit does to the file, to the set of lanes with a committed head, and what it returns. */
  datatype Outcome = Outcome(log: Log, committed: set<LaneId>, result: Result<NodeId, SessionError>)

  function CombinedCommit(log: Log, locked: bool, bound: bool, committed: set<LaneId>, lane: LaneId,
                          parent: Option<NodeId>, message: Message, messageFate: WriteFate,
                          headFate: WriteFate): Outcome
  {
    var (after, appended) := Appended(log, locked, parent, message, messageFate);
    if appended.Err? || !bound then Outcome(after, committed, appended)
    else
      var text := AppendedHead(after.text, lane, Some(appended.value), headFate);
      if headFate.Written? then Outcome(after.(text := text), committed + {lane}, appended)
      else Outcome(after.(text := text), committed, Err(Io))
  }

  class SharedSessionStorage {
    const inner: JsonlSessionStorage
    /** Whether lane heads are persisted, to the same file. */
    const headBound: bool
    var headCommitted: set<LaneId>

    constructor (inner: JsonlSessionStorage, headBound: bool)
      ensures this.inner == inner && this.headBound == headBound && headCommitted == {}
    {
      this.inner := inner;
      this.headBound := headBound;
      this.headCommitted := {};
    }

    method Append(parentId: Option<NodeId>, message: Message, fate: WriteFate) returns (r: Result<NodeId, SessionError>)
      modifies inner`nextId, inner.file
      ensures (inner.State(), r) == Appended(old(inner.State()), inner.locked, parentId, message, fate)
    {
      r := inner.Append(parentId, message, fate);
    }

    /** Message and lane head in one lock hold; an error after the message leaves it in the file without a head. */
    method AppendWithHead(lane: LaneId, parentId: Option<NodeId>, message: Message,
                          messageFate: WriteFate, headFate: WriteFate) returns (r: Result<NodeId, SessionError>)
      modifies this`headCommitted, inner`nextId, inner.file
      ensures Outcome(inner.State(), headCommitted, r)
           == CombinedCommit(old(inner.State()), inner.locked, headBound, old(headCommitted), lane, parentId, message,
               messageFate, headFate)
    {
      r := inner.Append(parentId, message, messageFate);
      if r.Err? {
        return;
      }
      if headBound {
        var written := inner.AppendLaneHead(lane, Some(r.value), headFate);
        if written.Err? {
          return Err(written.error);
        }
        headCommitted := headCommitted + {lane};
      }
    }

    /** Compare-and-append of a lane's first head: skipped once any head of the lane has been committed here. */
    method PersistInitialHead(lane: LaneId, head: Option<NodeId>, fate: WriteFate) returns (r: Result<(), SessionError>)
      modifies this`headCommitted, inner.file
      ensures lane in old(headCommitted) || !headBound ==> inner.file.text == old(inner.file.text) && r == Ok(())
      ensures lane !in old(headCommitted) && headBound ==>
                && inner.file.text == AppendedHead(old(inner.file.text), lane, head, fate)
                && r == if fate.Written? then Ok(()) else Err(Io)
      ensures headCommitted == if r.Ok? then old(headCommitted) + {lane} else old(headCommitted)
    {
      if lane in headCommitted {
        return Ok(());
      }
      if headBound {
        var written := inner.AppendLaneHead(lane, head, fate);
        if written.Err? {
          return written;
        }
      }
      headCommitted := headCommitted + {lane};
      return Ok(());
    }

    /** Unconditional head append; nothing at all when heads are not persisted. */
    method AppendLaneHead(lane: LaneId, head: Option<NodeId>, fate: WriteFate) returns (r: Result<(), SessionError>)
      modifies this`headCommitted, inner.file
      ensures inner.file.text == if headBound then AppendedHead(old(inner.file.text), lane, head, fate)
          else old(inner.file.text)
      ensures r == if headBound && fate.Failed? then Err(Io) else Ok(())
      ensures headCommitted == if headBound && r.Ok? then old(headCommitted) + {lane} else old(headCommitted)
    {
      if headBound {
        r := inner.AppendLaneHead(lane, head, fate);
        if r.Ok? {
          headCommitted := headCommitted + {lane};
        }
      } else {
        r := Ok(());
      }
    }

    /** Tree and lane heads of one view of the log. */
    method Snapshot() returns (r: Result<(SessionTree, map<LaneId, Option<NodeId>>), SessionError>)
      modifies inner`nextId
      ensures var rs := Records(inner.file.text);
        && (r.Ok? <==> WellFormed(Entries(rs)) && NextFree(rs) <= U64_MAX)
        && (r.Ok? ==> IsTreeOf(r.value.0, Entries(rs), inner.sessionId))
        && (r.Ok? ==> r.value.1 == if headBound then ReplayHeads(rs) else map[])
        && inner.nextId == if r.Ok? && old(inner.nextId) < NextFree(rs) then NextFree(rs) else old(inner.nextId)
    {
      var tree := inner.Load();
      if tree.Err? {
        return Err(tree.error);
      }
      var heads: map<LaneId, Option<NodeId>> := map[];
      if headBound {
        heads := inner.LoadLaneHeads();
      }
      return Ok((tree.value, heads));
    }
  }

  /** The write cursor of one lane: `head` is the node its next message hangs under. */
  class LaneWriter {
    const storage: SharedSessionStorage
    const laneId: LaneId
    var head: Option<NodeId>

    constructor (storage: SharedSessionStorage, laneId: LaneId, head: Option<NodeId>)
      ensures this.storage == storage && this.laneId == laneId && this.head == head
    {
      this.storage := storage;
      this.laneId := laneId;
      this.head := head;
    }

    /** Hangs a message under the head and advances it; on any error the head stays where it was. */
    method Append(message: Message, messageFate: WriteFate, headFate: WriteFate)
        returns (r: Result<NodeId, SessionError>)
      modifies this`head, storage`headCommitted, storage.inner`nextId, storage.inner.file
      ensures Outcome(storage.inner.State(), storage.headCommitted, r)
           == CombinedCommit(old(storage.inner.State()), storage.inner.locked, storage.headBound,
               old(storage.headCommitted),
                             laneId, old(head), message, messageFate, headFate)
      ensures head == if r.Ok? then Some(r.value) else old(head)
    {
      r := storage.AppendWithHead(laneId, head, message, messageFate, headFate);
      if r.Ok? {
        head := Some(r.value);
      }
    }

    /** Later messages hang under `parent`; nothing is written. */
    method ForkAt(parent: Option<NodeId>)
      modifies this`head
      ensures head == parent
    {
      head := parent;
    }

    /** Writes the current head, whatever was written before. */
    method PersistHead(fate: WriteFate) returns (r: Result<(), SessionError>)
      modifies storage`headCommitted, storage.inner.file
      ensures storage.headBound
          ==> storage.inner.file.text == AppendedHead(old(storage.inner.file.text), laneId, head, fate)
      ensures !storage.headBound ==> storage.inner.file.text == old(storage.inner.file.text)
      ensures r == if storage.headBound && fate.Failed? then Err(Io) else Ok(())
      ensures storage.headCommitted
           == if storage.headBound && r.Ok? then old(storage.headCommitted) + {laneId} else old(storage.headCommitted)
    {
      r := storage.AppendLaneHead(laneId, head, fate);
    }
  }
}
