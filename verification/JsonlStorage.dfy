/** The storage object over one session file (src/core/session/jsonl.rs). */
module JsonlStorage {
  import opened Wrappers
  import opened JsonLines
  import opened SessionTree
  import opened RecordCodec
  import opened LogRecords
  import opened LogText

  /** The file on disk; several storages, one per process, may share it. */
  class LogFile {
    var text: string

    constructor (text: string)
      ensures this.text == text
    {
      this.text := text;
    }
  }

  /** The greatest message id among the records. */
  method MaxMessageId(records: seq<SessionRecord>) returns (max: Option<NodeId>)
    ensures NextFree(records) == if max.Some? then max.value + 1 else 0
  {
    max := None;
    var i := 0;
    while i < |records|
      invariant 0 <= i <= |records|
      invariant NextFree(records[..i]) == if max.Some? then max.value + 1 else 0
    {
      assert records[..i + 1][..i] == records[..i];
      if records[i].MessageRecord? && (max.None? || max.value < records[i].entry.id) {
        max := Some(records[i].entry.id);
      }
      i := i + 1;
    }
    assert records[..i] == records;
  }

  class JsonlSessionStorage {
    const file: LogFile
    const sessionId: string
    /** Whether appends take the cross-process file lock. */
    const locked: bool
    var nextId: nat

    constructor (file: LogFile, sessionId: string, locked: bool, nextId: nat)
      ensures this.file == file && this.sessionId == sessionId && this.locked == locked && this.nextId == nextId
    {
      this.file := file;
      this.sessionId := sessionId;
      this.locked := locked;
      this.nextId := nextId;
    }

    ghost function State(): Log
      reads this, file
    {
      Log(file.text, nextId)
    }

    /** Opens a file: the cursor resumes above every id in it, and a file that ends at the last id is refused. */
    static method Open(file: LogFile, sessionId: string, locked: bool)
        returns (r: Result<JsonlSessionStorage, SessionError>)
      ensures r.Ok? <==> NextFree(Records(file.text)) <= U64_MAX
      ensures r.Err? ==> r.error == IdExhausted
      ensures r.Ok? ==> fresh(r.value)
      ensures r.Ok? ==> r.value.file == file && r.value.sessionId == sessionId && r.value.locked == locked
      ensures r.Ok? ==> r.value.nextId == NextFree(Records(file.text))
    {
      var records, _ := ReadRecordsWithExtent(Decode, file.text);
      var maxId := MaxMessageId(records);
      if maxId.Some? && maxId.value + 1 > U64_MAX {
        return Err(IdExhausted);
      }
      var storage := new JsonlSessionStorage(file, sessionId, locked, if maxId.Some? then maxId.value + 1 else 0);
      return Ok(storage);
    }

    /** Claims the cursor's id, undisturbed; the last u64 is never claimed. `IdCursor` has the claims that compete. */
    method ClaimNextId() returns (r: Result<NodeId, SessionError>)
      modifies this`nextId
      ensures old(nextId) >= U64_MAX ==> r == Err(IdExhausted) && nextId == old(nextId)
      ensures old(nextId) < U64_MAX ==> r == Ok(old(nextId)) && nextId == old(nextId) + 1
    {
      var cursor := nextId;
      if cursor >= U64_MAX {
        return Err(IdExhausted);
      }
      nextId := cursor + 1;
      return Ok(cursor);
    }

    /** Under the file lock: truncate a torn tail, then raise the cursor above every id in the file. */
    method RefreshCursorLocked() returns (r: Result<(), SessionError>)
      modifies this`nextId, file
      ensures match Refreshed(old(State()))
              case Ok(log) => r == Ok(()) && State() == log
              case Err(log) => r == Err(IdExhausted) && State() == log
    {
      var records, validLen := ReadRecordsWithExtent(Decode, file.text);
      if |file.text| > validLen {
        file.text := file.text[..validLen];
      } else {
        assert file.text[..validLen] == file.text;
      }
      var maxId := MaxMessageId(records);
      if maxId.Some? && maxId.value + 1 > U64_MAX {
        return Err(IdExhausted);
      }
      var floor := if maxId.Some? then maxId.value + 1 else 0;
      nextId := if nextId < floor then floor else nextId;
      return Ok(());
    }

    /** Writes one line; an error leaves a part of it behind. */
    method WriteLine(line: string, fate: WriteFate) returns (r: Result<(), SessionError>)
      modifies file
      ensures file.text == old(file.text) + Reached(line, fate)
      ensures r == if fate.Written? then Ok(()) else Err(Io)
    {
      file.text := file.text + Reached(line, fate);
      return if fate.Written? then Ok(()) else Err(Io);
    }

    /** Appends a message as a new node and returns its id. */
    method Append(parentId: Option<NodeId>, message: Message, fate: WriteFate) returns (r: Result<NodeId, SessionError>)
      modifies this`nextId, file
      ensures (State(), r) == Appended(old(State()), locked, parentId, message, fate)
    {
      if locked {
        var refreshed := RefreshCursorLocked();
        if refreshed.Err? {
          return Err(refreshed.error);
        }
      }
      var claimed := ClaimNextId();
      if claimed.Err? {
        return claimed;
      }
      var id := claimed.value;
      var written := WriteLine(Encode(MessageRecord(SessionEntry(id, parentId, message))) + "\n", fate);
      if written.Err? {
        return Err(written.error);
      }
      return Ok(id);
    }

    /** Appends a lane head; the tail of the file is not repaired first, even in locked mode. */
    method AppendLaneHead(laneId: LaneId, head: Option<NodeId>, fate: WriteFate) returns (r: Result<(), SessionError>)
      modifies file
      ensures file.text == AppendedHead(old(file.text), laneId, head, fate)
      ensures r == if fate.Written? then Ok(()) else Err(Io)
    {
      r := WriteLine(Encode(HeadRecord(laneId, head)) + "\n", fate);
    }

    /** Rebuilds the tree from the message records, and raises the cursor above every id in it. */
    method Load() returns (r: Result<SessionTree, SessionError>)
      modifies this`nextId
      ensures r.Ok? <==> WellFormed(Entries(Records(file.text))) && NextFree(Records(file.text)) <= U64_MAX
      ensures r.Ok? ==> IsTreeOf(r.value, Entries(Records(file.text)), sessionId)
      ensures r.Ok? ==> nextId == if old(nextId) < NextFree(Records(file.text)) then NextFree(Records(file.text))
          else old(nextId)
      ensures r.Err? ==> nextId == old(nextId)
    {
      var records, _ := ReadRecordsWithExtent(Decode, file.text);
      var entries: seq<SessionEntry> := [];
      var i := 0;
      while i < |records|
        invariant 0 <= i <= |records|
        invariant entries == Entries(records[..i])
      {
        assert records[..i + 1][..i] == records[..i];
        if records[i].MessageRecord? {
          entries := entries + [records[i].entry];
        }
        i := i + 1;
      }
      assert records[..i] == records;
      var tree := ReduceFor(entries, sessionId);
      if tree.Err? {
        return Err(tree.error);
      }
      var keys := KeysOf(tree.value.nodes);
      LastKeyIsMaxId(records, tree.value.nodes.Keys, keys);
      if keys != [] {
        var next := keys[|keys| - 1] + 1;
        if next > U64_MAX {
          return Err(IdExhausted);
        }
        nextId := if nextId < next then next else nextId;
      }
      return tree;
    }

    /** The last head of every lane that has a head record. */
    method LoadLaneHeads() returns (heads: map<LaneId, Option<NodeId>>)
      ensures heads == ReplayHeads(Records(file.text))
    {
      var records, _ := ReadRecordsWithExtent(Decode, file.text);
      heads := map[];
      var i := 0;
      while i < |records|
        invariant 0 <= i <= |records|
        invariant heads == ReplayHeads(records[..i])
      {
        assert records[..i + 1][..i] == records[..i];
        if records[i].HeadRecord? {
          heads := heads[records[i].laneId := records[i].head];
        }
        i := i + 1;
      }
      assert records[..i] == records;
    }
  }

  lemma LastKeyIsMaxId(records: seq<SessionRecord>, ids: set<NodeId>, keys: seq<NodeId>)
    requires ids == Ids(Entries(records))
    requires StrictlyAscending(keys) && forall x :: x in keys <==> x in ids
    ensures NextFree(records) == if keys == [] then 0 else keys[|keys| - 1] + 1
  {
    NextFreeBounds(records);
    EntriesMembers(records);
    if keys != [] {
      var last := keys[|keys| - 1];
      assert last in keys;
      var e :| e in Entries(records) && e.id == last;
      assert MessageRecord(e) in records;
    }
    if NextFree(records) > 0 {
      var r :| r in records && r.MessageRecord? && r.entry.id == NextFree(records) - 1;
      assert r.entry in Entries(records);
      assert NextFree(records) - 1 in keys;
    }
  }
}
