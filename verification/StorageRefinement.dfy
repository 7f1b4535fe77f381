/**
 The storage objects refine the lane steps: what a call does to the text of the file is, read
 back as records, what the steps of the lane system do to the log.
 */
module StorageRefinement {
  import opened Wrappers
  import opened SessionTree
  import opened RecordCodec
  import opened LogRecords
  import opened LogText
  import opened LaneLog
  import L = LaneSystem
  import opened SharedFile
  import opened SharedStorage

  /** How a write of this record looks from the log: a failed one landed once its JSON was complete. */
  function AsWrite(r: SessionRecord, fate: WriteFate): L.Write {
    match fate
    case Written => L.Acked
    case Failed(n) => if n < |Encode(r)| then L.FailedLost else L.FailedLanded
  }

  ghost predicate Represents(log: Log, s: L.Sys) {
    log.text == Lines(s.log) && log.cursor == s.nextId && AllStorable(s.log)
  }

  lemma LinkedIsStorable(s: L.Sys)
    requires L.Inv(s)
    ensures NextFree(s.log) <= s.nextId
  {
    NextFreeBounds(s.log);
    if NextFree(s.log) > 0 {
      var r :| r in s.log && r.MessageRecord? && r.entry.id == NextFree(s.log) - 1;
      var i :| 0 <= i < |s.log| && s.log[i] == r;
    }
  }

  lemma HeadsFit(s: L.Sys, l: LaneId)
    requires L.Inv(s) && l in s.lanes
    ensures Fits(s.lanes[l].head) && Fits(s.lanes[l].start)
  {
    L.LaneNames(s, l);
  }

  /** On a sound file refreshing under the lock changes nothing, so both modes append alike. */
  lemma RefreshIsIdle(log: Log, s: L.Sys)
    requires L.Inv(s) && Represents(log, s)
    ensures Refreshed(log) == Ok(log)
  {
    LinkedIsStorable(s);
    LinesReadBack(s.log);
    assert log.text[..|log.text|] == log.text;
  }

  /** Writing one line behind whole lines shows in the records exactly as a write of that fate. */
  lemma WriteShows(rs: seq<SessionRecord>, r: SessionRecord, fate: WriteFate)
    requires AllStorable(rs) && Storable(r)
    ensures Records(Lines(rs) + Reached(Encode(r) + "\n", fate)) == if AsWrite(r, fate).FailedLost? then rs
        else rs + [r]
    ensures fate.Written? ==> Lines(rs) + Reached(Encode(r) + "\n", fate) == Lines(rs + [r])
  {
    var line := Encode(r) + "\n";
    LinesSnoc(rs, r);
    var cut := if fate.Written? || fate.reached >= |line| then |line| else fate.reached;
    assert Reached(line, fate) == line[..cut];
    CutFileRecovers(rs, r, cut);
  }

  /**
   One LaneWriter.Append on a whole file, whatever its two writes do: the records afterwards are the log
   after the message step and, when that step was acknowledged, the head step; success, the committed
   set and the id agree with the steps as well.
   */
  lemma AppendRefinesSteps(log: Log, locked: bool, s: L.Sys, l: LaneId, m: Message, messageFate: WriteFate,
      headFate: WriteFate)
    requires L.Inv(s) && Represents(log, s) && L.Enabled(s, L.BeginAppend(l, m, L.Acked))
    ensures var record := MessageRecord(SessionEntry(s.nextId, s.lanes[l].head, m));
      var after := CombinedCommit(log, locked, true, s.committed, l, s.lanes[l].head, m, messageFate, headFate);
      var begun := L.Begun(s, l, m, AsWrite(record, messageFate));
      if s.nextId == U64_MAX || !messageFate.Written? then
        && Records(after.log.text) == begun.log && after.committed == begun.committed
        && after.log.cursor == begun.nextId
        && after.result == Err(if s.nextId == U64_MAX then IdExhausted else Io)
      else
        && L.Enabled(begun, L.WriteHead(l, AsWrite(HeadRecord(l, Some(s.nextId)), headFate)))
        && var done := L.HeadWritten(begun, l, AsWrite(HeadRecord(l, Some(s.nextId)), headFate));
           && Records(after.log.text) == done.log && after.committed == done.committed
           && after.log.cursor == done.nextId
           && after.result == if headFate.Written? then Ok(done.lanes[l].call.id) else Err(Io)
  {
    hide Encode, Records, Extent, L.Inv;
    HeadsFit(s, l);
    hide Names, L.LaneOk, WellLinked, ReplayHeads, Path, L.IdsBelow;
    var parent := s.lanes[l].head;
    var record := MessageRecord(SessionEntry(s.nextId, parent, m));
    var head := HeadRecord(l, Some(s.nextId));
    RefreshIsIdle(log, s);
    if s.nextId >= U64_MAX {
      ExhaustedIsFull(s);
      LinesReadBack(s.log);
    } else {
      WriteShows(s.log, record, messageFate);
      if messageFate.Written? {
        WriteShows(s.log + [record], head, headFate);
      }
    }
  }

  /** One PersistInitialHead on a whole file is the step that persists, skips or fails to write the start head. */
  lemma InitialRefinesStep(log: Log, s: L.Sys, l: LaneId, fate: WriteFate)
    requires L.Inv(s) && Represents(log, s)
    requires L.Enabled(s, L.PersistInitial(l, L.Acked))
    ensures var record := HeadRecord(l, s.lanes[l].start);
      var text := if l in s.committed then log.text else AppendedHead(log.text, l, s.lanes[l].start, fate);
      var done := L.InitialPersisted(s, l, AsWrite(record, fate));
      && Records(text) == done.log
      && (done.lanes[l].initial.Settled? <==> l in s.committed || fate.Written?)
      && done.committed == if l in s.committed || fate.Written? then s.committed + {l} else s.committed
  {
    hide Encode, Records, Extent, L.Inv;
    HeadsFit(s, l);
    hide Names, L.LaneOk, WellLinked, ReplayHeads, Path, L.IdsBelow;
    if l in s.committed {
      LinesReadBack(s.log);
      assert s.committed + {l} == s.committed;
    } else {
      WriteShows(s.log, HeadRecord(l, s.lanes[l].start), fate);
    }
  }

  // ---------------------------------------------------------------------------------------
  // Whole runs in locked mode
  // ---------------------------------------------------------------------------------------

  /** The file holds the log as lines, whose last may lack its newline or have something torn behind it. */
  ghost predicate Simulates(log: Log, s: L.Sys) {
    HoldsLines(log.text, s.log) && log.cursor == s.nextId
  }

  /** What the refresh under the lock finds and leaves. */
  lemma RefreshRepairs(log: Log, s: L.Sys)
    requires L.Inv(s) && Simulates(log, s)
    ensures AllStorable(s.log)
        && Refreshed(log) == Ok(Log(if Unended(log.text) then log.text else Lines(s.log), s.nextId))
  {
    HeldLines(log.text, s.log);
    LinkedIsStorable(s);
  }

  /** A line written without repairing the file shows in its records as a write of its fate. */
  predicate Shows(text: string, r: SessionRecord, fate: WriteFate) {
    fate == Failed(0) || (!Unended(text) && (Extent(text) == |text| || AsWrite(r, fate).FailedLost?))
  }

  lemma ShowsExactly(text: string, rs: seq<SessionRecord>, r: SessionRecord, fate: WriteFate)
    requires HoldsLines(text, rs) && Storable(r)
    ensures HoldsLines(text + Reached(Encode(r) + "\n", fate), if AsWrite(r, fate).FailedLost? then rs else rs + [r])
            <==> Shows(text, r, fate)
  {
    EncodePrints(r);
    hide HoldsLines, Records, Extent, Reached, Unended, LacksNewline, Encode, Storable;
    HeldLines(text, rs);
    HeldKinds(text, rs);
    WriteBehind(text, r, fate);
    var text', after := text + Reached(Encode(r) + "\n", fate), if AsWrite(r, fate).FailedLost? then rs else rs + [r];
    if HoldsLines(text', after) { HeldLines(text', after); }
  }

  /**
   The state in which one append of a lane ends, seen as steps: the message step and, when that was acknowledged, the
   head step.
   */
  function AfterAppend(s: L.Sys, l: LaneId, m: Message, messageFate: WriteFate, headFate: WriteFate): (t: L.Sys)
    requires l in s.lanes
    ensures l in t.lanes
  {
    var message := AsWrite(MessageRecord(SessionEntry(s.nextId, s.lanes[l].head, m)), messageFate);
    var begun := L.Begun(s, l, m, message);
    if message.Acked? && s.nextId < U64_MAX
        then L.HeadWritten(begun, l, AsWrite(HeadRecord(l, Some(s.nextId)), headFate)) else begun
  }

  /** The message is written right behind a record that has no newline yet. */
  predicate MessageOverruns(log: Log, messageFate: WriteFate) {
    Unended(log.text) && messageFate != Failed(0) && log.cursor < U64_MAX
  }

  /** The outcome of an append is that of its steps: success, id, committed lanes and log agree. */
  ghost predicate Agrees(after: Outcome, s: L.Sys, done: L.Sys, l: LaneId)
    requires l in done.lanes
  {
    && Simulates(after.log, done) && after.committed == done.committed
    && (after.result.Ok? <==> done.lanes[l].call.Committed?)
    && (after.result.Ok? ==> done.lanes[l].call.id == after.result.value)
    && (after.result == Err(IdExhausted) <==> s.nextId == U64_MAX)
  }

  /** The head of an append whose message was written behind whole lines. */
  lemma HeadAgrees(s: L.Sys, l: LaneId, m: Message, headFate: WriteFate, after: Outcome)
    requires l in s.lanes && s.nextId < U64_MAX && AllStorable(s.log) && Fits(s.lanes[l].head)
    requires var record, head := MessageRecord(SessionEntry(s.nextId, s.lanes[l].head, m)),
        HeadRecord(l, Some(s.nextId));
      after == Outcome(Log(Lines(s.log + [record]) + Reached(Encode(head) + "\n", headFate), s.nextId + 1),
                       if headFate.Written? then s.committed + {l} else s.committed,
                       if headFate.Written? then Ok(s.nextId) else Err(Io))
    ensures Agrees(after, s, AfterAppend(s, l, m, Written, headFate), l)
  {
    hide Encode, Reached, HoldsLines, Lines;
    var record := MessageRecord(SessionEntry(s.nextId, s.lanes[l].head, m));
    WriteBehindLines(s.log + [record], HeadRecord(l, Some(s.nextId)), headFate);
  }

  /** The text after the message of a locked append. */
  lemma MessageAgrees(log: Log, s: L.Sys, l: LaneId, m: Message, messageFate: WriteFate)
    requires L.Inv(s) && Simulates(log, s) && L.Enabled(s, L.BeginAppend(l, m, L.Acked)) && s.nextId < U64_MAX
    requires Fits(s.lanes[l].head)
    ensures var record := MessageRecord(SessionEntry(s.nextId, s.lanes[l].head, m));
      var (after, result) := Appended(log, true, s.lanes[l].head, m, messageFate);
      && AllStorable(s.log) && after.cursor == s.nextId + 1
      && result == (if messageFate.Written? then Ok(s.nextId) else Err(Io))
      && if MessageOverruns(log, messageFate) then
           s.log != [] && AllStorable(s.log[..|s.log| - 1]) && TornBehind(after.text, s.log[..|s.log| - 1])
         else
           && HoldsLines(after.text, if AsWrite(record, messageFate).FailedLost? then s.log else s.log + [record])
           && (messageFate.Written? ==> after.text == Lines(s.log + [record]))
  {
    hide Encode, Records, Extent, L.Inv, HoldsLines, Lines, Unended, TornBehind, LacksNewline, Reached;
    RefreshRepairs(log, s);
    var record := MessageRecord(SessionEntry(s.nextId, s.lanes[l].head, m));
    HeldLines(log.text, s.log);
    HeldKinds(log.text, s.log);
    if messageFate == Failed(0) {
      NothingReached(Lines(s.log), Encode(record) + "\n");
      NothingReached(log.text, Encode(record) + "\n");
      WholeLinesHeld(s.log);
      EncodePrints(record);
    } else if Unended(log.text) {
      WriteBehindRecord(log.text, s.log, record, messageFate);
    } else {
      WriteBehindLines(s.log, record, messageFate);
      LinesSnoc(s.log, record);
      AllReached(Encode(record) + "\n");
    }
  }

  lemma AllReached(line: string)
    ensures Reached(line, Written) == line
  {
  }

  /**
   In locked mode an append needs no whole file: behind whatever cut writes have left, its effect on the text is that
   of the steps on the log, exactly when its message is not written right behind a record without its newline.
   */
  lemma LockedAppendSimulates(log: Log, s: L.Sys, l: LaneId, m: Message, messageFate: WriteFate, headFate: WriteFate)
    requires L.Inv(s) && Simulates(log, s) && L.Enabled(s, L.BeginAppend(l, m, L.Acked))
    ensures Agrees(CombinedCommit(log, true, true, s.committed, l, s.lanes[l].head, m, messageFate, headFate),
                   s, AfterAppend(s, l, m, messageFate, headFate), l)
            <==> !MessageOverruns(log, messageFate)
  {
    hide Encode, Records, Extent, L.Inv, HoldsLines, Lines, TornBehind, Unended;
    HeadsFit(s, l);
    hide Names, L.LaneOk, WellLinked, ReplayHeads, Path, L.IdsBelow, Refreshed;
    if s.nextId >= U64_MAX {
      RefreshRepairs(log, s);
      ExhaustedIsFull(s);
      WholeLinesHeld(s.log);
    } else {
      MessageAgrees(log, s, l, m, messageFate);
      if MessageOverruns(log, messageFate) {
        OverrunDisagrees(log, s, l, m, messageFate, headFate);
      } else if messageFate.Written? {
        HeadAgrees(s, l, m, headFate,
            CombinedCommit(log, true, true, s.committed, l, s.lanes[l].head, m, messageFate, headFate));
      }
    }
  }

  lemma OverrunDisagrees(log: Log, s: L.Sys, l: LaneId, m: Message, messageFate: WriteFate, headFate: WriteFate)
    requires L.Inv(s) && Simulates(log, s) && L.Enabled(s, L.BeginAppend(l, m, L.Acked)) && Fits(s.lanes[l].head)
    requires s.nextId < U64_MAX && MessageOverruns(log, messageFate)
    ensures !Simulates(CombinedCommit(log, true, true, s.committed, l, s.lanes[l].head, m, messageFate, headFate).log,
                       AfterAppend(s, l, m, messageFate, headFate))
  {
    hide Encode, Records, Extent, L.Inv, HoldsLines, Lines, TornBehind, Appended, Reached, CombinedCommit;
    MessageAgrees(log, s, l, m, messageFate);
    assert |AfterAppend(s, l, m, messageFate, headFate).log| >= |s.log|;
    hide AfterAppend;
    TornDisagrees(log, true, s, l, m, messageFate, headFate, s.log[..|s.log| - 1]);
  }

  /** Records that the steps have and the file has not, once something torn stands in front of them. */
  lemma TornDisagrees(log: Log, locked: bool, s: L.Sys, l: LaneId, m: Message,
                      messageFate: WriteFate, headFate: WriteFate, rs: seq<SessionRecord>)
    requires l in s.lanes && s.nextId < U64_MAX && AllStorable(rs)
    requires |rs| < |AfterAppend(s, l, m, messageFate, headFate).log|
    requires var (after, result) := Appended(log, locked, s.lanes[l].head, m, messageFate);
      TornBehind(after.text, rs) && result == if messageFate.Written? then Ok(s.nextId) else Err(Io)
    ensures !Simulates(CombinedCommit(log, locked, true, s.committed, l, s.lanes[l].head, m, messageFate, headFate).log,
                       AfterAppend(s, l, m, messageFate, headFate))
  {
    hide Encode, Records, Extent, HoldsLines, Lines, TornBehind, Appended, Reached, AfterAppend;
    var (after, result) := Appended(log, locked, s.lanes[l].head, m, messageFate);
    if messageFate.Written? {
      WriteBehindTorn(after.text, rs, HeadRecord(l, Some(s.nextId)), headFate);
    }
    var done := AfterAppend(s, l, m, messageFate, headFate);
    var end := CombinedCommit(log, locked, true, s.committed, l, s.lanes[l].head, m, messageFate, headFate).log;
    TornReads(end.text, rs);
    if HoldsLines(end.text, done.log) { HeldLines(end.text, done.log); }
  }

  /** Without the file lock nothing is repaired, so the message must be written where its record shows. */
  lemma UnlockedAppendSimulates(log: Log, s: L.Sys, l: LaneId, m: Message, messageFate: WriteFate, headFate: WriteFate)
    requires L.Inv(s) && Simulates(log, s) && L.Enabled(s, L.BeginAppend(l, m, L.Acked))
    ensures Agrees(CombinedCommit(log, false, true, s.committed, l, s.lanes[l].head, m, messageFate, headFate),
                   s, AfterAppend(s, l, m, messageFate, headFate), l)
            <==> s.nextId == U64_MAX
                 || Shows(log.text, MessageRecord(SessionEntry(s.nextId, s.lanes[l].head, m)), messageFate)
  {
    hide Encode, Records, Extent, L.Inv, HoldsLines, Lines, TornBehind, Unended, Shows;
    HeadsFit(s, l);
    hide Names, L.LaneOk, WellLinked, ReplayHeads, Path, L.IdsBelow, Refreshed;
    var record := MessageRecord(SessionEntry(s.nextId, s.lanes[l].head, m));
    if s.nextId >= U64_MAX {
      ExhaustedIsFull(s);
    } else {
      ShowsExactly(log.text, s.log, record, messageFate);
      HeldKinds(log.text, s.log);
      if messageFate.Written? {
        UnlockedHead(log, s, l, m, headFate);
      }
    }
  }

  lemma UnlockedHead(log: Log, s: L.Sys, l: LaneId, m: Message, headFate: WriteFate)
    requires L.Inv(s) && Simulates(log, s) && L.Enabled(s, L.BeginAppend(l, m, L.Acked)) && Fits(s.lanes[l].head)
    requires s.nextId < U64_MAX
    ensures Agrees(CombinedCommit(log, false, true, s.committed, l, s.lanes[l].head, m, Written, headFate),
                   s, AfterAppend(s, l, m, Written, headFate), l)
            <==> Shows(log.text, MessageRecord(SessionEntry(s.nextId, s.lanes[l].head, m)), Written)
  {
    hide Encode, Records, Extent, L.Inv, HoldsLines, Lines, TornBehind, LacksNewline, Unended, Reached;
    var record := MessageRecord(SessionEntry(s.nextId, s.lanes[l].head, m));
    HeldLines(log.text, s.log);
    HeldKinds(log.text, s.log);
    AllReached(Encode(record) + "\n");
    if Unended(log.text) {
      WriteBehindRecord(log.text, s.log, record, Written);
      TornDisagrees(log, false, s, l, m, Written, headFate, s.log[..|s.log| - 1]);
    } else if Extent(log.text) < |log.text| {
      WriteBehindTorn(log.text, s.log, record, Written);
      TornDisagrees(log, false, s, l, m, Written, headFate, s.log);
    } else {
      LinesSnoc(s.log, record);
      HeadAgrees(s, l, m, headFate,
          CombinedCommit(log, false, true, s.committed, l, s.lanes[l].head, m, Written, headFate));
    }
  }

  lemma ExhaustedIsFull(s: L.Sys)
    requires L.Inv(s) && s.nextId >= U64_MAX
    ensures s.nextId == U64_MAX
  {
  }
}
