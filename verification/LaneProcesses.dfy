/**
 Lanes of several processes on one file in locked mode. A step is one hold of the file lock, or one change in the
 memory of a process: between the message and the head of an append other processes may write, and a process may die.
 Every write may fail and be cut anywhere, and several writers may have one lane id, in one process or in several.
 */
module LaneProcesses {
  import opened Wrappers
  import opened SessionTree
  import opened RecordCodec
  import opened LogRecords
  import opened LogText
  import opened LaneLog
  import F = SharedFile
  import opened SharedStorage

  type Pid = nat

  /** Writers are numbered in the order they are made. */
  type Wid = nat

  /** The append of a writer between its two records. */
  datatype Call = NoCall | MessageWritten(id: NodeId, message: Message)

  /**
   The writer of a lane. The other fields are history: the messages behind its first head, those acknowledged since, and
   whether the head last moved, or tried to, without leaving the head in memory as a record that can be read (`ahead`).
   */
  datatype Writer = Writer(pid: Pid, lane: LaneId, birth: Option<NodeId>, head: Option<NodeId>, call: Call,
                           ahead: bool, start: seq<Message>, acked: seq<Message>)

  /** `busy` is the writer that holds the write lock of the process between its two records. */
  datatype Proc = Proc(cursor: nat, committed: set<LaneId>, busy: Option<Wid>)

  /**
   `made` is the number of writers made so far. `last` is history: who wrote the last head record of a lane that can be
   read, as long as no head record of the lane was lost since.
   */
  datatype World = World(text: string, procs: map<Pid, Proc>, writers: map<Wid, Writer>, made: nat,
      last: map<LaneId, Wid>)

  const NewFile := World("", map[], map[], 0, map[])

  datatype Event =
    | Open(pid: Pid)
    | Die(pid: Pid)
    | Load(pid: Pid)
    | Spawn(pid: Pid, lane: LaneId)
    | Fork(from: Wid, lane: LaneId)
    | Resume(pid: Pid, lane: LaneId, at: Option<NodeId>)
    | Drop(writer: Wid)
    | WriteMessage(writer: Wid, message: Message, fate: WriteFate)
    | WriteHead(writer: Wid, fate: WriteFate)
    | WriteInitial(writer: Wid, fate: WriteFate)
    | PowerLoss(kept: nat)

  predicate Has(w: World, k: Wid) {
    k in w.writers && w.writers[k].pid in w.procs
  }

  function ProcOf(w: World, k: Wid): Proc
    requires Has(w, k)
  {
    w.procs[w.writers[k].pid]
  }

  predicate Enabled(w: World, e: Event) {
    match e
    case Open(pid) => pid !in w.procs && NextFree(Records(w.text)) <= U64_MAX
    case Die(pid) => pid in w.procs
    case Load(pid) => pid in w.procs && NextFree(Records(w.text)) <= U64_MAX
    case Spawn(pid, _) => pid in w.procs
    case Fork(from, _) => Has(w, from) && w.writers[from].call.NoCall?
    case Resume(pid, _, at) => pid in w.procs && Names(Records(w.text), at)
    case Drop(k) => Has(w, k)
    case WriteMessage(k, _, _) => Has(w, k) && w.writers[k].call.NoCall? && ProcOf(w, k).busy.None?
    case WriteHead(k, _) => Has(w, k) && ProcOf(w, k).busy == Some(k) && w.writers[k].call.MessageWritten?
    case WriteInitial(k, _) => Has(w, k) && ProcOf(w, k).busy.None?
    case PowerLoss(kept) => kept <= |Records(w.text)|
  }

  /** A new writer that starts at this head. */
  function Born(w: World, pid: Pid, l: LaneId, at: Option<NodeId>): World {
    var v := Writer(pid, l, at, at, NoCall, false, Path(Records(w.text), at), []);
    w.(writers := w.writers[w.made := v], made := w.made + 1)
  }

  /** Without the writer, which gives back the write lock if it holds it. */
  function Dropped(w: World, k: Wid): World
    requires Has(w, k)
  {
    var p := ProcOf(w, k);
    w.(procs := w.procs[w.writers[k].pid := if p.busy == Some(k) then p.(busy := None) else p],
        writers := w.writers - {k})
  }

  function Dead(w: World, pid: Pid): World {
    w.(procs := w.procs - {pid}, writers := map k | k in w.writers && w.writers[k].pid != pid :: w.writers[k])
  }

  /** Who wrote the last head records once the readable records have changed, by a write of this writer. */
  function Lasting(last: map<LaneId, Wid>, rs: seq<SessionRecord>, after: seq<SessionRecord>, k: Wid)
    : map<LaneId, Wid>
  {
    if |after| > |rs| then
      if after[|after| - 1].HeadRecord? then last[after[|after| - 1].laneId := k] else last
    else if |after| < |rs| && rs[|rs| - 1].HeadRecord? then last - {rs[|rs| - 1].laneId}
    else last
  }

  /** The text holds a record more than before. */
  predicate Landed(w: World, text: string) {
    |Records(text)| > |Records(w.text)|
  }

  /** What a write of this writer leaves: the text, its process and itself. */
  function Wrote(w: World, k: Wid, text: string, p: Proc, v: Writer): World
    requires Has(w, k)
  {
    World(text, w.procs[w.writers[k].pid := p], w.writers[k := v], w.made,
          Lasting(w.last, Records(w.text), Records(text), k))
  }

  /** What a message append does to the file and to the cursor of the process, and what it returns. */
  function Appending(w: World, k: Wid, m: Message, fate: WriteFate): (Log, Result<NodeId, SessionError>)
    requires Has(w, k)
  {
    Appended(Log(w.text, ProcOf(w, k).cursor), true, w.writers[k].head, m, fate)
  }

  function AfterMessage(w: World, k: Wid, m: Message, fate: WriteFate): World
    requires Has(w, k)
  {
    var p, v := ProcOf(w, k), w.writers[k];
    var (log, result) := Appending(w, k, m, fate);
    if result.Err? then Wrote(w, k, log.text, p.(cursor := log.cursor), v)
    else Wrote(w, k, log.text, p.(cursor := log.cursor, busy := Some(k)), v.(call := MessageWritten(result.value, m)))
  }

  /** The writer after its append: its head moves only when the head record was acknowledged. */
  function Finished(v: Writer, ok: bool, landed: bool): Writer
    requires v.call.MessageWritten?
  {
    if ok then v.(head := Some(v.call.id), acked := v.acked + [v.call.message], call := NoCall, ahead := !landed)
    else v.(call := NoCall, ahead := v.ahead || landed)
  }

  /** A lane of which a head was acknowledged counts as committed. */
  function Committing(p: Proc, l: LaneId, fate: WriteFate): Proc {
    if fate.Written? then p.(committed := p.committed + {l}) else p
  }

  function AfterHead(w: World, k: Wid, fate: WriteFate): World
    requires Has(w, k) && w.writers[k].call.MessageWritten?
  {
    var p, v := ProcOf(w, k), w.writers[k];
    var text := AppendedHead(w.text, v.lane, Some(v.call.id), fate);
    Wrote(w, k, text, Committing(p.(busy := None), v.lane, fate), Finished(v, fate.Written?, Landed(w, text)))
  }

  function AfterInitial(w: World, k: Wid, fate: WriteFate): World
    requires Has(w, k)
  {
    var p, v := ProcOf(w, k), w.writers[k];
    if v.lane in p.committed then w
    else
      var text := AppendedHead(w.text, v.lane, v.birth, fate);
      Wrote(w, k, text, Committing(p, v.lane, fate), v.(ahead := v.ahead && !Landed(w, text)))
  }

  /** The machine after a crash: a prefix of the records is left, and no process. */
  function Restarted(w: World, kept: nat): World
    requires kept <= |Records(w.text)|
  {
    World(Lines(Records(w.text)[..kept]), map[], map[], w.made, map[])
  }

  function Next(w: World, e: Event): World
    requires Enabled(w, e)
  {
    match e
    case Open(pid) => w.(procs := w.procs[pid := Proc(NextFree(Records(w.text)), {}, None)])
    case Die(pid) => Dead(w, pid)
    case Load(pid) =>
      var p := w.procs[pid];
      w.(procs := w.procs[pid := p.(cursor := ClaimCursor(Log(w.text, p.cursor)))])
    case Spawn(pid, l) => Born(w, pid, l, None)
    case Fork(from, l) => Born(w, w.writers[from].pid, l, w.writers[from].head)
    case Resume(pid, l, at) => Born(w, pid, l, at)
    case Drop(k) => Dropped(w, k)
    case WriteMessage(k, m, fate) => AfterMessage(w, k, m, fate)
    case WriteHead(k, fate) => AfterHead(w, k, fate)
    case WriteInitial(k, fate) => AfterInitial(w, k, fate)
    case PowerLoss(kept) => Restarted(w, kept)
  }

  /** The step writes right behind a record that has no newline yet, which cannot be read any more. */
  predicate Overruns(w: World, e: Event)
    requires Enabled(w, e)
  {
    match e
    case WriteMessage(k, m, fate) => Unended(w.text) && fate != Failed(0)
        && Appending(w, k, m, fate).1 != Err(IdExhausted)
    case WriteHead(_, fate) => Unended(w.text) && fate != Failed(0)
    case WriteInitial(k, fate) => Unended(w.text) && fate != Failed(0) && w.writers[k].lane !in ProcOf(w, k).committed
    case _ => false
  }

  /** The last record is a message that the writer starts from, stands at, or has just written. */
  predicate WantsLast(rs: seq<SessionRecord>, v: Writer) {
    && rs != [] && rs[|rs| - 1].MessageRecord?
    && var id := rs[|rs| - 1].entry.id;
       v.birth == Some(id) || v.head == Some(id) || (v.call.MessageWritten? && v.call.id == id)
  }

  /**
   Such a write does harm: it acknowledges a message there, or the record it takes away is one that a writer needs.
   */
  ghost predicate Harms(w: World, e: Event)
    requires Enabled(w, e)
  {
    && Overruns(w, e)
    && ((e.WriteMessage? && e.fate.Written?)
        || exists k :: k in Next(w, e).writers && WantsLast(Records(w.text), Next(w, e).writers[k]))
  }

  // ---------------------------------------------------------------------------------------
  // The invariant
  // ---------------------------------------------------------------------------------------

  /** The head is on the file with the acknowledged messages behind it, and so is the message of a call in progress. */
  ghost predicate WriterOk(rs: seq<SessionRecord>, v: Writer) {
    && Names(rs, v.birth) && Names(rs, v.head) && Path(rs, v.head) == v.start + v.acked
    && (v.call.MessageWritten? ==>
          && Names(rs, Some(v.call.id)) && Path(rs, Some(v.call.id)) == v.start + v.acked + [v.call.message]
          && v.head != Some(v.call.id))
  }

  /** A writer whose record is the last of its lane: it replays to the head in memory exactly when that is not ahead. */
  ghost predicate ReplayOk(rs: seq<SessionRecord>, last: map<LaneId, Wid>, k: Wid, v: Writer) {
    v.lane in last && last[v.lane] == k ==>
      && v.lane in ReplayHeads(rs)
      && (ReplayHeads(rs)[v.lane] == v.head <==> !v.ahead)
      && (v.call.MessageWritten? ==> ReplayHeads(rs)[v.lane] != Some(v.call.id))
  }

  /** Until a head of the lane was acknowledged to this process, the writer stands where it started. */
  predicate CommitOk(p: Proc, v: Writer) {
    v.lane !in p.committed ==> v.head == v.birth
  }

  ghost predicate KeptOk(w: World, rs: seq<SessionRecord>, k: Wid)
    requires k in w.writers
  {
    && k < w.made && Has(w, k) && CommitOk(ProcOf(w, k), w.writers[k])
    && WriterOk(rs, w.writers[k]) && ReplayOk(rs, w.last, k, w.writers[k])
  }

  ghost predicate FileOk(text: string, rs: seq<SessionRecord>) {
    F.HoldsLines(text, rs) && WellLinked(rs) && F.BelowMax(rs)
  }

  ghost predicate MemoryOk(w: World) {
    (forall pid :: pid in w.procs ==> w.procs[pid].cursor <= U64_MAX) && forall l :: l in w.last ==> w.last[l] < w.made
  }

  ghost predicate Inv(w: World) {
    FileOk(w.text, Records(w.text)) && MemoryOk(w) && forall k :: k in w.writers ==> KeptOk(w, Records(w.text), k)
  }

  /** Every writer has on the file what it was promised. */
  ghost predicate Holds(w: World) {
    forall k :: k in w.writers ==> WriterOk(Records(w.text), w.writers[k])
  }

  // ---------------------------------------------------------------------------------------
  // One record more or less
  // ---------------------------------------------------------------------------------------

  lemma WriterGrows(rs: seq<SessionRecord>, r: SessionRecord, v: Writer)
    requires WellLinked(rs) && MayFollow(rs, r) && WriterOk(rs, v)
    ensures WriterOk(rs + [r], v)
  {
    NamesGrows(rs, r, v.birth);
    NamesGrows(rs, r, v.head);
    PathGrows(rs, r, v.head);
    if v.call.MessageWritten? {
      NamesGrows(rs, r, Some(v.call.id));
      PathGrows(rs, r, Some(v.call.id));
    }
  }

  /** What is named by a log, but not by its last record, is named without that record. */
  lemma NamesShrinks(rs: seq<SessionRecord>, r: SessionRecord, id: Option<NodeId>)
    requires Names(rs + [r], id) && (r.MessageRecord? ==> id != Some(r.entry.id))
    ensures Names(rs, id)
  {
    if id.Some? {
      var i :| 0 <= i < |rs + [r]| && (rs + [r])[i].MessageRecord? && (rs + [r])[i].entry.id == id.value;
      assert rs[i] == (rs + [r])[i];
    }
  }

  lemma WriterShrinks(rs: seq<SessionRecord>, r: SessionRecord, v: Writer)
    requires WellLinked(rs + [r]) && WriterOk(rs + [r], v) && !WantsLast(rs + [r], v)
    ensures WriterOk(rs, v)
  {
    LinkedSnoc(rs, r);
    hide WellLinked, MayFollow, Names, Path;
    NamesShrinks(rs, r, v.birth);
    NamesShrinks(rs, r, v.head);
    PathGrows(rs, r, v.head);
    if v.call.MessageWritten? {
      NamesShrinks(rs, r, Some(v.call.id));
      PathGrows(rs, r, Some(v.call.id));
    }
  }

  lemma WantedIsMissed(rs: seq<SessionRecord>, r: SessionRecord, v: Writer)
    requires WellLinked(rs + [r]) && WantsLast(rs + [r], v)
    ensures !WriterOk(rs, v)
  {
    LinkedSnoc(rs, r);
    hide WellLinked, Path;
  }

  /** The records after a write: the same, this one more, or the last one less. */
  predicate StepOf(rs: seq<SessionRecord>, after: seq<SessionRecord>, r: SessionRecord) {
    after == rs || (MayFollow(rs, r) && after == rs + [r]) || (rs != [] && after == rs[..|rs| - 1])
  }

  lemma WriterSteps(rs: seq<SessionRecord>, after: seq<SessionRecord>, r: SessionRecord, v: Writer)
    requires WellLinked(rs) && StepOf(rs, after, r) && WriterOk(rs, v) && (|after| < |rs| ==> !WantsLast(rs, v))
    ensures WriterOk(after, v)
  {
    hide WriterOk, WellLinked, MayFollow, WantsLast;
    if |after| > |rs| {
      WriterGrows(rs, r, v);
    } else if |after| < |rs| {
      assert rs == after + [rs[|rs| - 1]];
      WriterShrinks(after, rs[|rs| - 1], v);
    }
  }

  lemma ReplaySteps(rs: seq<SessionRecord>, after: seq<SessionRecord>, r: SessionRecord)
    requires StepOf(rs, after, r)
    ensures |after| > |rs| ==>
              ReplayHeads(after) == if r.HeadRecord? then ReplayHeads(rs)[r.laneId := r.head] else ReplayHeads(rs)
    ensures |after| < |rs| ==>
              var x := rs[|rs| - 1];
              ReplayHeads(rs) == if x.HeadRecord? then ReplayHeads(after)[x.laneId := x.head] else ReplayHeads(after)
  {
    if |after| > |rs| {
      Snoc(rs, r);
    } else if |after| < |rs| {
      assert rs == after + [rs[|rs| - 1]];
      Snoc(after, rs[|rs| - 1]);
    }
  }

  /** A writer that did not write the record, or wrote only a message. */
  lemma ReplayStays(rs: seq<SessionRecord>, after: seq<SessionRecord>, r: SessionRecord,
                    last: map<LaneId, Wid>, k: Wid, j: Wid, v: Writer)
    requires StepOf(rs, after, r) && ReplayOk(rs, last, j, v) && (j != k || r.MessageRecord? || |after| <= |rs|)
    ensures ReplayOk(after, Lasting(last, rs, after, k), j, v)
  {
    hide MayFollow;
    ReplaySteps(rs, after, r);
    hide ReplayHeads;
  }

  /** The writer of a message that was acknowledged: its id is new, so no head record has it. */
  lemma ReplayOfStarted(rs: seq<SessionRecord>, last: map<LaneId, Wid>, k: Wid, v: Writer, id: NodeId, m: Message)
    requires WellLinked(rs) && ReplayOk(rs, last, k, v)
    requires MayFollow(rs, MessageRecord(SessionEntry(id, v.head, m)))
    ensures var after := rs + [MessageRecord(SessionEntry(id, v.head, m))];
      ReplayOk(after, Lasting(last, rs, after, k), k, v.(call := MessageWritten(id, m)))
  {
    var r := MessageRecord(SessionEntry(id, v.head, m));
    assert rs[..|rs|] == rs;
    ReplayedHeadsLive(rs, |rs|, v.lane);
    Snoc(rs, r);
    hide ReplayHeads, WellLinked;
  }

  /** The writer of the head record of its append. */
  lemma ReplayOfFinished(rs: seq<SessionRecord>, after: seq<SessionRecord>, last: map<LaneId, Wid>, k: Wid, v: Writer,
      ok: bool)
    requires v.call.MessageWritten? && WriterOk(rs, v) && ReplayOk(rs, last, k, v)
    requires StepOf(rs, after, HeadRecord(v.lane, Some(v.call.id)))
    ensures ReplayOk(after, Lasting(last, rs, after, k), k, Finished(v, ok, |after| > |rs|))
  {
    hide MayFollow, Path, Names;
    ReplaySteps(rs, after, HeadRecord(v.lane, Some(v.call.id)));
    hide ReplayHeads;
  }

  /** The writer of an initial head record. */
  lemma ReplayOfInitial(rs: seq<SessionRecord>, after: seq<SessionRecord>, last: map<LaneId, Wid>, k: Wid, v: Writer)
    requires WriterOk(rs, v) && ReplayOk(rs, last, k, v) && v.head == v.birth
        && StepOf(rs, after, HeadRecord(v.lane, v.birth))
    ensures ReplayOk(after, Lasting(last, rs, after, k), k, v.(ahead := v.ahead && !(|after| > |rs|)))
  {
    hide MayFollow, Path, Names;
    ReplaySteps(rs, after, HeadRecord(v.lane, v.birth));
    hide ReplayHeads;
  }

  // ---------------------------------------------------------------------------------------
  // One line on the file
  // ---------------------------------------------------------------------------------------

  lemma NamesFit(rs: seq<SessionRecord>, id: Option<NodeId>)
    requires F.BelowMax(rs) && Names(rs, id)
    ensures Fits(id)
  {
    if id.Some? {
      var i :| 0 <= i < |rs| && rs[i].MessageRecord? && rs[i].entry.id == id.value;
      assert rs[i] in rs;
    }
  }

  lemma BelowMaxGrows(rs: seq<SessionRecord>, r: SessionRecord)
    requires F.BelowMax(rs) && (r.MessageRecord? ==> r.entry.id < U64_MAX)
    ensures F.BelowMax(rs + [r])
  {
    assert forall x :: x in rs + [r] ==> x in rs || x == r;
  }

  lemma FreeIdFits(rs: seq<SessionRecord>)
    requires F.BelowMax(rs)
    ensures NextFree(rs) <= U64_MAX
    ensures forall i :: 0 <= i < |rs| && rs[i].MessageRecord? ==> rs[i].entry.id < NextFree(rs)
  {
    NextFreeBounds(rs);
    assert forall i :: 0 <= i < |rs| ==> rs[i] in rs;
  }

  lemma PrefixIsSound(rs: seq<SessionRecord>, n: nat)
    requires WellLinked(rs) && F.BelowMax(rs) && n <= |rs|
    ensures WellLinked(rs[..n]) && F.BelowMax(rs[..n])
  {
    PrefixLinked(rs, n);
    assert forall r :: r in rs[..n] ==> r in rs;
  }

  /** A record put behind a sound file, or the part of it that was reached. */
  lemma LineOnFile(text: string, rs: seq<SessionRecord>, r: SessionRecord, fate: WriteFate)
      returns (after: seq<SessionRecord>)
    requires FileOk(text, rs) && Storable(r) && MayFollow(rs, r) && (r.MessageRecord? ==> r.entry.id < U64_MAX)
    ensures var text' := text + Reached(Encode(r) + "\n", fate);
      FileOk(text', after) && Records(text') == after && StepOf(rs, after, r)
    ensures |after| < |rs| <==> Unended(text) && fate != Failed(0)
    ensures fate.Written? && !Unended(text) && Extent(text) == |text| ==> after == rs + [r]
  {
    hide Encode, Reached, F.HoldsLines, MayFollow, Records, Extent, Unended, WellLinked, F.BelowMax;
    FileParts(text, rs);
    F.HeldLines(text, rs);
    if Unended(text) { UnendedHasRecord(text, rs); }
    F.WriteBehind(text, r, fate);
    after := F.RecordsAfter(text, r, fate);
    if |after| > |rs| {
      LinkedSnoc(rs, r);
      BelowMaxGrows(rs, r);
    } else if |after| < |rs| {
      PrefixIsSound(rs, |rs| - 1);
    }
  }

  lemma FileParts(text: string, rs: seq<SessionRecord>)
    requires FileOk(text, rs)
    ensures F.HoldsLines(text, rs) && WellLinked(rs) && F.BelowMax(rs) && Records(text) == rs
  {
    F.HeldLines(text, rs);
  }

  lemma UnendedHasRecord(text: string, rs: seq<SessionRecord>)
    requires F.HoldsLines(text, rs) && Unended(text)
    ensures rs != []
  {
    F.HeldLines(text, rs);
    F.HeldKinds(text, rs);
  }

  // ---------------------------------------------------------------------------------------
  // Every step that does no harm keeps everything
  // ---------------------------------------------------------------------------------------

  /** No writer but this one needs the last record. */
  ghost predicate OthersSpared(w: World, k: Wid) {
    forall j :: j in w.writers && j != k ==> !WantsLast(Records(w.text), w.writers[j])
  }

  lemma OtherKept(w: World, t: World, k: Wid, j: Wid, r: SessionRecord)
    requires Has(w, k) && j in w.writers && j != k && KeptOk(w, Records(w.text), j) && WellLinked(Records(w.text))
    requires k in t.writers && t.writers == w.writers[k := t.writers[k]] && t.made == w.made
    requires t.last == Lasting(w.last, Records(w.text), Records(t.text), k)
    requires w.writers[k].pid in t.procs && t.procs == w.procs[w.writers[k].pid := t.procs[w.writers[k].pid]]
    requires ProcOf(w, k).committed <= t.procs[w.writers[k].pid].committed
    requires StepOf(Records(w.text), Records(t.text), r)
    requires |Records(t.text)| < |Records(w.text)| ==> !WantsLast(Records(w.text), w.writers[j])
    ensures KeptOk(t, Records(t.text), j)
  {
    hide WriterOk, ReplayOk, Records, Lasting, StepOf, WellLinked, WantsLast;
    WriterSteps(Records(w.text), Records(t.text), r, w.writers[j]);
    ReplayStays(Records(w.text), Records(t.text), r, w.last, k, j, w.writers[j]);
  }

  lemma LastingBelow(w: World, after: seq<SessionRecord>, k: Wid)
    requires MemoryOk(w) && k < w.made
    ensures var last := Lasting(w.last, Records(w.text), after, k);
      forall l :: l in last ==> last[l] < w.made
  {
    hide Records;
  }

  /** A write by one writer keeps everything sound when it leaves that writer sound. */
  lemma WroteKeepsInv(w: World, k: Wid, text: string, p: Proc, v: Writer, r: SessionRecord)
    requires Inv(w) && Has(w, k) && v.pid == w.writers[k].pid
    requires p.cursor <= U64_MAX && ProcOf(w, k).committed <= p.committed && CommitOk(p, v)
    requires FileOk(text, Records(text)) && StepOf(Records(w.text), Records(text), r)
    requires |Records(text)| < |Records(w.text)| ==> OthersSpared(w, k)
    requires WriterOk(Records(text), v)
        && ReplayOk(Records(text), Lasting(w.last, Records(w.text), Records(text), k), k, v)
    ensures Inv(Wrote(w, k, text, p, v))
  {
    hide FileOk, WriterOk, ReplayOk, Records, Lasting, StepOf, WellLinked, WantsLast, CommitOk, Inv, KeptOk, MemoryOk;
    WriterFacts(w, k);
    var t, after := Wrote(w, k, text, p, v), Records(text);
    WroteMemory(w, k, text, p, v);
    WroteKept(w, k, text, p, v);
    forall j | j in t.writers && j != k ensures KeptOk(t, after, j) {
      WriterFacts(w, j);
      SparedOther(w, k, j);
      OtherKept(w, t, k, j, r);
    }
    hide Wrote;
    SoundParts(t);
  }

  lemma SparedOther(w: World, k: Wid, j: Wid)
    requires j in w.writers && j != k
    ensures OthersSpared(w, k) ==> !WantsLast(Records(w.text), w.writers[j])
  {
  }

  lemma WroteMemory(w: World, k: Wid, text: string, p: Proc, v: Writer)
    requires MemoryOk(w) && Has(w, k) && k < w.made && p.cursor <= U64_MAX
    ensures MemoryOk(Wrote(w, k, text, p, v))
  {
    hide Records, Lasting;
    LastingBelow(w, Records(text), k);
  }

  lemma WroteKept(w: World, k: Wid, text: string, p: Proc, v: Writer)
    requires Has(w, k) && k < w.made && v.pid == w.writers[k].pid && CommitOk(p, v)
    requires WriterOk(Records(text), v)
        && ReplayOk(Records(text), Lasting(w.last, Records(w.text), Records(text), k), k, v)
    ensures KeptOk(Wrote(w, k, text, p, v), Records(text), k)
  {
    hide Records, Lasting, WriterOk, ReplayOk, CommitOk;
  }

  /** What the invariant says of one writer, and of the file under it. */
  lemma WriterFacts(w: World, k: Wid)
    requires Inv(w) && k in w.writers
    ensures KeptOk(w, Records(w.text), k) && k < w.made && Has(w, k) && CommitOk(ProcOf(w, k), w.writers[k])
    ensures WriterOk(Records(w.text), w.writers[k]) && ReplayOk(Records(w.text), w.last, k, w.writers[k])
    ensures FileOk(w.text, Records(w.text)) && MemoryOk(w) && WellLinked(Records(w.text)) && F.BelowMax(Records(w.text))
    ensures ProcOf(w, k).cursor <= U64_MAX
  {
    hide WriterOk, ReplayOk, Records, CommitOk, WellLinked, F.BelowMax, F.HoldsLines;
    assert KeptOk(w, Records(w.text), k);
  }

  lemma SoundParts(w: World)
    requires FileOk(w.text, Records(w.text)) && MemoryOk(w)
    requires forall k :: k in w.writers ==> KeptOk(w, Records(w.text), k)
    ensures Inv(w)
  {
  }

  lemma AppendingShape(w: World, k: Wid, m: Message, fate: WriteFate)
    requires Has(w, k) && NextFree(Records(w.text)) <= U64_MAX
    ensures var id := ClaimCursor(Log(w.text, ProcOf(w, k).cursor));
      var r := MessageRecord(SessionEntry(id, w.writers[k].head, m));
      Appending(w, k, m, fate)
        == if id >= U64_MAX then (Log(F.Repaired(w.text), id), Err(IdExhausted))
           else (Log(F.Repaired(w.text) + Reached(Encode(r) + "\n", fate), id + 1),
                 if fate.Written? then Ok(id) else Err(Io))
  {
    hide Encode, Reached, Records, Extent, NextFree;
  }

  lemma RepairedIsSound(text: string, rs: seq<SessionRecord>)
    requires FileOk(text, rs)
    ensures FileOk(F.Repaired(text), rs) && Records(F.Repaired(text)) == rs
    ensures (Unended(F.Repaired(text)) <==> Unended(text)) && Extent(F.Repaired(text)) == |F.Repaired(text)|
  {
    FileParts(text, rs);
    hide F.HoldsLines, F.Repaired, Records, Extent, Unended, WellLinked;
    F.RepairHolds(text);
  }

  lemma SameIsStep(rs: seq<SessionRecord>, r: SessionRecord)
    ensures StepOf(rs, rs, r)
  {
  }

  /** The message that the writer is about to write may follow the file. */
  lemma ClaimFits(w: World, k: Wid, m: Message)
    requires Has(w, k) && ProcOf(w, k).cursor <= U64_MAX && F.BelowMax(Records(w.text))
    requires WriterOk(Records(w.text), w.writers[k])
    ensures var rs, id := Records(w.text), ClaimCursor(Log(w.text, ProcOf(w, k).cursor));
      && NextFree(rs) <= id <= U64_MAX
      && (forall i :: 0 <= i < |rs| && rs[i].MessageRecord? ==> rs[i].entry.id < id)
      && Fits(w.writers[k].head) && MayFollow(rs, MessageRecord(SessionEntry(id, w.writers[k].head, m)))
  {
    hide F.BelowMax, Path, Records, NextFree;
    FreeIdFits(Records(w.text));
    NamesFit(Records(w.text), w.writers[k].head);
  }

  /** What one message append does to a sound file: nothing but the repair, or one line. */
  lemma MessageOnFile(w: World, k: Wid, m: Message, fate: WriteFate) returns (after: seq<SessionRecord>)
    requires Inv(w) && Enabled(w, WriteMessage(k, m, fate))
    ensures var (log, result) := Appending(w, k, m, fate);
      var rs, id := Records(w.text), ClaimCursor(Log(w.text, ProcOf(w, k).cursor));
      var r := MessageRecord(SessionEntry(id, w.writers[k].head, m));
      && log.cursor <= U64_MAX && NextFree(rs) <= id && Records(log.text) == after && FileOk(log.text, after)
      && StepOf(rs, after, r) && (result.Ok? <==> fate.Written? && result != Err(IdExhausted))
      && (result == Err(IdExhausted) ==> after == rs)
      && (result != Err(IdExhausted) ==>
            && MayFollow(rs, r) && (|after| < |rs| <==> Unended(w.text) && fate != Failed(0))
            && (result.Ok? ==> result.value == id && (!Unended(w.text) ==> after == rs + [r])))
  {
    hide FileOk, Encode, Path, Names, WellLinked, NextFree, Extent, Appending, F.Repaired, Unended, Records, Reached,
      Inv, WriterOk, ReplayOk, KeptOk, CommitOk, MemoryOk, F.BelowMax, StepOf, MayFollow;
    WriterFacts(w, k);
    var rs, head := Records(w.text), w.writers[k].head;
    var id := ClaimCursor(Log(w.text, ProcOf(w, k).cursor));
    ClaimFits(w, k, m);
    AppendingShape(w, k, m, fate);
    RepairedIsSound(w.text, rs);
    SameIsStep(rs, MessageRecord(SessionEntry(id, head, m)));
    after := rs;
    if id < U64_MAX {
      after := LineOnFile(F.Repaired(w.text), rs, MessageRecord(SessionEntry(id, head, m)), fate);
    }
  }

  /** A writer whose message has just been put on the file. */
  lemma StartedIsOk(rs: seq<SessionRecord>, v: Writer, id: NodeId, m: Message)
    requires WellLinked(rs) && WriterOk(rs, v) && MayFollow(rs, MessageRecord(SessionEntry(id, v.head, m)))
    ensures WriterOk(rs + [MessageRecord(SessionEntry(id, v.head, m))], v.(call := MessageWritten(id, m)))
  {
    var r := MessageRecord(SessionEntry(id, v.head, m));
    PathOfNew(rs, r.entry);
    WriterGrows(rs, r, v.(call := NoCall));
    hide Path, WellLinked;
  }

  lemma MessageKeepsInv(w: World, k: Wid, m: Message, fate: WriteFate)
    requires Inv(w) && Enabled(w, WriteMessage(k, m, fate)) && !Harms(w, WriteMessage(k, m, fate))
    ensures Inv(AfterMessage(w, k, m, fate))
  {
    hide FileOk, WriterOk, ReplayOk, Records, Lasting, StepOf, WellLinked, WantsLast, Harms, Appending, MayFollow,
      Unended, Inv, NextFree, ClaimCursor, KeptOk, MemoryOk, CommitOk, F.BelowMax, Wrote;
    WriterFacts(w, k);
    var rs, v, p := Records(w.text), w.writers[k], ProcOf(w, k);
    var (log, result) := Appending(w, k, m, fate);
    var id := ClaimCursor(Log(w.text, p.cursor));
    var r := MessageRecord(SessionEntry(id, v.head, m));
    var after := MessageOnFile(w, k, m, fate);
    if Unended(w.text) && fate != Failed(0) && result != Err(IdExhausted) { SparedByMessage(w, k, m, fate); }
    if result.Ok? {
      StartedIsOk(rs, v, id, m);
      CommitStays(p, p.(cursor := log.cursor, busy := Some(k)), v, v.(call := MessageWritten(id, m)));
      ReplayOfStarted(rs, w.last, k, v, id, m);
      WroteKeepsInv(w, k, log.text, p.(cursor := log.cursor, busy := Some(k)), v.(call := MessageWritten(id, m)), r);
    } else {
      WriterSteps(rs, after, r, v);
      CommitStays(p, p.(cursor := log.cursor), v, v);
      ReplayStays(rs, after, r, w.last, k, k, v);
      WroteKeepsInv(w, k, log.text, p.(cursor := log.cursor), v, r);
    }
  }

  lemma CommitStays(p: Proc, p': Proc, v: Writer, v': Writer)
    requires CommitOk(p, v) && p.committed <= p'.committed && v'.lane == v.lane && v'.head == v.head
        && v'.birth == v.birth
    ensures CommitOk(p', v')
  {
  }

  lemma SparedByMessage(w: World, k: Wid, m: Message, fate: WriteFate)
    requires Enabled(w, WriteMessage(k, m, fate)) && !Harms(w, WriteMessage(k, m, fate))
    requires Unended(w.text) && fate != Failed(0) && Appending(w, k, m, fate).1 != Err(IdExhausted)
    ensures !fate.Written? && OthersSpared(w, k) && !WantsLast(Records(w.text), w.writers[k])
  {
    hide Records, Unended, WantsLast, Refreshed, Encode, Reached;
    var t := AfterMessage(w, k, m, fate);
    assert !fate.Written? && Appending(w, k, m, fate).1.Err?;
    assert t.writers == w.writers;
    assert t == Next(w, WriteMessage(k, m, fate));
    forall j | j in w.writers ensures !WantsLast(Records(w.text), w.writers[j]) {
      assert j in t.writers;
    }
  }

  lemma FinishedIsOk(rs: seq<SessionRecord>, v: Writer, ok: bool, landed: bool)
    requires WriterOk(rs, v) && v.call.MessageWritten?
    ensures WriterOk(rs, Finished(v, ok, landed))
  {
    hide Path, Names;
    assert v.start + (v.acked + [v.call.message]) == v.start + v.acked + [v.call.message];
  }

  /** A head record of a lane that names a message of the file. */
  lemma HeadOnFile(w: World, l: LaneId, head: Option<NodeId>, fate: WriteFate) returns (after: seq<SessionRecord>)
    requires FileOk(w.text, Records(w.text)) && Names(Records(w.text), head)
    ensures var text := AppendedHead(w.text, l, head, fate);
      FileOk(text, after) && Records(text) == after && StepOf(Records(w.text), after, HeadRecord(l, head))
    ensures |after| < |Records(w.text)| <==> Unended(w.text) && fate != Failed(0)
  {
    FileParts(w.text, Records(w.text));
    NamesFit(Records(w.text), head);
    hide FileOk, Encode, Names, Records, Extent, Unended, Reached;
    after := LineOnFile(w.text, Records(w.text), HeadRecord(l, head), fate);
  }

  /** No writer needs the last record, the one that wrote included. */
  ghost predicate Spared(w: World, t: World) {
    forall j :: j in t.writers ==> !WantsLast(Records(w.text), t.writers[j])
  }

  lemma SparedOthers(w: World, t: World, k: Wid, v: Writer)
    requires Spared(w, t) && k in w.writers && t.writers == w.writers[k := v]
    ensures OthersSpared(w, k) && !WantsLast(Records(w.text), v)
  {
    hide WantsLast, Records;
    assert k in t.writers;
    forall j | j in w.writers && j != k ensures !WantsLast(Records(w.text), w.writers[j]) {
      assert j in t.writers;
    }
  }

  lemma HeadKeepsInv(w: World, k: Wid, fate: WriteFate)
    requires Has(w, k) && ProcOf(w, k).busy == Some(k) && w.writers[k].call.MessageWritten? && Inv(w)
    requires Unended(w.text) && fate != Failed(0) ==> Spared(w, AfterHead(w, k, fate))
    ensures Inv(AfterHead(w, k, fate))
  {
    hide FileOk, WriterOk, ReplayOk, Records, Lasting, StepOf, WellLinked, WantsLast, MayFollow, Unended, Inv, Spared,
      AppendedHead, KeptOk, MemoryOk, F.BelowMax, OthersSpared;
    WriterFacts(w, k);
    HeadsNamed(w, k);
    var rs, v, p := Records(w.text), w.writers[k], ProcOf(w, k);
    var r := HeadRecord(v.lane, Some(v.call.id));
    var after := HeadOnFile(w, v.lane, Some(v.call.id), fate);
    var text, landed := AppendedHead(w.text, v.lane, Some(v.call.id), fate), |after| > |rs|;
    var p', v' := Committing(p.(busy := None), v.lane, fate), Finished(v, fate.Written?, landed);
    assert CommitOk(p', v');
    assert AfterHead(w, k, fate) == Wrote(w, k, text, p', v');
    FinishedIsOk(rs, v, fate.Written?, landed);
    ReplayOfFinished(rs, after, w.last, k, v, fate.Written?);
    WroteWriters(w, k, text, p', v');
    hide AfterHead, CommitOk, Finished, Wrote;
    if |after| < |rs| { SparedOthers(w, AfterHead(w, k, fate), k, v'); }
    WriterSteps(rs, after, r, v');
    WroteKeepsInv(w, k, text, p', v', r);
  }

  lemma WroteWriters(w: World, k: Wid, text: string, p: Proc, v: Writer)
    requires Has(w, k)
    ensures Wrote(w, k, text, p, v).writers == w.writers[k := v]
  {
  }

  lemma AheadIsOk(rs: seq<SessionRecord>, v: Writer, ahead: bool)
    requires WriterOk(rs, v)
    ensures WriterOk(rs, v.(ahead := ahead))
  {
  }

  lemma InitialKeepsInv(w: World, k: Wid, fate: WriteFate)
    requires Enabled(w, WriteInitial(k, fate)) && Inv(w) && w.writers[k].lane !in ProcOf(w, k).committed
    requires Unended(w.text) && fate != Failed(0) ==> Spared(w, AfterInitial(w, k, fate))
    ensures Inv(AfterInitial(w, k, fate))
  {
    hide FileOk, WriterOk, ReplayOk, Records, Lasting, StepOf, WellLinked, WantsLast, MayFollow, Unended, Inv, Spared,
      AppendedHead, KeptOk, MemoryOk, F.BelowMax, OthersSpared;
    WriterFacts(w, k);
    HeadsNamed(w, k);
    var rs, v, p := Records(w.text), w.writers[k], ProcOf(w, k);
    var r := HeadRecord(v.lane, v.birth);
    var after := HeadOnFile(w, v.lane, v.birth, fate);
    var text, landed := AppendedHead(w.text, v.lane, v.birth, fate), |after| > |rs|;
    var p', v' := Committing(p, v.lane, fate), v.(ahead := v.ahead && !landed);
    assert CommitOk(p', v');
    AheadIsOk(rs, v, v.ahead && !landed);
    assert AfterInitial(w, k, fate) == Wrote(w, k, text, p', v');
    ReplayOfInitial(rs, after, w.last, k, v);
    WroteWriters(w, k, text, p', v');
    hide AfterInitial, CommitOk, Wrote;
    if |after| < |rs| { SparedOthers(w, AfterInitial(w, k, fate), k, v'); }
    WriterSteps(rs, after, r, v');
    WroteKeepsInv(w, k, text, p', v', r);
  }

  /** A new writer at a head the file has. */
  lemma BirthKeepsInv(w: World, pid: Pid, l: LaneId, at: Option<NodeId>)
    requires Inv(w) && pid in w.procs && Names(Records(w.text), at)
    ensures Inv(Born(w, pid, l, at))
  {
    var t, rs := Born(w, pid, l, at), Records(w.text);
    assert WriterOk(rs, t.writers[w.made]);
    hide FileOk, Records, WriterOk;
    assert KeptOk(t, rs, w.made);
    forall k | k in t.writers && k != w.made ensures KeptOk(t, rs, k) {
      assert KeptOk(w, rs, k);
    }
  }

  /** Fewer writers, and a process less or with its lock given back. */
  lemma FewerKeepsInv(w: World, t: World)
    requires Inv(w) && t.text == w.text && t.made == w.made && t.last == w.last && MemoryOk(t)
    requires forall k :: k in t.writers ==>
               && k in w.writers && t.writers[k] == w.writers[k] && Has(t, k)
               && (Has(w, k) ==> ProcOf(t, k).committed == ProcOf(w, k).committed)
    ensures Inv(t)
  {
    hide FileOk, Records, WriterOk, ReplayOk;
    forall k | k in t.writers ensures KeptOk(t, Records(t.text), k) {
      assert KeptOk(w, Records(w.text), k);
    }
  }

  lemma LeavingKeepsInv(w: World, e: Event)
    requires Inv(w) && Enabled(w, e) && (e.Drop? || e.Die? || e.Open? || e.Load?)
    ensures Inv(Next(w, e))
  {
    hide FileOk, Records, KeptOk, NextFree;
    forall k | k in w.writers ensures Has(w, k) { HasProc(w, k); }
    FewerKeepsInv(w, Next(w, e));
  }

  lemma HasProc(w: World, k: Wid)
    requires Inv(w) && k in w.writers
    ensures Has(w, k)
  {
    assert KeptOk(w, Records(w.text), k);
  }

  lemma PowerLossKeepsInv(w: World, kept: nat)
    requires Inv(w) && kept <= |Records(w.text)|
    ensures Inv(Restarted(w, kept)) && Records(Restarted(w, kept).text) == Records(w.text)[..kept]
  {
    var rs := Records(w.text);
    FileParts(w.text, rs);
    PrefixIsSound(rs, kept);
    StorablePrefix(w.text, rs, kept);
    hide WellLinked, Lines, Records, F.HoldsLines, F.BelowMax;
    F.WholeLinesHeld(rs[..kept]);
    F.HeldLines(Lines(rs[..kept]), rs[..kept]);
  }

  lemma StorablePrefix(text: string, rs: seq<SessionRecord>, n: nat)
    requires F.HoldsLines(text, rs) && n <= |rs|
    ensures AllStorable(rs[..n])
  {
    assert forall r :: r in rs[..n] ==> r in rs;
  }

  lemma SparedByHead(w: World, e: Event)
    requires Enabled(w, e) && Overruns(w, e) && !Harms(w, e)
    ensures Spared(w, Next(w, e))
  {
    hide Records, WantsLast, Next;
  }

  /** A step that does no harm keeps the file and every writer sound. */
  lemma NextKeepsInv(w: World, e: Event)
    requires Inv(w) && Enabled(w, e) && !Harms(w, e)
    ensures Inv(Next(w, e))
  {
    if Overruns(w, e) { SparedByHead(w, e); }
    hide Inv, Records, AfterMessage, AfterHead, AfterInitial, NextFree, Harms, Spared, Born, Dead, Dropped, Unended,
      Restarted, Appending;
    match e
    case Spawn(pid, l) => NothingNamed(w); BirthKeepsInv(w, pid, l, None);
    case Fork(from, l) =>
      HeadsNamed(w, from);
      BirthKeepsInv(w, w.writers[from].pid, l, w.writers[from].head);
    case Resume(pid, l, at) => BirthKeepsInv(w, pid, l, at);
    case WriteMessage(k, m, fate) => MessageKeepsInv(w, k, m, fate);
    case WriteHead(k, fate) => HeadKeepsInv(w, k, fate);
    case WriteInitial(k, fate) =>
      if w.writers[k].lane !in ProcOf(w, k).committed {
        InitialKeepsInv(w, k, fate);
      } else {
        InitialSkipped(w, k, fate);
      }
    case PowerLoss(kept) => PowerLossKeepsInv(w, kept);
    case _ => LeavingKeepsInv(w, e);
  }

  lemma NothingNamed(w: World)
    ensures Names(Records(w.text), None)
  {
  }

  lemma InitialSkipped(w: World, k: Wid, fate: WriteFate)
    requires Has(w, k) && w.writers[k].lane in ProcOf(w, k).committed
    ensures AfterInitial(w, k, fate) == w
  {
  }

  /** What a writer holds on to is on the file. */
  lemma HeadsNamed(w: World, k: Wid)
    requires Inv(w) && k in w.writers
    ensures var v, rs := w.writers[k], Records(w.text);
      Names(rs, v.birth) && Names(rs, v.head) && (v.call.MessageWritten? ==> Names(rs, Some(v.call.id)))
  {
    assert KeptOk(w, Records(w.text), k);
  }

  // ---------------------------------------------------------------------------------------
  // The steps that lose a record, and those that do harm by it
  // ---------------------------------------------------------------------------------------

  /** Exactly the last record of the first text cannot be read from the second. */
  predicate LosesLast(text: string, after: string) {
    Records(text) != [] && Records(after) == Records(text)[..|Records(text)| - 1]
  }

  /**
   The records after a step that is no power loss: only a step that overruns takes one away, and it takes the last one.
   */
  lemma OverrunLosesExactly(w: World, e: Event)
    requires Inv(w) && Enabled(w, e) && !e.PowerLoss?
    ensures Overruns(w, e) ==> LosesLast(w.text, Next(w, e).text)
    ensures Records(w.text) <= Records(Next(w, e).text) <==> !Overruns(w, e)
  {
    hide Inv, Records, NextFree, Unended, AfterMessage, AfterHead, AfterInitial, Appending;
    match e
    case WriteMessage(k, m, fate) => MessageLoses(w, k, m, fate);
    case WriteHead(k, fate) => HeadLoses(w, k, fate);
    case WriteInitial(k, fate) => InitialLoses(w, k, fate);
    case _ =>
  }

  lemma MessageLoses(w: World, k: Wid, m: Message, fate: WriteFate)
    requires Inv(w) && Enabled(w, WriteMessage(k, m, fate))
    ensures var text, o := AfterMessage(w, k, m, fate).text, Overruns(w, WriteMessage(k, m, fate));
      (o ==> LosesLast(w.text, text)) && (Records(w.text) <= Records(text) <==> !o)
  {
    hide Inv, Records, NextFree, Unended, AfterMessage, Appending, FileOk, MayFollow;
    var after := MessageOnFile(w, k, m, fate);
    MessageText(w, k, m, fate);
  }

  lemma HeadLoses(w: World, k: Wid, fate: WriteFate)
    requires Inv(w) && Enabled(w, WriteHead(k, fate))
    ensures var text, o := AfterHead(w, k, fate).text, Overruns(w, WriteHead(k, fate));
      (o ==> LosesLast(w.text, text)) && (Records(w.text) <= Records(text) <==> !o)
  {
    hide Inv, Records, Unended, FileOk, MayFollow, AppendedHead, Finished, Committing;
    InvFile(w);
    HeadsNamed(w, k);
    var after := HeadOnFile(w, w.writers[k].lane, Some(w.writers[k].call.id), fate);
  }

  lemma InitialLoses(w: World, k: Wid, fate: WriteFate)
    requires Inv(w) && Enabled(w, WriteInitial(k, fate))
    ensures var text, o := AfterInitial(w, k, fate).text, Overruns(w, WriteInitial(k, fate));
      (o ==> LosesLast(w.text, text)) && (Records(w.text) <= Records(text) <==> !o)
  {
    hide Inv, Records, Unended, FileOk, MayFollow, AppendedHead, Committing;
    InvFile(w);
    HeadsNamed(w, k);
    var after := HeadOnFile(w, w.writers[k].lane, w.writers[k].birth, fate);
  }

  lemma MessageText(w: World, k: Wid, m: Message, fate: WriteFate)
    requires Has(w, k)
    ensures AfterMessage(w, k, m, fate).text == Appending(w, k, m, fate).0.text
    ensures k in AfterMessage(w, k, m, fate).writers
    ensures var (_, result) := Appending(w, k, m, fate);
      result.Ok? ==> AfterMessage(w, k, m, fate).writers[k].call == MessageWritten(result.value, m)
  {
    hide Appending;
  }

  /** After a step that does harm, some writer has not on the file what it was promised. */
  lemma HarmBreaks(w: World, e: Event)
    requires Inv(w) && Enabled(w, e) && Harms(w, e)
    ensures !Holds(Next(w, e))
  {
    hide FileOk, Inv, Records, Unended, WriterOk, Next, WellLinked, WantsLast, NextFree, Appending, Overruns;
    var t, rs, after := Next(w, e), Records(w.text), Records(Next(w, e).text);
    HarmOverruns(w, e);
    OverrunLosesExactly(w, e);
    InvFile(w);
    assert rs == after + [rs[|rs| - 1]];
    if k :| k in t.writers && WantsLast(rs, t.writers[k]) {
      WantedIsMissed(after, rs[|rs| - 1], t.writers[k]);
    } else {
      WrittenIsMissed(w, e.writer, e.message, e.fate);
      NextIsAfterMessage(w, e.writer, e.message, e.fate);
    }
  }

  lemma NextIsAfterMessage(w: World, k: Wid, m: Message, fate: WriteFate)
    requires Enabled(w, WriteMessage(k, m, fate))
    ensures Next(w, WriteMessage(k, m, fate)) == AfterMessage(w, k, m, fate)
  {
  }

  lemma HarmOverruns(w: World, e: Event)
    requires Enabled(w, e) && Harms(w, e)
    ensures Overruns(w, e) && !e.PowerLoss?
  {
    hide Records, Unended, Appending, Next;
  }

  lemma InvFile(w: World)
    requires Inv(w)
    ensures WellLinked(Records(w.text)) && F.BelowMax(Records(w.text)) && FileOk(w.text, Records(w.text))
  {
    hide WriterOk, ReplayOk, Records, WellLinked, F.BelowMax, F.HoldsLines, KeptOk;
  }

  lemma WrittenIsMissed(w: World, k: Wid, m: Message, fate: WriteFate)
    requires Inv(w) && Enabled(w, WriteMessage(k, m, fate)) && Overruns(w, WriteMessage(k, m, fate)) && fate.Written?
    ensures var t := AfterMessage(w, k, m, fate);
      k in t.writers && !WriterOk(Records(t.text), t.writers[k])
  {
    hide FileOk, Inv, Records, Unended, AfterMessage, Appending, WellLinked, Path, NextFree, ClaimCursor, KeptOk,
      MayFollow, F.BelowMax;
    var rs := Records(w.text);
    InvFile(w);
    FreeIdFits(rs);
    var after := MessageOnFile(w, k, m, fate);
    MessageText(w, k, m, fate);
    var (log, result) := Appending(w, k, m, fate);
    assert forall i :: 0 <= i < |after| ==> after[i] == rs[i];
    assert !Names(after, Some(result.value));
  }

  // ---------------------------------------------------------------------------------------
  // Safety over whole runs
  // ---------------------------------------------------------------------------------------

  predicate RunEnabled(w: World, es: seq<Event>)
    decreases |es|
  {
    es == [] || (Enabled(w, es[0]) && RunEnabled(Next(w, es[0]), es[1..]))
  }

  function Run(w: World, es: seq<Event>): World
    requires RunEnabled(w, es)
    decreases |es|
  {
    if es == [] then w else Run(Next(w, es[0]), es[1..])
  }

  ghost predicate NeverHarms(w: World, es: seq<Event>)
    requires RunEnabled(w, es)
    decreases |es|
  {
    es == [] || (!Harms(w, es[0]) && NeverHarms(Next(w, es[0]), es[1..]))
  }

  /** After every step of the run, every writer has on the file what it was promised. */
  ghost predicate HoldsThroughout(w: World, es: seq<Event>)
    requires RunEnabled(w, es)
    decreases |es|
  {
    Holds(w) && (es == [] || HoldsThroughout(Next(w, es[0]), es[1..]))
  }

  lemma {:induction false} RunKeepsInv(w: World, es: seq<Event>)
    requires Inv(w) && RunEnabled(w, es) && NeverHarms(w, es)
    ensures Inv(Run(w, es))
    decreases |es|
  {
    hide Inv, Enabled, Harms, Next;
    if es != [] {
      NextKeepsInv(w, es[0]);
      RunKeepsInv(Next(w, es[0]), es[1..]);
    }
  }

  lemma InvHolds(w: World)
    requires Inv(w)
    ensures Holds(w)
  {
    hide WriterOk, Records, ReplayOk;
    forall k | k in w.writers ensures WriterOk(Records(w.text), w.writers[k]) {
      assert KeptOk(w, Records(w.text), k);
    }
  }

  lemma {:induction false} HoldsExactly(w: World, es: seq<Event>)
    requires Inv(w) && RunEnabled(w, es)
    ensures HoldsThroughout(w, es) <==> NeverHarms(w, es)
    decreases |es|
  {
    hide Inv, Enabled, Harms, Next, Holds;
    InvHolds(w);
    if es != [] {
      if Harms(w, es[0]) {
        HarmBreaks(w, es[0]);
      } else {
        NextKeepsInv(w, es[0]);
        HoldsExactly(Next(w, es[0]), es[1..]);
      }
    }
  }

  lemma NewFileIsSound()
    ensures Inv(NewFile) && LocksOk(NewFile)
  {
    LinesReadBack([]);
    F.WholeLinesHeld([]);
  }

  /**
   Any number of processes, each with any number of writers of any lanes, append to one file, interleaved record by
   record; processes start, resume lanes, die anywhere and lose power; writes fail and are cut anywhere. Throughout the
   run, from the head of every writer the parents on the file spell the messages behind its first head and exactly those
   it acknowledged, in order, exactly when no step does harm.
   */
  lemma LanesHoldTheirMessages(es: seq<Event>)
    requires RunEnabled(NewFile, es)
    ensures HoldsThroughout(NewFile, es) <==> NeverHarms(NewFile, es)
    ensures NeverHarms(NewFile, es) ==>
              var w := Run(NewFile, es);
              forall k :: k in w.writers ==>
                var v := w.writers[k];
                Names(Records(w.text), v.head) && Path(Records(w.text), v.head) == v.start + v.acked
  {
    NewFileIsSound();
    HoldsExactly(NewFile, es);
    if NeverHarms(NewFile, es) {
      RunKeepsInv(NewFile, es);
      InvHolds(Run(NewFile, es));
    }
    hide Names, Path, Records, Run, HoldsThroughout, NeverHarms, RunEnabled, Inv;
  }

  /** A file that holds one record without its newline, and a writer of it. */
  ghost predicate HalfWritten(w: World, r: SessionRecord) {
    && w.text == Encode(r) && Records(w.text) == [r] && Unended(w.text)
    && Has(w, 0) && w.writers[0].call.NoCall? && ProcOf(w, 0).busy.None? && ProcOf(w, 0).cursor == 1
  }

  /** The only writer of an empty file, before its first message. */
  predicate Starting(w: World) {
    && w.text == "" && Has(w, 0) && w.writers[0].call.NoCall? && w.writers[0].head.None?
    && ProcOf(w, 0).busy.None? && ProcOf(w, 0).cursor == 0
  }

  lemma StartsUp(pid: Pid, l: LaneId)
    ensures Enabled(NewFile, Open(pid)) && Enabled(Next(NewFile, Open(pid)), Spawn(pid, l))
    ensures Starting(Next(Next(NewFile, Open(pid)), Spawn(pid, l)))
  {
    F.EmptyFileIsEmpty();
    hide Records, Path, Extent;
  }

  lemma FirstMessage(w: World, m: Message)
    requires Starting(w)
    ensures var r := MessageRecord(SessionEntry(0, None, m));
      var e := WriteMessage(0, m, Failed(|Encode(r)|));
      Enabled(w, e) && HalfWritten(Next(w, e), r)
  {
    hide Encode, Records, Extent, Reached, F.HoldsLines, F.LacksNewline, F.TornBehind, Unended, Lines, Appending;
    hide NextFree, Lasting;
    var r := MessageRecord(SessionEntry(0, None, m));
    FirstText(r);
    assert F.Repaired("") == "" by { F.EmptyFileIsEmpty(); }
    AppendingShape(w, 0, m, Failed(|Encode(r)|));
    assert "" + Encode(r) == Encode(r);
    NextIsAfterMessage(w, 0, m, Failed(|Encode(r)|));
  }

  lemma FirstText(r: SessionRecord)
    requires Storable(r)
    ensures Records("") == [] && NextFree([]) == 0 && Reached(Encode(r) + "\n", Failed(|Encode(r)|)) == Encode(r)
    ensures Records(Encode(r)) == [r] && Unended(Encode(r))
  {
    hide Encode, Records, Extent, Reached, F.HoldsLines, F.TornBehind, Unended, F.LacksNewline, Lines;
    F.EmptyFileIsEmpty();
    F.RecordAlone(r);
    F.HeldLines(Encode(r), [r]);
    F.HalfWritten(r);
  }

  lemma NextClaim(w: World, r: SessionRecord)
    requires HalfWritten(w, r) && r.MessageRecord? && r.entry.id == 0
    ensures ClaimCursor(Log(w.text, ProcOf(w, 0).cursor)) == 1 && NextFree(Records(w.text)) <= U64_MAX
  {
    hide Encode, Records, Extent, Unended;
    F.RecordSound(r);
  }

  lemma SecondMessageHarms(w: World, r: SessionRecord, m: Message)
    requires HalfWritten(w, r) && r.MessageRecord? && r.entry.id == 0
    ensures Enabled(w, WriteMessage(0, m, Written)) && Harms(w, WriteMessage(0, m, Written))
  {
    hide Encode, Records, Extent, Reached, Unended, ClaimCursor, NextFree, Appending, Next;
    NextClaim(w, r);
    AppendingShape(w, 0, m, Written);
  }

  lemma RunStep(w: World, e: Event, es: seq<Event>)
    requires Enabled(w, e)
    ensures RunEnabled(w, [e] + es) <==> RunEnabled(Next(w, e), es)
    ensures RunEnabled(w, [e] + es) && NeverHarms(w, [e] + es) ==> !Harms(w, e) && NeverHarms(Next(w, e), es)
  {
    hide Enabled, Next, Harms;
    assert ([e] + es)[1..] == es;
  }

  /** A run that does harm: a write cut exactly between JSON and newline, and a message acknowledged behind it. */
  lemma HarmRun(pid: Pid, l: LaneId, m1: Message, m2: Message)
    ensures var cut := |Encode(MessageRecord(SessionEntry(0, None, m1)))|;
      var es := [Open(pid), Spawn(pid, l), WriteMessage(0, m1, Failed(cut)), WriteMessage(0, m2, Written)];
      RunEnabled(NewFile, es) && !HoldsThroughout(NewFile, es)
  {
    hide *;
    var r := MessageRecord(SessionEntry(0, None, m1));
    var a, b, c, d := Open(pid), Spawn(pid, l), WriteMessage(0, m1, Failed(|Encode(r)|)), WriteMessage(0, m2, Written);
    StartsUp(pid, l);
    var w1 := Next(NewFile, a);
    var w2 := Next(w1, b);
    FirstMessage(w2, m1);
    var w3 := Next(w2, c);
    SecondMessageHarms(w3, r, m2);
    NoStep(Next(w3, d));
    RunStep(w3, d, []);
    RunStep(w2, c, [d] + []);
    RunStep(w1, b, [c] + ([d] + []));
    RunStep(NewFile, a, [b] + ([c] + ([d] + [])));
    NewFileIsSound();
    assert [a] + ([b] + ([c] + ([d] + []))) == [a, b, c, d];
    HoldsExactly(NewFile, [a, b, c, d]);
  }

  lemma NoStep(w: World)
    ensures RunEnabled(w, [])
  {
  }

  /**
   The replayed head of a lane whose last head record was written by a living writer: it is the head that writer has in
   memory, exactly when the head has not moved, or tried to, without such a record.
   */
  lemma WriterReplays(es: seq<Event>, k: Wid)
    requires RunEnabled(NewFile, es) && NeverHarms(NewFile, es) && k in Run(NewFile, es).writers
    ensures var w := Run(NewFile, es);
      var v, heads := w.writers[k], ReplayHeads(Records(w.text));
      v.lane in w.last && w.last[v.lane] == k ==> v.lane in heads && (heads[v.lane] == v.head <==> !v.ahead)
  {
    NewFileIsSound();
    RunKeepsInv(NewFile, es);
    var w := Run(NewFile, es);
    assert KeptOk(w, Records(w.text), k);
    hide Run, RunEnabled, NeverHarms, WriterOk, Records, FileOk, ReplayHeads;
  }

  /**
   The file itself: ids are distinct and ascending, every parent and every head names an earlier message, in every
   prefix a replayed head lives in that prefix, and the file loads exactly when at most one message has no parent.
   */
  lemma FileStaysLinked(es: seq<Event>, n: nat, l: LaneId)
    requires RunEnabled(NewFile, es) && NeverHarms(NewFile, es) && n <= |Records(Run(NewFile, es).text)|
    ensures var rs := Records(Run(NewFile, es).text);
      && WellLinked(rs) && F.DistinctIds(rs) && F.BelowMax(rs)
      && (l in ReplayHeads(rs[..n]) ==> Names(rs[..n], ReplayHeads(rs[..n])[l]))
      && (WellFormed(Entries(rs[..n])) <==> AtMostOneRoot(Entries(rs[..n])))
  {
    NewFileIsSound();
    RunKeepsInv(NewFile, es);
    var rs := Records(Run(NewFile, es).text);
    ReplayedHeadsLive(rs, n, l);
    PrefixLinked(rs, n);
    LaneLogReduces(rs[..n]);
    LinkedIsDistinct(rs);
  }

  lemma {:induction false} LinkedIsDistinct(rs: seq<SessionRecord>)
    requires WellLinked(rs)
    ensures F.DistinctIds(rs)
    decreases |rs|
  {
    if rs != [] {
      var n := |rs| - 1;
      LinkedIsDistinct(rs[..n]);
      forall i, j | 0 <= i < j < |rs| && rs[i].MessageRecord? && rs[j].MessageRecord?
        ensures rs[i].entry.id != rs[j].entry.id
      {
        assert rs[..n][i] == rs[i];
        if j < n { assert rs[..n][j] == rs[j]; }
      }
    }
  }

  // ---------------------------------------------------------------------------------------
  // What each step does
  // ---------------------------------------------------------------------------------------

  /**
   The writer has nothing in progress and nothing acknowledged, and starts at this head with these messages behind it.
   */
  predicate StartsAt(w: World, v: Writer, pid: Pid, l: LaneId, at: Option<NodeId>, behind: seq<Message>) {
    && v.pid == pid && v.lane == l && v.birth == at && v.head == at && v.call.NoCall? && v.acked == []
    && Path(Records(w.text), v.head) == behind && v.start == behind
  }

  /**
   A forked writer stands where its source stands: from its head the parents on the file spell what they spell from the
   source's, the messages behind the first head of the source and those it acknowledged.
   */
  lemma ForkStartsAtSource(w: World, from: Wid, l: LaneId)
    requires Inv(w) && Enabled(w, Fork(from, l))
    ensures var t, source := Next(w, Fork(from, l)), w.writers[from];
      && w.made !in w.writers && w.made in t.writers && t.text == w.text
      && StartsAt(t, t.writers[w.made], source.pid, l, source.head, source.start + source.acked)
  {
    hide Inv, Records, Path, Names, FileOk, ReplayOk;
    WriterFacts(w, from);
    if w.made in w.writers { WriterFacts(w, w.made); }
  }

  /** A spawned writer starts with nothing behind it; a resumed one at the head it is given, which the file has. */
  lemma NewWriterStarts(w: World, pid: Pid, l: LaneId, at: Option<NodeId>)
    requires Inv(w) && pid in w.procs
    ensures Enabled(w, Spawn(pid, l))
    ensures var t := Next(w, Spawn(pid, l));
      w.made !in w.writers && w.made in t.writers && t.text == w.text
          && StartsAt(t, t.writers[w.made], pid, l, None, [])
    ensures Enabled(w, Resume(pid, l, at)) <==> Names(Records(w.text), at)
    ensures Enabled(w, Resume(pid, l, at)) ==>
              var t := Next(w, Resume(pid, l, at));
              && w.made in t.writers && t.text == w.text
              && StartsAt(t, t.writers[w.made], pid, l, at, Path(Records(w.text), at))
  {
    if w.made in w.writers { WriterFacts(w, w.made); }
    hide Inv, Records, Names, FileOk, ReplayOk;
  }

  /**
   Which writers are left after a step, and what it changes of them: a writer goes when it is dropped, when its process
   dies, or with the power; its head moves only when its own head record is acknowledged, and then to the message just
   written, which counts as acknowledged.
   */
  lemma OnlyOwnHeadMovesWriter(w: World, e: Event, k: Wid)
    requires Enabled(w, e) && k in w.writers && k < w.made
    ensures var t, v := Next(w, e), w.writers[k];
      && (k in t.writers <==> e != Drop(k) && e != Die(v.pid) && !e.PowerLoss?)
      && (k in t.writers ==>
            var v' := t.writers[k];
            && v'.pid == v.pid && v'.lane == v.lane && v'.birth == v.birth && v'.start == v.start
            && if e == WriteHead(k, Written) then
                 v'.head == Some(v.call.id) && v'.acked == v.acked + [v.call.message] && v'.call.NoCall?
               else v'.head == v.head && v'.acked == v.acked)
  {
    hide Records, Lasting, Appending, AppendedHead, Path, Names;
  }

  /** The write lock of a process is held exactly by its writer that stands between its two records. */
  ghost predicate LocksOk(w: World) {
    && (forall k :: k in w.writers ==> Has(w, k) && k < w.made)
    && (forall k :: k in w.writers ==> (w.writers[k].call.MessageWritten? <==> ProcOf(w, k).busy == Some(k)))
    && (forall pid, k :: pid in w.procs && w.procs[pid].busy == Some(k) ==> k in w.writers && w.writers[k].pid == pid)
  }

  lemma WroteKeepsLocks(w: World, k: Wid, text: string, p: Proc, v: Writer)
    requires LocksOk(w) && Has(w, k) && v.pid == w.writers[k].pid && (v.call.MessageWritten? <==> p.busy == Some(k))
    requires ProcOf(w, k).busy == Some(k) || ProcOf(w, k).busy.None?
    requires p.busy == Some(k) || p.busy.None?
    ensures LocksOk(Wrote(w, k, text, p, v))
  {
    hide Records, Lasting;
  }

  lemma MessageKeepsLocks(w: World, k: Wid, m: Message, fate: WriteFate)
    requires LocksOk(w) && Enabled(w, WriteMessage(k, m, fate))
    ensures LocksOk(AfterMessage(w, k, m, fate))
  {
    hide LocksOk, Appending, Wrote;
    var p, v := ProcOf(w, k), w.writers[k];
    var (log, result) := Appending(w, k, m, fate);
    if result.Err? {
      WroteKeepsLocks(w, k, log.text, p.(cursor := log.cursor), v);
    } else {
      var v' := v.(call := MessageWritten(result.value, m));
      WroteKeepsLocks(w, k, log.text, p.(cursor := log.cursor, busy := Some(k)), v');
    }
  }

  lemma HeadKeepsLocks(w: World, k: Wid, fate: WriteFate)
    requires LocksOk(w) && Enabled(w, WriteHead(k, fate))
    ensures LocksOk(AfterHead(w, k, fate))
  {
    hide LocksOk, Wrote, Landed, AppendedHead;
    var p, v := ProcOf(w, k), w.writers[k];
    var text := AppendedHead(w.text, v.lane, Some(v.call.id), fate);
    var v' := Finished(v, fate.Written?, Landed(w, text));
    WroteKeepsLocks(w, k, text, Committing(p.(busy := None), v.lane, fate), v');
  }

  lemma InitialKeepsLocks(w: World, k: Wid, fate: WriteFate)
    requires LocksOk(w) && Enabled(w, WriteInitial(k, fate))
    ensures LocksOk(AfterInitial(w, k, fate))
  {
    IdleIsFree(w, k);
    hide LocksOk, Wrote, Landed, AppendedHead;
    var p, v := ProcOf(w, k), w.writers[k];
    var text := AppendedHead(w.text, v.lane, v.birth, fate);
    if v.lane !in p.committed {
      WroteKeepsLocks(w, k, text, Committing(p, v.lane, fate), v.(ahead := v.ahead && !Landed(w, text)));
    }
  }

  lemma BornKeepsLocks(w: World, pid: Pid, l: LaneId, at: Option<NodeId>)
    requires LocksOk(w) && pid in w.procs
    ensures LocksOk(Born(w, pid, l, at))
  {
    hide Records, Path;
  }

  lemma DroppedKeepsLocks(w: World, k: Wid)
    requires LocksOk(w) && Has(w, k)
    ensures LocksOk(Dropped(w, k))
  {
  }

  lemma DeadKeepsLocks(w: World, pid: Pid)
    requires LocksOk(w) && pid in w.procs
    ensures LocksOk(Dead(w, pid))
  {
  }

  /** A process comes, or moves its cursor. */
  lemma ProcsKeepLocks(w: World, e: Event)
    requires LocksOk(w) && Enabled(w, e) && (e.Open? || e.Load?)
    ensures LocksOk(Next(w, e))
  {
    hide Records, NextFree, ClaimCursor;
  }

  lemma StepKeepsLocks(w: World, e: Event)
    requires LocksOk(w) && Enabled(w, e)
    ensures LocksOk(Next(w, e))
  {
    hide LocksOk, AfterMessage, AfterHead, AfterInitial, Born, Dropped, Dead, Records, Names, NextFree, ClaimCursor;
    match e
    case WriteMessage(k, m, fate) => MessageKeepsLocks(w, k, m, fate);
    case WriteHead(k, fate) => HeadKeepsLocks(w, k, fate);
    case WriteInitial(k, fate) => InitialKeepsLocks(w, k, fate);
    case Spawn(pid, l) => BornKeepsLocks(w, pid, l, None);
    case Fork(from, l) => BornKeepsLocks(w, w.writers[from].pid, l, w.writers[from].head);
    case Resume(pid, l, at) => BornKeepsLocks(w, pid, l, at);
    case Drop(k) => DroppedKeepsLocks(w, k);
    case Die(pid) => DeadKeepsLocks(w, pid);
    case PowerLoss(kept) => NobodyKeepsLocks(w, kept);
    case _ => ProcsKeepLocks(w, e);
  }

  lemma NobodyKeepsLocks(w: World, kept: nat)
    requires kept <= |Records(w.text)|
    ensures LocksOk(Restarted(w, kept))
  {
  }

  lemma IdleIsFree(w: World, k: Wid)
    requires LocksOk(w) && k in w.writers && Has(w, k) && ProcOf(w, k).busy.None?
    ensures w.writers[k].call.NoCall?
  {
  }

  /**
   Over every run, harmless or not: a writer between its two records holds the write lock of its process and can write
   its head, and when no writer is, the lock is free for all of them.
   */
  lemma {:induction false} LocksAreGivenBack(w: World, es: seq<Event>)
    requires LocksOk(w) && RunEnabled(w, es)
    ensures var t := Run(w, es);
      && LocksOk(t)
      && (forall k, fate :: k in t.writers && t.writers[k].call.MessageWritten? ==> Enabled(t, WriteHead(k, fate)))
      && (forall pid :: pid in t.procs && t.procs[pid].busy.Some? ==>
            && t.procs[pid].busy.value in t.writers && t.writers[t.procs[pid].busy.value].call.MessageWritten?)
    decreases |es|
  {
    if es == [] {
      hide Records;
    } else {
      hide Enabled, Next, LocksOk;
      StepKeepsLocks(w, es[0]);
      LocksAreGivenBack(Next(w, es[0]), es[1..]);
    }
  }

  /** A process is there until it dies or the power is lost; the others keep theirs. */
  lemma ProcessesStay(w: World, e: Event, pid: Pid)
    requires Enabled(w, e)
    ensures pid in Next(w, e).procs <==>
              (pid in w.procs || e == Open(pid)) && e != Die(pid) && !e.PowerLoss?
    ensures e.Load? && e.pid == pid ==>
              var cursor := Next(w, e).procs[pid].cursor;
              && NextFree(Records(w.text)) <= cursor && w.procs[pid].cursor <= cursor
              && (cursor == NextFree(Records(w.text)) || cursor == w.procs[pid].cursor)
    ensures e == Open(pid) ==> Next(w, e).procs[pid] == Proc(NextFree(Records(w.text)), {}, None)
    ensures Inv(w) ==> (Enabled(w, Open(pid)) <==> pid !in w.procs) && (Enabled(w, Load(pid)) <==> pid in w.procs)
  {
    hide Records, Lasting, Appending, AppendedHead, Path, Names;
    if Inv(w) {
      InvFile(w);
      FreeIdFits(Records(w.text));
    }
  }

  /** The file is of whole lines, with nothing torn or unended behind them. */
  predicate Whole(text: string) {
    Extent(text) == |text| && !Unended(text)
  }

  /**
   An acknowledged message is the last record of the file, under a new id and behind the head of its writer, which then
   holds the write lock of its process for the head; a failed or refused one leaves the writer free.
   */
  lemma MessageLands(w: World, k: Wid, m: Message, fate: WriteFate)
    requires Inv(w) && Enabled(w, WriteMessage(k, m, fate)) && !Overruns(w, WriteMessage(k, m, fate))
    ensures var t, rs, head := AfterMessage(w, k, m, fate), Records(w.text), w.writers[k].head;
      && Has(t, k)
      && if fate.Written? && ClaimCursor(Log(w.text, ProcOf(w, k).cursor)) < U64_MAX then
           && t.writers[k].call.MessageWritten? && t.writers[k].call.message == m && ProcOf(t, k).busy == Some(k)
           && NextFree(rs) <= t.writers[k].call.id
           && Records(t.text) == rs + [MessageRecord(SessionEntry(t.writers[k].call.id, head, m))]
         else t.writers[k] == w.writers[k] && ProcOf(t, k).busy.None?
  {
    hide Inv, Records, NextFree, Unended, FileOk, MayFollow, Encode, Reached, Lasting, Names, Path, Extent, F.BelowMax,
      WriterOk, ReplayOk, KeptOk, StepOf, F.Repaired, Appended, ClaimCursor;
    WriterFacts(w, k);
    ClaimFits(w, k, m);
    AppendingShape(w, k, m, fate);
    var after := MessageOnFile(w, k, m, fate);
  }

  /** An acknowledged head on a whole file is its last record, and its lane counts as committed in this process. */
  lemma HeadLands(w: World, k: Wid, fate: WriteFate)
    requires Inv(w) && Enabled(w, WriteHead(k, fate)) && Whole(w.text)
    ensures var t, v := AfterHead(w, k, fate), w.writers[k];
      && Has(t, k) && ProcOf(t, k).busy.None? && t.writers[k].call.NoCall?
      && (fate.Written? ==>
            && Records(t.text) == Records(w.text) + [HeadRecord(v.lane, Some(v.call.id))]
            && ReplayHeads(Records(t.text))[v.lane] == t.writers[k].head
            && ProcOf(t, k).committed == ProcOf(w, k).committed + {v.lane})
      && (fate.Failed? ==> ProcOf(t, k).committed == ProcOf(w, k).committed)
  {
    hide Inv, Records, FileOk, MayFollow, Encode, Reached, Lasting, Names, Path, Extent, F.BelowMax, WriterOk, ReplayOk,
      KeptOk, StepOf, ReplayHeads, Unended, WellLinked;
    HeadsNamed(w, k);
    WriterFacts(w, k);
    if fate.Written? { WholeHead(w, w.writers[k].lane, Some(w.writers[k].call.id), fate); }
  }

  lemma WholeHead(w: World, l: LaneId, head: Option<NodeId>, fate: WriteFate)
    requires FileOk(w.text, Records(w.text)) && Names(Records(w.text), head) && Whole(w.text) && fate.Written?
    ensures var rs := Records(AppendedHead(w.text, l, head, fate));
      rs == Records(w.text) + [HeadRecord(l, head)] && l in ReplayHeads(rs) && ReplayHeads(rs)[l] == head
  {
    FileParts(w.text, Records(w.text));
    NamesFit(Records(w.text), head);
    hide FileOk, Encode, Names, Records, Extent, Unended, Reached;
    var after := LineOnFile(w.text, Records(w.text), HeadRecord(l, head), fate);
    Snoc(Records(w.text), HeadRecord(l, head));
  }

  /** An initial head is written only while none of the lane is committed in this process, and then it is the birth. */
  lemma InitialLands(w: World, k: Wid, fate: WriteFate)
    requires Inv(w) && Enabled(w, WriteInitial(k, fate)) && Whole(w.text)
    ensures var t, v := AfterInitial(w, k, fate), w.writers[k];
      if v.lane in ProcOf(w, k).committed then t == w
      else
        && Has(t, k)
        && (fate.Written? ==>
              && Records(t.text) == Records(w.text) + [HeadRecord(v.lane, v.birth)]
              && ReplayHeads(Records(t.text))[v.lane] == v.birth == v.head
              && ProcOf(t, k).committed == ProcOf(w, k).committed + {v.lane})
        && (fate.Failed? ==> ProcOf(t, k).committed == ProcOf(w, k).committed)
  {
    hide Inv, Records, FileOk, MayFollow, Encode, Reached, Lasting, Names, Path, Extent, F.BelowMax, WriterOk, ReplayOk,
      KeptOk, StepOf, ReplayHeads, Unended, WellLinked;
    HeadsNamed(w, k);
    WriterFacts(w, k);
    if fate.Written? { WholeHead(w, w.writers[k].lane, w.writers[k].birth, fate); }
  }

  /** After a power loss the file holds the first records, as many as were kept, and nobody is there. */
  lemma PowerLossKeeps(w: World, kept: nat)
    requires kept <= |Records(w.text)| && Inv(w)
    ensures var t := Restarted(w, kept);
      Records(t.text) == Records(w.text)[..kept] && Whole(t.text) && t.procs == map[] && t.writers == map[]
  {
    hide Inv, Records, Extent, Unended, Lines, F.HoldsLines, F.BelowMax, WellLinked;
    InvFile(w);
    FileParts(w.text, Records(w.text));
    PowerLossKeepsInv(w, kept);
    StorablePrefix(w.text, Records(w.text), kept);
    F.WholeLinesHeld(Records(w.text)[..kept]);
  }

  /** With nobody in between, the two holds of an append are one combined commit of the shared storage. */
  lemma HoldsMakeCommit(w: World, k: Wid, m: Message, messageFate: WriteFate, headFate: WriteFate)
    requires Enabled(w, WriteMessage(k, m, messageFate))
    ensures var p, v := ProcOf(w, k), w.writers[k];
      var after :=
        CombinedCommit(Log(w.text, p.cursor), true, true, p.committed, v.lane, v.head, m, messageFate, headFate);
      var t := AfterMessage(w, k, m, messageFate);
      && Has(t, k)
      && if Appending(w, k, m, messageFate).1.Err? then
           && t.text == after.log.text && ProcOf(t, k).cursor == after.log.cursor
           && ProcOf(t, k).committed == after.committed
         else
           && Enabled(t, WriteHead(k, headFate))
           && var u := AfterHead(t, k, headFate);
              && Has(u, k) && u.text == after.log.text && ProcOf(u, k).cursor == after.log.cursor
              && ProcOf(u, k).committed == after.committed
              && u.writers[k].head == if after.result.Ok? then Some(after.result.value) else v.head
  {
    hide Appended, AppendedHead, Records, Lasting;
  }
}
