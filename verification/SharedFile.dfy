/**
 Several processes appending to one session file in locked mode. Each message append is one
 critical section (lock, re-read, raise the cursor, claim, write), so a run is a sequence of
 whole operations in any order, each of which may fail part-way through its write.
 */
module SharedFile {
  import opened Wrappers
  import opened SessionTree
  import opened RecordCodec
  import opened LogText

  type Pid = nat

  /**
   The file, the id cursor of every process that has it open, and, in order, the messages acknowledged so far and the
   lane heads acknowledged where nothing torn stood before them.
   */
  datatype World = World(text: string, cursors: map<Pid, nat>, acked: seq<SessionRecord>)

  datatype Event =
    | Open(pid: Pid)
    | Message(pid: Pid, parent: Option<NodeId>, message: string, fate: WriteFate)
    | Head(lane: LaneId, head: Option<NodeId>, fate: WriteFate)
    | Load(pid: Pid)
    | Exit(pid: Pid)

  function Next(w: World, e: Event): World {
    match e
    case Open(pid) =>
      var floor := NextFree(Records(w.text));
      if floor > U64_MAX then w else w.(cursors := w.cursors[pid := floor])
    case Message(pid, parent, message, fate) =>
      if pid !in w.cursors then w
      else
        var (log, result) := Appended(Log(w.text, w.cursors[pid]), true, parent, message, fate);
        World(log.text, w.cursors[pid := log.cursor],
              if result.Ok? then w.acked + [MessageRecord(SessionEntry(result.value, parent, message))] else w.acked)
    case Head(lane, head, fate) =>
      World(AppendedHead(w.text, lane, head, fate), w.cursors,
            if fate.Written? && Extent(w.text) == |w.text| then w.acked + [HeadRecord(lane, head)] else w.acked)
    case Load(pid) =>
      var floor := NextFree(Records(w.text));
      if pid !in w.cursors || floor > U64_MAX || floor <= w.cursors[pid] then w
      else w.(cursors := w.cursors[pid := floor])
    case Exit(pid) => w.(cursors := w.cursors - {pid})
  }

  /** The ids a caller passes fit u64. */
  predicate IdsFit(e: Event) {
    match e
    case Message(_, parent, _, _) => Fits(parent)
    case Head(_, head, _) => Fits(head)
    case _ => true
  }

  /** The operation writes right behind a record that has no newline yet. */
  predicate Overruns(w: World, e: Event) {
    match e
    case Message(pid, _, _, fate) => Unended(w.text) && fate != Failed(0) && pid in w.cursors
        && ClaimCursor(Log(w.text, w.cursors[pid])) < U64_MAX
    case Head(_, _, fate) => Unended(w.text) && fate != Failed(0)
    case _ => false
  }

  function Run(w: World, es: seq<Event>): World
    decreases |es|
  {
    if es == [] then w else Run(Next(w, es[0]), es[1..])
  }

  predicate NeverOverruns(w: World, es: seq<Event>)
    decreases |es|
  {
    es == [] || (!Overruns(w, es[0]) && NeverOverruns(Next(w, es[0]), es[1..]))
  }

  /** No operation of the run takes a record away that could be read before it. */
  predicate NeverLoses(w: World, es: seq<Event>)
    decreases |es|
  {
    es == [] || (Records(w.text) <= Records(Next(w, es[0]).text) && NeverLoses(Next(w, es[0]), es[1..]))
  }

  // ---------------------------------------------------------------------------------------
  // The invariant
  // ---------------------------------------------------------------------------------------

  /** `a` is a subsequence of `b`. */
  ghost predicate Within<T(!new)>(a: seq<T>, b: seq<T>)
    decreases |b|
  {
    || a == []
    || (b != [] && Within(a, b[..|b| - 1]))
    || (b != [] && a != [] && a[|a| - 1] == b[|b| - 1] && Within(a[..|a| - 1], b[..|b| - 1]))
  }

  ghost predicate DistinctIds(rs: seq<SessionRecord>) {
    forall i, j :: 0 <= i < j < |rs| && rs[i].MessageRecord? && rs[j].MessageRecord?
        ==> rs[i].entry.id != rs[j].entry.id
  }

  ghost predicate BelowMax(rs: seq<SessionRecord>) {
    forall r :: r in rs && r.MessageRecord? ==> r.entry.id < U64_MAX
  }

  /** A torn line, with whatever was written behind it, follows the lines. */
  ghost predicate TornBehind(text: string, rs: seq<SessionRecord>) {
    exists tail :: Broken(tail) && text == Lines(rs) + tail
  }

  /** Only the newline of the last record is missing. */
  predicate LacksNewline(text: string, rs: seq<SessionRecord>) {
    rs != [] && text == Lines(rs[..|rs| - 1]) + Encode(rs[|rs| - 1])
  }

  /** The records as whole lines; or the last one without its newline; or something torn behind them. */
  ghost predicate HoldsLines(text: string, rs: seq<SessionRecord>) {
    AllStorable(rs) && (text == Lines(rs) || LacksNewline(text, rs) || TornBehind(text, rs))
  }

  ghost predicate Inv(w: World) {
    && (forall pid :: pid in w.cursors ==> w.cursors[pid] <= U64_MAX)
    && HoldsLines(w.text, Records(w.text)) && DistinctIds(Records(w.text)) && BelowMax(Records(w.text))
  }

  /** Everything acknowledged can be read, in order. */
  ghost predicate Kept(w: World) {
    Within(w.acked, Records(w.text))
  }

  /** Adding a record with a fresh id keeps ids distinct and small. */
  lemma IdsGrow(rs: seq<SessionRecord>, r: SessionRecord)
    requires DistinctIds(rs) && BelowMax(rs)
    requires r.MessageRecord? ==> NextFree(rs) <= r.entry.id < U64_MAX
    ensures DistinctIds(rs + [r]) && BelowMax(rs + [r])
  {
    NextFreeBounds(rs);
    forall i, j | 0 <= i < j < |rs + [r]| && (rs + [r])[i].MessageRecord? && (rs + [r])[j].MessageRecord?
      ensures (rs + [r])[i].entry.id != (rs + [r])[j].entry.id
    {
      assert rs[i] in rs;
    }
  }

  lemma IdsShrink(rs: seq<SessionRecord>)
    requires rs != [] && DistinctIds(rs) && BelowMax(rs)
    ensures DistinctIds(rs[..|rs| - 1]) && BelowMax(rs[..|rs| - 1])
  {
    assert forall r :: r in rs[..|rs| - 1] ==> r in rs;
  }

  lemma LinesEnd(rs: seq<SessionRecord>)
    ensures Lines(rs) == "" || Lines(rs)[|Lines(rs)| - 1] == '\n'
  {
    if rs == [] {
      LinesReadBack(rs);
    } else {
      assert rs == rs[..|rs| - 1] + [rs[|rs| - 1]];
      LinesSnoc(rs[..|rs| - 1], rs[|rs| - 1]);
    }
  }

  lemma UnendedReads(text: string, rs: seq<SessionRecord>)
    requires AllStorable(rs) && LacksNewline(text, rs)
    ensures Records(text) == rs && Unended(text) && text != Lines(rs)
  {
    hide Lines, Records, Extent, Encode, Storable;
    var front, last := rs[..|rs| - 1], rs[|rs| - 1];
    StorableParts(rs);
    hide AllStorable;
    UnendedLine(front, last);
    RecordEnd(last);
    LinesEnd(rs);
    EndsDiffer(Lines(front), Encode(last), Lines(rs));
  }

  lemma StorableParts(rs: seq<SessionRecord>)
    requires rs != [] && AllStorable(rs)
    ensures rs == rs[..|rs| - 1] + [rs[|rs| - 1]] && AllStorable(rs[..|rs| - 1]) && Storable(rs[|rs| - 1])
  {
    assert forall r :: r in rs[..|rs| - 1] ==> r in rs;
  }

  lemma EndsDiffer(a: string, b: string, c: string)
    requires b != "" && b[|b| - 1] != '\n' && (c == "" || c[|c| - 1] == '\n')
    ensures a + b != c && a + b != "" && (a + b)[|a + b| - 1] != '\n'
  {
    assert (a + b)[|a + b| - 1] == b[|b| - 1];
  }

  lemma UnendedLine(rs: seq<SessionRecord>, r: SessionRecord)
    requires AllStorable(rs) && Storable(r)
    ensures Records(Lines(rs) + Encode(r)) == rs + [r] && Extent(Lines(rs) + Encode(r)) == |Lines(rs) + Encode(r)|
  {
    RecordEnd(r);
    hide Encode, Lines, Records, Extent;
    CutFileRecovers(rs, r, |Encode(r)|);
  }

  lemma RecordEnd(r: SessionRecord)
    ensures Encode(r) != "" && Encode(r)[|Encode(r)| - 1] != '\n' && (Encode(r) + "\n")[..|Encode(r)|] == Encode(r)
  {
    EncodeOneLine(r);
    assert Encode(r)[|Encode(r)| - 1] in Encode(r);
  }

  lemma TornReads(text: string, rs: seq<SessionRecord>)
    requires AllStorable(rs) && TornBehind(text, rs)
    ensures Records(text) == rs && Extent(text) < |text| && text[..Extent(text)] == Lines(rs)
  {
    var tail :| Broken(tail) && text == Lines(rs) + tail;
    BrokenReads(rs, tail);
    hide Encode, Lines, Records, Extent, Broken;
  }

  lemma HeldLines(text: string, rs: seq<SessionRecord>)
    requires HoldsLines(text, rs)
    ensures Records(text) == rs
    ensures Unended(text) <==> LacksNewline(text, rs)
    ensures Extent(text) == |text| <==> text == Lines(rs) || Unended(text)
    ensures text[..Extent(text)] == if Unended(text) then text else Lines(rs)
  {
    LinesReadBack(rs);
    LinesEnd(rs);
    if LacksNewline(text, rs) {
      UnendedReads(text, rs);
      hide Encode, Lines, Records, Extent, LacksNewline;
      assert text[..|text|] == text;
    } else if text == Lines(rs) {
      hide Encode, Lines, Records, Extent, LacksNewline;
      assert text[..|text|] == text;
    } else {
      hide Encode, Lines, Records, LacksNewline;
      TornReads(text, rs);
    }
  }

  lemma WholeLinesHeld(rs: seq<SessionRecord>)
    requires AllStorable(rs)
    ensures HoldsLines(Lines(rs), rs) && !Unended(Lines(rs)) && Extent(Lines(rs)) == |Lines(rs)|
  {
    LinesEnd(rs);
    LinesReadBack(rs);
  }

  /** Writing a line behind whole lines adds the whole record or nothing. */
  lemma WriteBehindLines(rs: seq<SessionRecord>, r: SessionRecord, fate: WriteFate)
    requires AllStorable(rs) && Storable(r)
    ensures var text := Lines(rs) + Reached(Encode(r) + "\n", fate);
      if fate.Failed? && fate.reached < |Encode(r)| then HoldsLines(text, rs) else HoldsLines(text, rs + [r])
  {
    var line := Encode(r) + "\n";
    if fate.Failed? && fate.reached < |Encode(r)| {
      assert line[..fate.reached] == Encode(r)[..fate.reached];
      if fate.reached == 0 {
        assert Lines(rs) + line[..0] == Lines(rs);
      } else {
        TornIsBroken(r, fate.reached);
      }
    } else if fate == Failed(|Encode(r)|) {
      assert line[..fate.reached] == Encode(r);
      assert (rs + [r])[..|rs|] == rs;
    } else {
      LinesSnoc(rs, r);
      WholeLinesHeld(rs + [r]);
    }
  }

  /** Writing anything behind a torn line adds nothing. */
  lemma WriteBehindTorn(text: string, rs: seq<SessionRecord>, r: SessionRecord, fate: WriteFate)
    requires AllStorable(rs) && TornBehind(text, rs) && Storable(r)
    ensures TornBehind(text + Reached(Encode(r) + "\n", fate), rs)
  {
    var tail :| Broken(tail) && text == Lines(rs) + tail;
    var more := Reached(Encode(r) + "\n", fate);
    BrokenGrows(tail, r, fate);
    hide Lines, Encode, Reached, Broken;
    Assoc(Lines(rs), tail, more);
  }

  /** Writing anything behind a record without its newline adds nothing and takes that record away. */
  lemma WriteBehindRecord(text: string, rs: seq<SessionRecord>, r: SessionRecord, fate: WriteFate)
    requires AllStorable(rs) && LacksNewline(text, rs) && Storable(r) && fate != Failed(0)
    ensures AllStorable(rs[..|rs| - 1]) && TornBehind(text + Reached(Encode(r) + "\n", fate), rs[..|rs| - 1])
  {
    var front, last := rs[..|rs| - 1], rs[|rs| - 1];
    var more := Reached(Encode(r) + "\n", fate);
    MoreBehindRecordIsBroken(last, r, fate);
    hide Lines, Encode, Reached, Broken;
    Assoc(Lines(front), Encode(last), more);
    assert forall x :: x in front ==> x in rs;
  }

  /** What is read once a line of this record was written behind a text. */
  function RecordsAfter(text: string, r: SessionRecord, fate: WriteFate): seq<SessionRecord> {
    var rs := Records(text);
    if fate == Failed(0) then rs
    else if Unended(text) then (if rs == [] then rs else rs[..|rs| - 1])
    else if Extent(text) < |text| || (fate.Failed? && fate.reached < |Encode(r)|) then rs
    else rs + [r]
  }

  lemma WriteBehind(text: string, r: SessionRecord, fate: WriteFate)
    requires HoldsLines(text, Records(text)) && Storable(r)
    ensures var text' := text + Reached(Encode(r) + "\n", fate);
      HoldsLines(text', RecordsAfter(text, r, fate)) && Records(text') == RecordsAfter(text, r, fate)
  {
    var rs := Records(text);
    HeldLines(text, rs);
    WriteHolds(text, rs, r, fate);
    hide HoldsLines, Records, Encode, Reached, Extent, Unended, RecordsAfter;
    HeldLines(text + Reached(Encode(r) + "\n", fate), RecordsAfter(text, r, fate));
  }

  lemma TornIsHeld(text: string, rs: seq<SessionRecord>)
    requires AllStorable(rs) && TornBehind(text, rs)
    ensures HoldsLines(text, rs)
  {
  }

  lemma HeldKinds(text: string, rs: seq<SessionRecord>)
    requires HoldsLines(text, rs)
    ensures AllStorable(rs) && (text == Lines(rs) || LacksNewline(text, rs) || TornBehind(text, rs))
    ensures LacksNewline(text, rs) ==> rs != []
  {
  }

  lemma NothingReached(text: string, line: string)
    ensures text + Reached(line, Failed(0)) == text
  {
  }

  lemma WriteHolds(text: string, rs: seq<SessionRecord>, r: SessionRecord, fate: WriteFate)
    requires HoldsLines(text, rs) && rs == Records(text) && Storable(r)
    ensures HoldsLines(text + Reached(Encode(r) + "\n", fate), RecordsAfter(text, r, fate))
  {
    hide HoldsLines, Records, Lines, Encode, Extent, Unended, LacksNewline, TornBehind, Reached, AllStorable;
    HeldLines(text, rs);
    HeldKinds(text, rs);
    NothingReached(text, Encode(r) + "\n");
    if fate == Failed(0) {
    } else if Unended(text) {
      WriteBehindRecord(text, rs, r, fate);
      TornIsHeld(text + Reached(Encode(r) + "\n", fate), rs[..|rs| - 1]);
    } else if text == Lines(rs) {
      WriteBehindLines(rs, r, fate);
    } else {
      WriteBehindTorn(text, rs, r, fate);
      TornIsHeld(text + Reached(Encode(r) + "\n", fate), rs);
    }
  }

  lemma WithinGrows<T(!new)>(a: seq<T>, b: seq<T>, x: T)
    requires Within(a, b)
    ensures Within(a, b + [x]) && Within(a + [x], b + [x])
  {
    assert (b + [x])[..|b|] == b;
    assert (a + [x])[..|a|] == a;
  }

  lemma {:induction false} WithinMembers<T(!new)>(a: seq<T>, b: seq<T>)
    requires Within(a, b)
    ensures forall x :: x in a ==> x in b
    decreases |b|
  {
    if a != [] {
      assert b == b[..|b| - 1] + [b[|b| - 1]];
      assert a == a[..|a| - 1] + [a[|a| - 1]];
      if Within(a, b[..|b| - 1]) {
        WithinMembers(a, b[..|b| - 1]);
      } else {
        WithinMembers(a[..|a| - 1], b[..|b| - 1]);
      }
    }
  }

  /** The text a message append finds once it has cut off what is torn. */
  function Repaired(text: string): string {
    text[..Extent(text)]
  }

  lemma RepairHolds(text: string)
    requires HoldsLines(text, Records(text))
    ensures HoldsLines(Repaired(text), Records(text)) && Records(Repaired(text)) == Records(text)
    ensures (Unended(Repaired(text)) <==> Unended(text)) && Extent(Repaired(text)) == |Repaired(text)|
  {
    var rs := Records(text);
    HeldLines(text, rs);
    WholeLinesHeld(rs);
    HeldLines(Lines(rs), rs);
  }

  /** A message append that gets to its write, and one that does not. */
  lemma MessageEffect(w: World, e: Event)
    requires Inv(w) && e.Message? && e.pid in w.cursors
    ensures ClaimCursor(Log(w.text, w.cursors[e.pid])) <= U64_MAX
    ensures var n := ClaimCursor(Log(w.text, w.cursors[e.pid]));
      var r := MessageRecord(SessionEntry(n, e.parent, e.message));
      if n == U64_MAX then Next(w, e) == World(Repaired(w.text), w.cursors[e.pid := n], w.acked)
      else
        && NextFree(Records(w.text)) <= n
        && Next(w, e) == World(Repaired(w.text) + Reached(Encode(r) + "\n", e.fate), w.cursors[e.pid := n + 1],
                               if e.fate.Written? then w.acked + [r] else w.acked)
  {
    hide Encode, Records, Extent, HoldsLines, DistinctIds;
    NextFreeBounds(Records(w.text));
  }

  /** The records a write leaves: one less, the same, or one more; with no write behind anything torn it is one more. */
  lemma AfterIsSound(text: string, r: SessionRecord, fate: WriteFate)
    requires HoldsLines(text, Records(text)) && DistinctIds(Records(text)) && BelowMax(Records(text))
    requires r.MessageRecord? ==> NextFree(Records(text)) <= r.entry.id < U64_MAX
    ensures var rs, after := Records(text), RecordsAfter(text, r, fate);
      && DistinctIds(after) && BelowMax(after)
      && (rs <= after <==> !(Unended(text) && fate != Failed(0)))
      && (rs <= after ==> after == rs || after == rs + [r])
      && (fate.Written? && !Unended(text) && Extent(text) == |text| ==> after == rs + [r])
  {
    hide HoldsLines, Records, Encode, Extent, DistinctIds, BelowMax, Lines, LacksNewline, TornBehind, Unended, NextFree;
    var rs := Records(text);
    HeldLines(text, rs);
    HeldKinds(text, rs);
    IdsGrow(rs, r);
    if rs != [] { IdsShrink(rs); }
  }

  /** What an operation does to the records. */
  ghost predicate Effect(w: World, t: World, overruns: bool) {
    && Inv(t)
    && (Records(w.text) <= Records(t.text) <==> !overruns)
    && (!overruns && Kept(w) ==> Kept(t))
  }

  /** One line written behind a sound text, and acknowledged only where it can be. */
  lemma LineEffect(w: World, t: World, base: string, r: SessionRecord, fate: WriteFate)
    requires Inv(w) && HoldsLines(base, Records(w.text)) && Records(base) == Records(w.text)
    requires Storable(r) && (r.MessageRecord? ==> NextFree(Records(base)) <= r.entry.id < U64_MAX)
    requires t.text == base + Reached(Encode(r) + "\n", fate)
    requires forall pid :: pid in t.cursors ==> t.cursors[pid] <= U64_MAX
    requires t.acked == w.acked || (t.acked == w.acked + [r] && fate.Written? && Extent(base) == |base|)
    ensures Effect(w, t, Unended(base) && fate != Failed(0))
  {
    hide HoldsLines, Records, Encode, Reached, Extent, DistinctIds, BelowMax, RecordsAfter, Unended, Within, NextFree;
    var rs, after := Records(base), RecordsAfter(base, r, fate);
    WriteBehind(base, r, fate);
    AfterIsSound(base, r, fate);
    if !(Unended(base) && fate != Failed(0)) && Kept(w) {
      WithinGrows(w.acked, rs, r);
    }
  }

  lemma MessageKeepsInv(w: World, e: Event)
    requires Inv(w) && e.Message? && IdsFit(e)
    ensures Effect(w, Next(w, e), Overruns(w, e))
  {
    if e.pid in w.cursors {
      MessageEffect(w, e);
      RepairHolds(w.text);
      var n := ClaimCursor(Log(w.text, w.cursors[e.pid]));
      hide HoldsLines, Records, Encode, Reached, Extent, DistinctIds, BelowMax, Within, Next, NextFree, Unended;
      if n < U64_MAX {
        LineEffect(w, Next(w, e), Repaired(w.text), MessageRecord(SessionEntry(n, e.parent, e.message)), e.fate);
      }
    }
  }

  /**
   One operation keeps the file sound. It leaves every record readable, and with that everything acknowledged, exactly
   when it does not write right behind a record without its newline.
   */
  lemma NextKeepsInv(w: World, e: Event)
    requires Inv(w) && IdsFit(e)
    ensures Inv(Next(w, e))
    ensures Records(w.text) <= Records(Next(w, e).text) <==> !Overruns(w, e)
    ensures !Overruns(w, e) && Kept(w) ==> Kept(Next(w, e))
  {
    match e
    case Message(_, _, _, _) => MessageKeepsInv(w, e);
    case Head(lane, head, fate) => LineEffect(w, Next(w, e), w.text, HeadRecord(lane, head), fate);
    case _ => NextFreeBounds(Records(w.text));
  }

  /**
   What such a write loses: a message acknowledged right behind a record without its newline cannot be read, and neither
   can that record any more.
   */
  lemma UncleanCutLosesAcknowledged(w: World, e: Event)
    requires Inv(w) && IdsFit(e) && e.Message? && e.fate.Written? && Overruns(w, e)
    ensures var t := Next(w, e);
      && |t.acked| == |w.acked| + 1 && t.acked[|w.acked|] !in Records(t.text)
      && Records(w.text) != [] && Records(t.text) == Records(w.text)[..|Records(w.text)| - 1]
  {
    var rs := Records(w.text);
    MessageEffect(w, e);
    RepairHolds(w.text);
    HeldLines(w.text, rs);
    var n := ClaimCursor(Log(w.text, w.cursors[e.pid]));
    var r := MessageRecord(SessionEntry(n, e.parent, e.message));
    WriteBehind(Repaired(w.text), r, e.fate);
    NextFreeBounds(rs);
  }

  /**
   Over every run of any number of processes, with failed and cut writes anywhere: message ids are pairwise distinct
   and below the last u64, and no cursor wraps. No record is ever lost exactly when no operation writes right behind a
   record without its newline, and then everything acknowledged is in the valid prefix, in order.
   */
  lemma {:induction false} RunKeepsFileSound(w: World, es: seq<Event>)
    requires Inv(w) && forall e :: e in es ==> IdsFit(e)
    ensures var end := Run(w, es);
      && DistinctIds(Records(end.text)) && BelowMax(Records(end.text))
      && (forall pid :: pid in end.cursors ==> end.cursors[pid] <= U64_MAX)
      && (NeverLoses(w, es) <==> NeverOverruns(w, es))
      && (NeverOverruns(w, es) ==> Records(w.text) <= Records(end.text))
      && (NeverOverruns(w, es) && Kept(w) ==> Kept(end))
    ensures Inv(Run(w, es))
    decreases |es|
  {
    if es != [] {
      assert es[0] in es && forall e :: e in es[1..] ==> e in es;
      NextKeepsInv(w, es[0]);
      RunKeepsFileSound(Next(w, es[0]), es[1..]);
      hide HoldsLines, Records, DistinctIds, BelowMax, Within, Next, Overruns;
    }
  }

  /** A new file starts out sound. */
  lemma EmptyFileSound()
    ensures Inv(World("", map[], [])) && Kept(World("", map[], []))
  {
    WholeLinesHeld([]);
    HeldLines("", []);
  }

  /** A message acknowledged anywhere else is the last record from then on, under an id no record had. */
  lemma MessageAdds(w: World, e: Event)
    requires Inv(w) && IdsFit(e) && e.Message? && e.pid in w.cursors && !Overruns(w, e)
    ensures var t, n := Next(w, e), ClaimCursor(Log(w.text, w.cursors[e.pid]));
      var r := MessageRecord(SessionEntry(n, e.parent, e.message));
      && t.cursors == w.cursors[e.pid := if n < U64_MAX then n + 1 else n]
      && (forall x :: x in Records(w.text) && x.MessageRecord? ==> x.entry.id < n)
      && (e.fate.Written? && n < U64_MAX ==> Records(t.text) == Records(w.text) + [r] && t.acked == w.acked + [r])
      && (e.fate.Failed? || n == U64_MAX ==> t.acked == w.acked)
  {
    hide Encode, Records, Extent, HoldsLines, DistinctIds, Unended, Reached, Repaired, Next, ClaimCursor;
    MessageEffect(w, e);
    NextFreeBounds(Records(w.text));
    AboveFree(w, e.pid);
    RepairHolds(w.text);
    var n := ClaimCursor(Log(w.text, w.cursors[e.pid]));
    if n < U64_MAX { WriteBehind(Repaired(w.text), MessageRecord(SessionEntry(n, e.parent, e.message)), e.fate); }
  }

  lemma AboveFree(w: World, pid: Pid)
    requires pid in w.cursors
    ensures NextFree(Records(w.text)) <= ClaimCursor(Log(w.text, w.cursors[pid]))
  {
  }

  /** So is a head acknowledged behind whole lines; no other is counted as acknowledged behind something torn. */
  lemma HeadAdds(w: World, e: Event)
    requires Inv(w) && IdsFit(e) && e.Head? && !Overruns(w, e)
    ensures var t, r := Next(w, e), HeadRecord(e.lane, e.head);
      && t.cursors == w.cursors
      && (if e.fate.Written? && Extent(w.text) == |w.text| then
            Records(t.text) == Records(w.text) + [r] && t.acked == w.acked + [r]
          else t.acked == w.acked)
      && (Extent(w.text) < |w.text| ==> Records(t.text) == Records(w.text))
  {
    hide Encode, Records, Extent, HoldsLines, DistinctIds, BelowMax, Unended, Reached;
    HeldLines(w.text, Records(w.text));
    WriteBehind(w.text, HeadRecord(e.lane, e.head), e.fate);
  }

  /**
   Opening sets the cursor above the file, loading raises it there, and a process that exits leaves the others alone.
   */
  lemma ProcessesCome(w: World, pid: Pid)
    requires Inv(w)
    ensures var free := NextFree(Records(w.text));
      && free <= U64_MAX && Next(w, Open(pid)) == w.(cursors := w.cursors[pid := free])
      && (pid !in w.cursors ==> Next(w, Load(pid)) == w && Next(w, Exit(pid)) == w)
      && (pid in w.cursors ==>
            && Next(w, Load(pid))
                == w.(cursors := w.cursors[pid := if w.cursors[pid] < free then free else w.cursors[pid]])
            && Next(w, Exit(pid)) == w.(cursors := w.cursors - {pid}))
  {
    hide Records, HoldsLines, DistinctIds;
    NextFreeBounds(Records(w.text));
    if pid in w.cursors { assert w.cursors[pid := w.cursors[pid]] == w.cursors; }
  }

  /**
   A run from a new file in which that happens: one process's write stops between JSON and newline, and its next message
   is acknowledged although nothing at all can be read from the file any more.
   */
  lemma UncleanCutRun(pid: Pid, m1: string, m2: string)
    ensures var r := MessageRecord(SessionEntry(0, None, m1));
      var es := [Open(pid), Message(pid, None, m1, Failed(|Encode(r)|)), Message(pid, None, m2, Written)];
      var end := Run(World("", map[], []), es);
      end.acked == [MessageRecord(SessionEntry(1, None, m2))] && Records(end.text) == []
  {
    var r := MessageRecord(SessionEntry(0, None, m1));
    var w := World(Encode(r), map[pid := 1], []);
    FirstHalf(pid, m1);
    SecondHalf(w, pid, r, m2);
    hide Encode, Records, Next;
    RunThree(World("", map[], []), Open(pid), Message(pid, None, m1, Failed(|Encode(r)|)),
        Message(pid, None, m2, Written));
  }

  lemma RunThree(w: World, a: Event, b: Event, c: Event)
    ensures Run(w, [a, b, c]) == Next(Next(Next(w, a), b), c)
  {
    assert [a, b, c][1..] == [b, c] && [b, c][1..] == [c] && [c][1..] == [];
    assert Run(Next(w, a), [b, c]) == Run(Next(Next(w, a), b), [c]);
  }

  lemma FirstHalf(pid: Pid, m1: string)
    ensures var r := MessageRecord(SessionEntry(0, None, m1));
      Next(Next(World("", map[], []), Open(pid)), Message(pid, None, m1, Failed(|Encode(r)|)))
          == World(Encode(r), map[pid := 1], [])
  {
    hide Next, Encode;
    FirstOpened(pid);
    FirstWritten(World("", map[pid := 0], []), pid, m1);
    assert map[pid := 0][pid := 1] == map[pid := 1];
  }

  lemma FirstWritten(w: World, pid: Pid, m1: string)
    requires Inv(w) && w.text == "" && pid in w.cursors && w.cursors[pid] == 0
    requires ClaimCursor(Log("", 0)) == 0 && Repaired("") == ""
    ensures var r := MessageRecord(SessionEntry(0, None, m1));
      Next(w, Message(pid, None, m1, Failed(|Encode(r)|))) == World(Encode(r), w.cursors[pid := 1], w.acked)
  {
    hide Encode, Records, Extent, Reached, Next, ClaimCursor, Inv, Repaired;
    var r := MessageRecord(SessionEntry(0, None, m1));
    HalfWritten(r);
    MessageEffect(w, Message(pid, None, m1, Failed(|Encode(r)|)));
    assert "" + Encode(r) == Encode(r);
  }

  lemma FirstOpened(pid: Pid)
    ensures Next(World("", map[], []), Open(pid)) == World("", map[pid := 0], []) && Inv(World("", map[pid := 0], []))
    ensures ClaimCursor(Log("", 0)) == 0 && Repaired("") == ""
  {
    EmptyFileIsEmpty();
    EmptyFileSound();
    hide Encode, Records, Extent;
    assert map[][pid := 0] == map[pid := 0];
  }

  lemma SecondHalf(w: World, pid: Pid, r: SessionRecord, m2: string)
    requires r.MessageRecord? && r.entry.id == 0 && Storable(r) && w == World(Encode(r), map[pid := 1], [])
    ensures var end := Next(w, Message(pid, None, m2, Written));
      end.acked == [MessageRecord(SessionEntry(1, None, m2))] && Records(end.text) == []
  {
    HalfSound(w, pid, r);
    var e := Message(pid, None, m2, Written);
    MessageEffect(w, e);
    UncleanCutLosesAcknowledged(w, e);
    hide Encode, Records, Extent, Reached, Next, Inv;
    assert [r][..0] == [];
    assert [] + [MessageRecord(SessionEntry(1, None, m2))] == [MessageRecord(SessionEntry(1, None, m2))];
  }

  lemma HalfSound(w: World, pid: Pid, r: SessionRecord)
    requires r.MessageRecord? && r.entry.id == 0 && Storable(r) && w == World(Encode(r), map[pid := 1], [])
    ensures Inv(w) && Records(w.text) == [r] && Unended(w.text) && ClaimCursor(Log(w.text, w.cursors[pid])) == 1
  {
    hide Encode, Records, Extent, Lines, Unended, LacksNewline, TornBehind, HoldsLines, NextFree, DistinctIds, BelowMax;
    RecordAlone(r);
    RecordSound(r);
    HeldLines(w.text, [r]);
  }

  lemma RecordAlone(r: SessionRecord)
    requires Storable(r)
    ensures LacksNewline(Encode(r), [r]) && HoldsLines(Encode(r), [r])
  {
    EmptyFileIsEmpty();
    hide Encode, Lines, TornBehind;
    assert "" + Encode(r) == Encode(r);
    assert [r][..0] == [];
  }

  lemma RecordSound(r: SessionRecord)
    requires r.MessageRecord? && r.entry.id == 0
    ensures DistinctIds([r]) && BelowMax([r]) && NextFree([r]) == 1
  {
    assert [r][..0] == [];
  }

  lemma EmptyFileIsEmpty()
    ensures Lines([]) == "" && Records("") == [] && Extent("") == 0
  {
    LinesReadBack([]);
  }

  lemma HalfWritten(r: SessionRecord)
    requires Storable(r)
    ensures Reached(Encode(r) + "\n", Failed(|Encode(r)|)) == Encode(r)
    ensures Records(Encode(r)) == [r] && Encode(r)[..Extent(Encode(r))] == Encode(r)
  {
    var n := |Encode(r)|;
    assert (Encode(r) + "\n")[..n] == Encode(r);
    CutFileRecovers([], r, n);
    assert Lines([]) + Encode(r) == Encode(r) by { LinesReadBack([]); }
    assert [] + [r] == [r];
  }
}
