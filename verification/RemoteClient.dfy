/**
 The handshake between requesters and the closing of a connection (src/remote/client.rs): requesters put an entry
 into a table of pending requests and wait; the read and the write task, when either fails, mark the
 connection closed and empty both tables.
 */
module RemoteClient {
  import opened Wrappers

  type Id = nat
  type Payload = string

  /** Commands and snapshot requests wait in tables of their own. */
  datatype Kind = Command | Snapshot

  datatype Failure = ConnectionClosed | WriteChannelClosed | ResponseChannelClosed | TimedOut

  /** What the sender behind an entry has done: nothing yet, answered, or been dropped. */
  datatype Channel = Open | Answered(payload: Payload) | Dropped

  /** Between its lock holds a requester has checked, inserted its entry, queued its request, and then waits. */
  datatype Phase = Checked | Inserted | Queued | Waiting | Removing(why: Failure) | Replied(payload: Payload)
      | Failed(why: Failure)

  datatype Request = Request(kind: Kind, phase: Phase, channel: Channel)

  /** A task that closes the connection marks it closed, empties the commands, then the snapshots. */
  datatype Closer = Running | Closing | CommandsDrained | AllDrained | EndedQuietly

  /** `responses` is history: every response read so far. */
  datatype State = State(commands: set<Id>, snapshots: set<Id>, closed: bool, reader: Closer, writer: Closer,
                         requests: map<Id, Request>, nextId: Id, responses: set<(Kind, Id, Payload)>)

  const Initial := State({}, {}, false, Running, Running, map[], 1, {})

  datatype Task = Reader | Writer

  datatype Event =
    | Begin(kind: Kind)
    | Insert(id: Id)
    | Queue(id: Id, ok: bool)
    | Recheck(id: Id)
    | Remove(id: Id)
    | Receive(id: Id)
    | TimeOut(id: Id)
    | Respond(kind: Kind, id: Id, payload: Payload)
    | Close(task: Task)
    | DrainCommands(task: Task)
    | DrainSnapshots(task: Task)
    | EndWriter

  function Table(s: State, kind: Kind): set<Id> {
    if kind.Command? then s.commands else s.snapshots
  }

  function WithTable(s: State, kind: Kind, table: set<Id>): State {
    if kind.Command? then s.(commands := table) else s.(snapshots := table)
  }

  function CloserOf(s: State, task: Task): Closer {
    if task.Reader? then s.reader else s.writer
  }

  function WithCloser(s: State, task: Task, closer: Closer): State {
    if task.Reader? then s.(reader := closer) else s.(writer := closer)
  }

  predicate InPhase(s: State, id: Id, phase: Phase) {
    id in s.requests && s.requests[id].phase == phase
  }

  predicate Enabled(s: State, e: Event) {
    match e
    case Begin(_) => s.nextId !in s.requests
    case Insert(id) => InPhase(s, id, Checked)
    case Queue(id, _) => InPhase(s, id, Inserted)
    case Recheck(id) => InPhase(s, id, Queued)
    case Remove(id) => id in s.requests && s.requests[id].phase.Removing?
    case Receive(id) => InPhase(s, id, Waiting) && !s.requests[id].channel.Open?
    case TimeOut(id) => InPhase(s, id, Waiting)
    case Respond(_, _, _) => s.reader.Running?
    case Close(task) => CloserOf(s, task).Running?
    case DrainCommands(task) => CloserOf(s, task).Closing?
    case DrainSnapshots(task) => CloserOf(s, task).CommandsDrained?
    case EndWriter => s.writer.Running?
  }

  function Moved(s: State, id: Id, phase: Phase): State
    requires id in s.requests
  {
    s.(requests := s.requests[id := s.requests[id].(phase := phase)])
  }

  /** The requests after their senders in a table were dropped. */
  function DroppedIn(requests: map<Id, Request>, kind: Kind, table: set<Id>): map<Id, Request> {
    map id | id in requests ::
      if requests[id].kind == kind && id in table then requests[id].(channel := Dropped) else requests[id]
  }

  /** A response settles the pending request of its own id and kind; with none, it is ignored. */
  function Responded(s: State, kind: Kind, id: Id, payload: Payload): State {
    var read := s.(responses := s.responses + {(kind, id, payload)});
    if (kind.Snapshot? && id == 0) || id !in Table(s, kind) || id !in s.requests then read
    else
      WithTable(read, kind,
          Table(s, kind) - {id}).(requests := s.requests[id := s.requests[id].(channel := Answered(payload))])
  }

  function Next(s: State, e: Event): State
    requires Enabled(s, e)
  {
    match e
    case Begin(kind) =>
      s.(nextId := s.nextId + 1,
         requests := s.requests[s.nextId := Request(kind, if s.closed then Failed(ConnectionClosed) else Checked,
             Open)])
    case Insert(id) =>
      var kind := s.requests[id].kind;
      WithTable(Moved(s, id, Inserted), kind, Table(s, kind) + {id})
    case Queue(id, ok) => Moved(s, id, if ok then Queued else Removing(WriteChannelClosed))
    case Recheck(id) => Moved(s, id, if s.closed then Removing(ConnectionClosed) else Waiting)
    case Remove(id) =>
      var r := s.requests[id];
      WithTable(Moved(s, id, Failed(r.phase.why)), r.kind, Table(s, r.kind) - {id})
    case Receive(id) =>
      var channel := s.requests[id].channel;
      Moved(s, id, if channel.Answered? then Replied(channel.payload) else Failed(ResponseChannelClosed))
    case TimeOut(id) => Moved(s, id, Removing(TimedOut))
    case Respond(kind, id, payload) => Responded(s, kind, id, payload)
    case Close(task) => WithCloser(s, task, Closing).(closed := true)
    case DrainCommands(task) =>
      WithCloser(s, task, CommandsDrained).(commands := {}, requests := DroppedIn(s.requests, Command, s.commands))
    case DrainSnapshots(task) =>
      WithCloser(s, task, AllDrained).(snapshots := {}, requests := DroppedIn(s.requests, Snapshot, s.snapshots))
    case EndWriter => s.(writer := EndedQuietly)
  }

  // ---------------------------------------------------------------------------------------
  // The invariant
  // ---------------------------------------------------------------------------------------

  predicate MarksClosed(closer: Closer) {
    closer.Closing? || closer.CommandsDrained? || closer.AllDrained?
  }

  /** Some task has emptied the table of this kind. */
  predicate HasDrained(s: State, kind: Kind) {
    || s.reader.AllDrained? || s.writer.AllDrained?
    || (kind.Command? && (s.reader.CommandsDrained? || s.writer.CommandsDrained?))
  }

  predicate MayHaveEntry(phase: Phase) {
    phase.Inserted? || phase.Queued? || phase.Waiting? || phase.Removing?
  }

  /** An entry stands for an unfinished request of that kind whose sender is still open, and the other way round. */
  predicate RequestOk(s: State, id: Id) {
    id in s.requests ==>
      var r := s.requests[id];
      && id != 0 && id < s.nextId
      && (id in s.commands <==> r.kind.Command? && MayHaveEntry(r.phase) && r.channel.Open?)
      && (id in s.snapshots <==> r.kind.Snapshot? && MayHaveEntry(r.phase) && r.channel.Open?)
      && (r.phase.Checked? ==> r.channel.Open?)
      && (r.phase.Waiting? && HasDrained(s, r.kind) ==> !r.channel.Open?)
      && (r.channel.Answered? ==> (r.kind, id, r.channel.payload) in s.responses)
      && (r.phase.Replied? ==> (r.kind, id, r.phase.payload) in s.responses)
  }

  ghost predicate Inv(s: State) {
    && (forall id :: RequestOk(s, id))
    && (forall id :: id in s.commands || id in s.snapshots ==> id in s.requests)
    && (MarksClosed(s.reader) || MarksClosed(s.writer) ==> s.closed)
    && s.nextId > 0 && forall id :: id in s.requests ==> id < s.nextId
  }

  /** One request moves on, the tables and everything else stay. */
  lemma MoveKeepsInv(s: State, id: Id, phase: Phase)
    requires Inv(s) && id in s.requests && RequestOk(Moved(s, id, phase), id)
    ensures Inv(Moved(s, id, phase))
  {
    forall k ensures RequestOk(Moved(s, id, phase), k) { assert RequestOk(s, k); }
  }

  lemma InsertKeepsInv(s: State, id: Id)
    requires Inv(s) && Enabled(s, Insert(id))
    ensures Inv(Next(s, Insert(id)))
  {
    forall k ensures RequestOk(Next(s, Insert(id)), k) { assert RequestOk(s, k); }
  }

  lemma RemoveKeepsInv(s: State, id: Id)
    requires Inv(s) && Enabled(s, Remove(id))
    ensures Inv(Next(s, Remove(id)))
  {
    forall k ensures RequestOk(Next(s, Remove(id)), k) { assert RequestOk(s, k); }
  }

  lemma RespondKeepsInv(s: State, kind: Kind, id: Id, payload: Payload)
    requires Inv(s)
    ensures Inv(Responded(s, kind, id, payload))
  {
    assert RequestOk(s, id);
    forall k ensures RequestOk(Responded(s, kind, id, payload), k) { assert RequestOk(s, k); }
  }

  lemma DrainKeepsInv(s: State, e: Event)
    requires Inv(s) && Enabled(s, e) && (e.DrainCommands? || e.DrainSnapshots?)
    ensures Inv(Next(s, e))
  {
    forall k ensures RequestOk(Next(s, e), k) { assert RequestOk(s, k); }
  }

  lemma NextKeepsInv(s: State, e: Event)
    requires Inv(s) && Enabled(s, e)
    ensures Inv(Next(s, e))
  {
    hide RequestOk, Responded;
    match e
    case Insert(id) => InsertKeepsInv(s, id);
    case Remove(id) => RemoveKeepsInv(s, id);
    case Respond(kind, id, payload) => RespondKeepsInv(s, kind, id, payload);
    case DrainCommands(_) => DrainKeepsInv(s, e);
    case DrainSnapshots(_) => DrainKeepsInv(s, e);
    case Begin(_) => QuietKeepsInv(s, e);
    case Close(_) => QuietKeepsInv(s, e);
    case EndWriter => QuietKeepsInv(s, e);
    case Queue(id, ok) =>
      PhaseOk(s, e, id);
      MoveKeepsInv(s, id, if ok then Queued else Removing(WriteChannelClosed));
    case Recheck(id) =>
      PhaseOk(s, e, id);
      MoveKeepsInv(s, id, if s.closed then Removing(ConnectionClosed) else Waiting);
    case Receive(id) =>
      PhaseOk(s, e, id);
      var channel := s.requests[id].channel;
      MoveKeepsInv(s, id, if channel.Answered? then Replied(channel.payload) else Failed(ResponseChannelClosed));
    case TimeOut(id) =>
      PhaseOk(s, e, id);
      MoveKeepsInv(s, id, Removing(TimedOut));
  }

  /** A step that touches neither a table nor a request under way. */
  lemma QuietKeepsInv(s: State, e: Event)
    requires Inv(s) && Enabled(s, e) && (e.Begin? || e.Close? || e.EndWriter?)
    ensures Inv(Next(s, e))
  {
    forall k ensures RequestOk(Next(s, e), k) { assert RequestOk(s, k); }
  }

  /** The request that takes this step is sound after it. Once a table has been emptied no request can go on to wait. */
  lemma PhaseOk(s: State, e: Event, id: Id)
    requires Inv(s) && Enabled(s, e) && (e.Queue? || e.Recheck? || e.Receive? || e.TimeOut?) && e.id == id
    ensures RequestOk(Next(s, e), id)
  {
    assert RequestOk(s, id);
  }

  // ---------------------------------------------------------------------------------------
  // Safety over whole runs
  // ---------------------------------------------------------------------------------------

  predicate RunEnabled(s: State, es: seq<Event>)
    decreases |es|
  {
    es == [] || (Enabled(s, es[0]) && RunEnabled(Next(s, es[0]), es[1..]))
  }

  function Run(s: State, es: seq<Event>): State
    requires RunEnabled(s, es)
    decreases |es|
  {
    if es == [] then s else Run(Next(s, es[0]), es[1..])
  }

  lemma {:induction false} RunKeepsInv(s: State, es: seq<Event>)
    requires Inv(s) && RunEnabled(s, es)
    ensures Inv(Run(s, es))
    decreases |es|
  {
    if es != [] {
      NextKeepsInv(s, es[0]);
      RunKeepsInv(Next(s, es[0]), es[1..]);
    }
  }

  lemma ReachableInv(es: seq<Event>)
    requires RunEnabled(Initial, es)
    ensures Inv(Run(Initial, es))
  {
    RunKeepsInv(Initial, es);
  }

  /**
   Once a task has emptied both tables, no requester waits on an entry: everyone still waiting has been answered or
   has lost its sender, and finishes at once, without its timeout.
   */
  lemma NoWaiterIsLost(es: seq<Event>, id: Id)
    requires RunEnabled(Initial, es) && InPhase(Run(Initial, es), id, Waiting)
    requires Run(Initial, es).reader.AllDrained? || Run(Initial, es).writer.AllDrained?
    ensures var s := Run(Initial, es);
      id !in s.commands && id !in s.snapshots && Enabled(s, Receive(id))
  {
    ReachableInv(es);
    assert RequestOk(Run(Initial, es), id);
  }

  /** Before that, a requester that waits has an entry exactly as long as its sender is open. */
  lemma WaitingHasEntry(es: seq<Event>, id: Id)
    requires RunEnabled(Initial, es) && InPhase(Run(Initial, es), id, Waiting)
    ensures var s := Run(Initial, es);
      id in Table(s, s.requests[id].kind) <==> s.requests[id].channel.Open?
  {
    ReachableInv(es);
    assert RequestOk(Run(Initial, es), id);
  }

  /** A finished request leaves no entry behind. */
  lemma FinishedLeavesNoEntry(es: seq<Event>, id: Id)
    requires RunEnabled(Initial, es) && (id in Run(Initial, es).commands || id in Run(Initial, es).snapshots)
    ensures var s := Run(Initial, es);
      id in s.requests && MayHaveEntry(s.requests[id].phase)
  {
    ReachableInv(es);
    assert RequestOk(Run(Initial, es), id);
  }

  /** A reply was sent in response to the very request that returns it. */
  lemma ReplyIsOwn(es: seq<Event>, id: Id)
    requires RunEnabled(Initial, es) && id in Run(Initial, es).requests && Run(Initial, es).requests[id].phase.Replied?
    ensures var s := Run(Initial, es);
      (s.requests[id].kind, id, s.requests[id].phase.payload) in s.responses
  {
    ReachableInv(es);
    assert RequestOk(Run(Initial, es), id);
  }

  /** A response changes no request but the one of its own id, and that only when it is of the same kind. */
  lemma ResponseIsAddressed(es: seq<Event>, kind: Kind, id: Id, payload: Payload, other: Id)
    requires RunEnabled(Initial, es) && Enabled(Run(Initial, es), Respond(kind, id, payload))
    requires other in Run(Initial, es).requests
    ensures var s := Run(Initial, es);
      var t := Next(s, Respond(kind, id, payload));
      && other in t.requests
      && (t.requests[other] != s.requests[other] ==> other == id && s.requests[other].kind == kind)
  {
    ReachableInv(es);
    assert RequestOk(Run(Initial, es), id);
  }

  // ---------------------------------------------------------------------------------------
  // Answers arrive
  // ---------------------------------------------------------------------------------------

  /** The same but for this request and its entry. */
  predicate OnlySettled(s: State, t: State, kind: Kind, id: Id) {
    && Table(t, kind) == Table(s, kind) - {id}
    && (forall other: Kind :: other != kind ==> Table(t, other) == Table(s, other))
    && t.requests.Keys == s.requests.Keys && (forall k :: k in s.requests && k != id ==> t.requests[k] == s.requests[k])
    && t.closed == s.closed && t.reader == s.reader && t.writer == s.writer && t.nextId == s.nextId
  }

  /**
   A response whose request is pending takes the entry out and answers that request with its payload; if the request
   already waits, it can receive, and receiving gives it that payload. With no such entry a response changes nothing.
   */
  lemma ResponseSettles(es: seq<Event>, kind: Kind, id: Id, payload: Payload)
    requires RunEnabled(Initial, es) && Enabled(Run(Initial, es), Respond(kind, id, payload))
    ensures var s := Run(Initial, es);
      var t := Next(s, Respond(kind, id, payload));
      if id in Table(s, kind) then
        && id in s.requests && s.requests[id].kind == kind && OnlySettled(s, t, kind, id)
        && t.requests[id] == s.requests[id].(channel := Answered(payload))
        && (s.requests[id].phase.Waiting? ==>
              Enabled(t, Receive(id)) && Next(t, Receive(id)) == Moved(t, id, Replied(payload)))
      else t == s.(responses := t.responses)
  {
    ReachableInv(es);
    assert RequestOk(Run(Initial, es), id);
  }

  /** A requester that waits and has its answer ends with that answer, unless its own timeout comes first. */
  predicate Delivered(phase: Phase, payload: Payload) {
    || phase.Waiting? || phase == Replied(payload)
    || phase == Removing(TimedOut) || phase == Failed(TimedOut)
  }

  lemma {:induction false} AnswerIsDelivered(s: State, es: seq<Event>, id: Id, payload: Payload)
    requires Inv(s) && RunEnabled(s, es) && id in s.requests
    requires s.requests[id].channel == Answered(payload) && Delivered(s.requests[id].phase, payload)
    ensures var t := Run(s, es);
      id in t.requests && t.requests[id].channel == Answered(payload) && Delivered(t.requests[id].phase, payload)
    decreases |es|
  {
    if es != [] {
      AnswerStays(s, es[0], id, payload);
      NextKeepsInv(s, es[0]);
      hide Next, Enabled, Inv;
      AnswerIsDelivered(Next(s, es[0]), es[1..], id, payload);
    }
  }

  lemma AnswerStays(s: State, e: Event, id: Id, payload: Payload)
    requires Inv(s) && Enabled(s, e) && id in s.requests
    requires s.requests[id].channel == Answered(payload) && Delivered(s.requests[id].phase, payload)
    ensures var t := Next(s, e);
      && id in t.requests && t.requests[id].channel == Answered(payload) && Delivered(t.requests[id].phase, payload)
      && (e == Receive(id) ==> t.requests[id].phase == Replied(payload))
  {
    assert RequestOk(s, id);
  }

  // ---------------------------------------------------------------------------------------
  // A request that nobody disturbs
  // ---------------------------------------------------------------------------------------

  lemma RunCons(s: State, e: Event, es: seq<Event>)
    requires Enabled(s, e) && RunEnabled(Next(s, e), es)
    ensures RunEnabled(s, [e] + es) && Run(s, [e] + es) == Run(Next(s, e), es)
  {
    hide Enabled, Next;
    assert ([e] + es)[1..] == es;
  }

  /** The state with a request more, which has this phase and an entry. */
  function WithRequest(s: State, kind: Kind, phase: Phase): State {
    WithTable(s, kind, Table(s, kind) + {s.nextId})
    .(nextId := s.nextId + 1, requests := s.requests[s.nextId := Request(kind, phase, Open)])
  }

  /** The same once it has ended. */
  function WithEnded(s: State, kind: Kind, phase: Phase): State {
    s.(nextId := s.nextId + 1, requests := s.requests[s.nextId := Request(kind, phase, Open)])
  }

  /** While the connection is open a request gets to wait with an entry of its own. */
  lemma RequestGetsToWait(s: State, kind: Kind)
    requires Inv(s) && !s.closed
    ensures var id := s.nextId;
      var es := [Begin(kind)] + ([Insert(id)] + ([Queue(id, true)] + ([Recheck(id)] + [])));
      RunEnabled(s, es) && Run(s, es) == WithRequest(s, kind, Waiting)
  {
    var id := s.nextId;
    GetsToWait(s, kind);
    hide Next, Enabled, Inv, WithRequest, WithEnded;
    var s1, s2, s3 := WithEnded(s, kind, Checked), WithRequest(s, kind, Inserted), WithRequest(s, kind, Queued);
    NoMore(WithRequest(s, kind, Waiting));
    RunCons(s3, Recheck(id), []);
    RunCons(s2, Queue(id, true), [Recheck(id)] + []);
    RunCons(s1, Insert(id), [Queue(id, true)] + ([Recheck(id)] + []));
    RunCons(s, Begin(kind), [Insert(id)] + ([Queue(id, true)] + ([Recheck(id)] + [])));
  }

  lemma GetsToWait(s: State, kind: Kind)
    requires Inv(s) && !s.closed
    ensures var id, s1, s2 := s.nextId, WithEnded(s, kind, Checked), WithRequest(s, kind, Inserted);
      && Enabled(s, Begin(kind)) && Next(s, Begin(kind)) == s1
      && Enabled(s1, Insert(id)) && Next(s1, Insert(id)) == s2
      && Enabled(s2, Queue(id, true)) && Next(s2, Queue(id, true)) == WithRequest(s, kind, Queued)
    ensures var id, s3 := s.nextId, WithRequest(s, kind, Queued);
      Enabled(s3, Recheck(id)) && Next(s3, Recheck(id)) == WithRequest(s, kind, Waiting)
  {
    hide RequestOk;
  }

  lemma NoMore(s: State)
    ensures RunEnabled(s, []) && Run(s, []) == s
  {
  }

  /** On a closed connection it fails at once, without an entry. */
  lemma ClosedRefuses(s: State, kind: Kind)
    requires Inv(s) && s.closed
    ensures Enabled(s, Begin(kind)) && Next(s, Begin(kind)) == WithEnded(s, kind, Failed(ConnectionClosed))
  {
  }

  /** How one that has inserted its entry fails before it waits: its write is refused, or the connection has closed. */
  lemma FailsBeforeWaiting(s: State, kind: Kind)
    requires Inv(s)
    ensures var t := WithRequest(s, kind, Inserted);
      var u := Next(t, Queue(s.nextId, false));
      && Enabled(u, Remove(s.nextId))
      && Next(u, Remove(s.nextId)) == WithEnded(s, kind, Failed(WriteChannelClosed))
    ensures s.closed ==>
      var t := WithRequest(s, kind, Inserted);
      var u := Next(Next(t, Queue(s.nextId, true)), Recheck(s.nextId));
      && Enabled(u, Remove(s.nextId))
      && Next(u, Remove(s.nextId)) == WithEnded(s, kind, Failed(ConnectionClosed))
  {
    assert s.nextId !in Table(s, kind);
    assert Table(s, kind) + {s.nextId} - {s.nextId} == Table(s, kind);
  }

  /** How one that waits ends: with the payload of its response, or by its timeout, and without its entry. */
  lemma WaitEnds(s: State, kind: Kind, payload: Payload)
    requires Inv(s) && s.reader.Running?
    ensures var t, id := WithRequest(s, kind, Waiting), s.nextId;
      && Enabled(t, Respond(kind, id, payload)) && Enabled(Next(t, Respond(kind, id, payload)), Receive(id))
      && var u := Next(Next(t, Respond(kind, id, payload)), Receive(id));
         && OnlySettled(t, u, kind, id) && u.requests[id].phase == Replied(payload)
  {
  }

  lemma WaitTimesOut(s: State, kind: Kind)
    requires Inv(s)
    ensures var t, id := WithRequest(s, kind, Waiting), s.nextId;
      && Enabled(t, TimeOut(id)) && Enabled(Next(t, TimeOut(id)), Remove(id))
      && Next(Next(t, TimeOut(id)), Remove(id)) == WithEnded(s, kind, Failed(TimedOut))
  {
    assert s.nextId !in Table(s, kind);
    assert Table(s, kind) + {s.nextId} - {s.nextId} == Table(s, kind);
  }

  /**
   A closing task marks the connection closed, then drops the sender of every pending command, then of every pending
   snapshot request; whoever of them waits then fails at once.
   */
  lemma ClosingReleases(es: seq<Event>, task: Task)
    requires RunEnabled(Initial, es) && Enabled(Run(Initial, es), Close(task))
    ensures var s := Run(Initial, es);
      var t := Next(s, Close(task));
      var u := Next(t, DrainCommands(task));
      var v := Next(u, DrainSnapshots(task));
      && t.closed && t.requests == s.requests && t.commands == s.commands && t.snapshots == s.snapshots
      && u.closed && u.commands == {} && u.snapshots == s.snapshots && v.closed && v.commands == {} && v.snapshots == {}
      && v.requests.Keys == s.requests.Keys
      && forall id :: id in s.requests ==>
           var dropped := id in s.commands || id in s.snapshots;
           && v.requests[id] == (if dropped then s.requests[id].(channel := Dropped) else s.requests[id])
           && (dropped && s.requests[id].phase.Waiting? ==>
                 && Enabled(v, Receive(id))
                 && Next(v, Receive(id)).requests[id].phase == Failed(ResponseChannelClosed))
  {
    ReachableInv(es);
    var s := Run(Initial, es);
    hide RunEnabled, Run;
    var v := Next(Next(Next(s, Close(task)), DrainCommands(task)), DrainSnapshots(task));
    forall id | id in s.requests
      ensures v.requests[id] ==
                if id in s.commands || id in s.snapshots then s.requests[id].(channel := Dropped) else s.requests[id]
      ensures (id in s.commands || id in s.snapshots) && s.requests[id].phase.Waiting? ==>
                && Enabled(v, Receive(id))
                && Next(v, Receive(id)).requests[id].phase == Failed(ResponseChannelClosed)
    {
      assert RequestOk(s, id);
    }
  }

  /** A write task that ends because nobody can send any more closes nothing. */
  lemma QuietEndClosesNothing(s: State)
    requires Enabled(s, EndWriter)
    ensures var t := Next(s, EndWriter);
      t == s.(writer := t.writer) && !t.writer.Running? && !MarksClosed(t.writer)
  {
  }

  // ---------------------------------------------------------------------------------------
  // The client object
  // ---------------------------------------------------------------------------------------

  /** The shared fields of a client; a method is one lock hold, and takes a step of any system it reflects. */
  class Client {
    var commands: set<Id>
    var snapshots: set<Id>
    var closed: bool
    var nextId: Id
    /** The channels between the entries and their requesters. */
    var channels: map<Id, Channel>

    constructor ()
      ensures Reflects(Initial)
    {
      commands, snapshots, closed, nextId, channels := {}, {}, false, 1, map[];
    }

    ghost predicate Reflects(s: State)
      reads this
    {
      && commands == s.commands && snapshots == s.snapshots && closed == s.closed && nextId == s.nextId
      && channels == map id | id in s.requests :: s.requests[id].channel
    }

    /** Draws the id of a new request, and looks whether the connection is closed. */
    method BeginRequest(ghost s: State, kind: Kind) returns (id: Id, refused: bool)
      requires Reflects(s) && Enabled(s, Begin(kind))
      modifies this
      ensures Reflects(Next(s, Begin(kind)))
      ensures id == s.nextId && Next(s, Begin(kind)).requests[id].phase == if refused then Failed(ConnectionClosed)
          else Checked
    {
      id, refused := nextId, closed;
      nextId := nextId + 1;
      channels := channels[id := Open];
    }

    method InsertEntry(ghost s: State, kind: Kind, id: Id)
      requires Reflects(s) && Enabled(s, Insert(id)) && s.requests[id].kind == kind
      modifies this`commands, this`snapshots
      ensures Reflects(Next(s, Insert(id)))
    {
      match kind {
        case Command => commands := commands + {id};
        case Snapshot => snapshots := snapshots + {id};
      }
    }

    method RemoveEntry(ghost s: State, kind: Kind, id: Id)
      requires Reflects(s) && Enabled(s, Remove(id)) && s.requests[id].kind == kind
      modifies this`commands, this`snapshots
      ensures Reflects(Next(s, Remove(id)))
    {
      match kind {
        case Command => commands := commands - {id};
        case Snapshot => snapshots := snapshots - {id};
      }
    }

    /** The read task has read a response. */
    method OnResponse(ghost s: State, kind: Kind, id: Id, payload: Payload)
      requires Inv(s) && Reflects(s) && Enabled(s, Respond(kind, id, payload))
      modifies this`commands, this`snapshots, this`channels
      ensures Reflects(Next(s, Respond(kind, id, payload)))
    {
      match kind {
        case Command =>
          if id in commands {
            commands := commands - {id};
            channels := channels[id := Answered(payload)];
          }
        case Snapshot =>
          if id != 0 && id in snapshots {
            snapshots := snapshots - {id};
            channels := channels[id := Answered(payload)];
          }
      }
    }

    /** A task that ends in failure marks the connection closed, then empties one table after the other. */
    method MarkClosed(ghost s: State, ghost task: Task)
      requires Reflects(s) && Enabled(s, Close(task))
      modifies this`closed
      ensures Reflects(Next(s, Close(task)))
    {
      closed := true;
    }

    method DrainCommandTable(ghost s: State, ghost task: Task)
      requires Inv(s) && Reflects(s) && Enabled(s, DrainCommands(task))
      modifies this`commands, this`channels
      ensures Reflects(Next(s, DrainCommands(task))) && commands == {}
    {
      EntriesAreOfKind(s, Command, commands);
      channels := map id | id in channels :: if id in commands then Dropped else channels[id];
      commands := {};
    }

    method DrainSnapshotTable(ghost s: State, ghost task: Task)
      requires Inv(s) && Reflects(s) && Enabled(s, DrainSnapshots(task))
      modifies this`snapshots, this`channels
      ensures Reflects(Next(s, DrainSnapshots(task))) && snapshots == {}
    {
      EntriesAreOfKind(s, Snapshot, snapshots);
      channels := map id | id in channels :: if id in snapshots then Dropped else channels[id];
      snapshots := {};
    }
  }

  /** Entries of a table are requests of its kind. */
  lemma EntriesAreOfKind(s: State, kind: Kind, table: set<Id>)
    requires Inv(s) && table == Table(s, kind)
    ensures forall id :: id in table ==> id in s.requests && s.requests[id].kind == kind
  {
    forall id | id in table ensures id in s.requests && s.requests[id].kind == kind {
      assert RequestOk(s, id);
    }
  }
}
