/**
 The registry of sessions and lanes of a server, under any interleaving of lane spawns, forks, resumes,
 rollbacks and shutdowns (src/server/lane.rs, src/server/lane_ops.rs, src/server/lane_recovery.rs).

 A call checks the registry under its mutex, starts a runtime outside it, checks again and inserts, persists
 the initial head, and on failure takes its own entry out again. Every step below is one lock hold or
 one effect between two lock holds.
 */
module LaneRegistry {
  import opened Wrappers
  import opened RecordCodec

  type SessionId = string
  type RuntimeId = nat
  type CallId = nat

  datatype ServerError = SessionNotFound | LaneAlreadyExists | LaneNotFound | DuplicateSession | StorageFailed
      | AgentFailed

  /** A registered lane: the runtime behind it and the number its insertion drew. */
  datatype LaneRuntime = LaneRuntime(runtime: RuntimeId, generation: nat)

  type Registry = map<SessionId, map<LaneId, LaneRuntime>>

  /** A resumed lane is a spawn that does not persist an initial head. */
  datatype Request =
    | SpawnLane(session: SessionId, lane: LaneId, persistInitial: bool)
    | ForkLane(session: SessionId, lane: LaneId, from: LaneId)

  /** Why the registry does not admit the lane; both checks of a call ask this. */
  function Refusal(registry: Registry, request: Request): Option<ServerError> {
    if request.session !in registry then Some(SessionNotFound)
    else if request.lane in registry[request.session] then Some(LaneAlreadyExists)
    else if request.ForkLane? && request.from !in registry[request.session] then Some(LaneNotFound)
    else None
  }

  function Inserted(registry: Registry, request: Request, entry: LaneRuntime): Registry
    requires request.session in registry
  {
    registry[request.session := registry[request.session][request.lane := entry]]
  }

  function WithoutGeneration(registry: Registry, session: SessionId, lane: LaneId, generation: nat): Registry {
    if session in registry && lane in registry[session] && registry[session][lane].generation == generation
    then registry[session := registry[session] - {lane}]
    else registry
  }

  function WithSession(registry: Registry, session: SessionId): Registry {
    if session in registry then registry else registry[session := map[]]
  }

  function WithoutEmpty(registry: Registry, session: SessionId): Registry {
    if session in registry && registry[session] == map[] then registry - {session} else registry
  }

  predicate At(registry: Registry, session: SessionId, lane: LaneId, entry: LaneRuntime) {
    session in registry && lane in registry[session] && registry[session][lane] == entry
  }

  ghost predicate IsRegistered(registry: Registry, runtime: RuntimeId) {
    exists s, l, e :: At(registry, s, l, e) && e.runtime == runtime
  }

  ghost predicate HasLane(registry: Registry, session: SessionId, lane: LaneId) {
    exists e :: At(registry, session, lane, e)
  }

  /** The lane may be made: its session is there, the lane is not, and for a fork its source is. */
  ghost predicate Admits(registry: Registry, q: Request) {
    && q.session in registry && !HasLane(registry, q.session, q.lane)
    && (q.ForkLane? ==> HasLane(registry, q.session, q.from))
  }

  /** The first of these that is missing, or in the way, is why not. */
  ghost predicate Refuses(registry: Registry, q: Request, error: ServerError) {
    match error
    case SessionNotFound => q.session !in registry
    case LaneAlreadyExists => HasLane(registry, q.session, q.lane)
    case LaneNotFound =>
      && q.session in registry && !HasLane(registry, q.session, q.lane)
      && q.ForkLane? && !HasLane(registry, q.session, q.from)
    case _ => false
  }

  lemma AdmittedExactly(registry: Registry, q: Request)
    ensures Refusal(registry, q).None? <==> Admits(registry, q)
    ensures forall error :: Refusal(registry, q) == Some(error) <==> Refuses(registry, q, error)
  {
    if q.session in registry {
      var lanes := registry[q.session];
      assert q.lane in lanes ==> At(registry, q.session, q.lane, lanes[q.lane]);
      if q.ForkLane? { assert q.from in lanes ==> At(registry, q.session, q.from, lanes[q.from]); }
    }
  }

  // ---------------------------------------------------------------------------------------
  // The step system
  // ---------------------------------------------------------------------------------------

  datatype Call =
    | Checked(request: Request)
    | Started(request: Request, runtime: RuntimeId)
    | Registered(request: Request, runtime: RuntimeId, generation: nat)
    | RollingBack(request: Request, runtime: RuntimeId, generation: nat)
    | Cleaning(runtime: RuntimeId, error: ServerError)
    | Draining(pending: seq<RuntimeId>)
    | Spawned(runtime: RuntimeId)
    | ShutDown
    | Refused(error: ServerError)
    | Undone(runtime: RuntimeId, error: ServerError)

  datatype Insertion = Insertion(runtime: RuntimeId, session: SessionId, lane: LaneId)

  /**
   `owners[r]` is the call that started runtime r; `insertions[g - 1]` is what the insertion that drew
   generation g put in the registry. A runtime is `stopped` once a shutdown of its handle succeeded and
   `lost` once one failed, or was never tried because a server shutdown gave up before it. `drained` is history: the
   runtimes a server shutdown has taken out of the registry.
   */
  datatype State = State(registry: Registry, insertions: seq<Insertion>, owners: seq<CallId>,
                         stopped: set<RuntimeId>, lost: set<RuntimeId>, drained: set<RuntimeId>,
                         calls: map<CallId, Call>)

  const Initial := State(map[], [], [], {}, {}, {}, map[])

  datatype Event =
    | CreateSession(session: SessionId)
    | RemoveSessionIfEmpty(session: SessionId)
    | Begin(call: CallId, request: Request)
    | StartRuntime(call: CallId)
    | Register(call: CallId)
    | PersistInitialHead(call: CallId, ok: bool)
    | Rollback(call: CallId)
    | CleanUp(call: CallId, ok: bool)
    | Drain(call: CallId, handles: seq<RuntimeId>)
    | StopNext(call: CallId, ok: bool)
    | EndShutdown(call: CallId)

  ghost predicate Enabled(s: State, e: Event) {
    match e
    case CreateSession(_) => true
    case RemoveSessionIfEmpty(_) => true
    case Begin(c, _) => c !in s.calls
    case StartRuntime(c) => c in s.calls && s.calls[c].Checked?
    case Register(c) => c in s.calls && s.calls[c].Started?
    case PersistInitialHead(c, _) => c in s.calls && s.calls[c].Registered?
    case Rollback(c) => c in s.calls && s.calls[c].RollingBack?
    case CleanUp(c, _) => c in s.calls && s.calls[c].Cleaning?
    case Drain(c, handles) => c !in s.calls && forall r :: r in handles <==> IsRegistered(s.registry, r)
    case StopNext(c, _) => c in s.calls && s.calls[c].Draining? && s.calls[c].pending != []
    case EndShutdown(c) => c in s.calls && s.calls[c].Draining? && s.calls[c].pending == []
  }

  ghost function Next(s: State, e: Event): State
    requires Enabled(s, e)
  {
    match e
    case CreateSession(sid) => s.(registry := WithSession(s.registry, sid))
    case RemoveSessionIfEmpty(sid) => s.(registry := WithoutEmpty(s.registry, sid))
    case Begin(c, request) =>
      var refusal := Refusal(s.registry, request);
      s.(calls := s.calls[c := if refusal.Some? then Refused(refusal.value) else Checked(request)])
    case StartRuntime(c) =>
      s.(owners := s.owners + [c], calls := s.calls[c := Started(s.calls[c].request, |s.owners|)])
    case Register(c) => AfterRegister(s, c)
    case PersistInitialHead(c, ok) =>
      var call := s.calls[c];
      s.(calls := s.calls[c := if ok then Spawned(call.runtime)
          else RollingBack(call.request, call.runtime, call.generation)])
    case Rollback(c) =>
      var call := s.calls[c];
      s.(registry := WithoutGeneration(s.registry, call.request.session, call.request.lane, call.generation),
         calls := s.calls[c := Cleaning(call.runtime, StorageFailed)])
    case CleanUp(c, ok) =>
      var call := s.calls[c];
      Ended({call.runtime}, ok, s.(calls := s.calls[c := Undone(call.runtime, call.error)]))
    case Drain(c, handles) => s.(registry := map[], drained := s.drained + (set r | r in handles),
        calls := s.calls[c := Draining(handles)])
    case StopNext(c, ok) =>
      var pending := s.calls[c].pending;
      if ok then Ended({pending[0]}, true, s.(calls := s.calls[c := Draining(pending[1..])]))
      else Ended(set r | r in pending, false, s.(calls := s.calls[c := Refused(AgentFailed)]))
    case EndShutdown(c) => s.(calls := s.calls[c := ShutDown])
  }

  function Ended(runtimes: set<RuntimeId>, ok: bool, s: State): State {
    if ok then s.(stopped := s.stopped + runtimes) else s.(lost := s.lost + runtimes)
  }

  /** The second check and, when it passes, the insertion under a generation of its own. */
  function AfterRegister(s: State, c: CallId): State
    requires c in s.calls && s.calls[c].Started?
  {
    var request := s.calls[c].request;
    var runtime := s.calls[c].runtime;
    var refusal := Refusal(s.registry, request);
    if refusal.Some? then s.(calls := s.calls[c := Cleaning(runtime, refusal.value)])
    else
      var generation := |s.insertions| + 1;
      var persists := request.ForkLane? || request.persistInitial;
      s.(registry := Inserted(s.registry, request, LaneRuntime(runtime, generation)),
         insertions := s.insertions + [Insertion(runtime, request.session, request.lane)],
         calls := s.calls[c := if persists then Registered(request, runtime, generation) else Spawned(runtime)])
  }

  // ---------------------------------------------------------------------------------------
  // The invariant
  // ---------------------------------------------------------------------------------------

  /** The entry is what the insertion of its generation put there, and its runtime is still running. */
  ghost predicate EntryOk(s: State, sid: SessionId, l: LaneId, e: LaneRuntime) {
    && 1 <= e.generation <= |s.insertions|
    && s.insertions[e.generation - 1] == Insertion(e.runtime, sid, l)
    && e.runtime !in s.stopped && e.runtime !in s.lost
  }

  predicate WasInserted(insertions: seq<Insertion>, r: RuntimeId) {
    exists i :: 0 <= i < |insertions| && insertions[i].runtime == r
  }

  predicate Drew(insertions: seq<Insertion>, generation: nat, request: Request, r: RuntimeId) {
    1 <= generation <= |insertions| && insertions[generation - 1] == Insertion(r, request.session, request.lane)
  }

  predicate Owns(owners: seq<CallId>, c: CallId, r: RuntimeId) {
    r < |owners| && owners[r] == c
  }

  /** The runtime is in the registry, or a server shutdown has taken it out. */
  ghost predicate Kept(s: State, r: RuntimeId) {
    IsRegistered(s.registry, r) || r in s.drained
  }

  /** What a server shutdown took was inserted once and is not registered any more. */
  ghost predicate DrainedOk(s: State) {
    forall r :: r in s.drained ==> WasInserted(s.insertions, r) && !IsRegistered(s.registry, r)
  }

  ghost predicate CallOk(s: State, c: CallId) {
    c in s.calls ==>
      match s.calls[c]
      case Checked(_) => true
      case Started(_, r) => Owns(s.owners, c, r) && !WasInserted(s.insertions, r) && r !in s.stopped && r !in s.lost
      case Registered(q, r, g) => Owns(s.owners, c, r) && Drew(s.insertions, g, q, r) && Kept(s, r)
      case RollingBack(q, r, g) => Owns(s.owners, c, r) && Drew(s.insertions, g, q, r)
      case Cleaning(r, _) => Owns(s.owners, c, r) && !IsRegistered(s.registry, r)
      case Draining(pending) =>
        forall r :: r in pending ==> WasInserted(s.insertions, r) && !IsRegistered(s.registry, r)
      case Spawned(r) => Owns(s.owners, c, r) && WasInserted(s.insertions, r) && Kept(s, r)
      case ShutDown => true
      case Refused(_) => true
      case Undone(r, _) => Owns(s.owners, c, r) && (r in s.stopped || r in s.lost)
  }

  /** The call still has this runtime to register, take out or shut down. */
  predicate Holding(call: Call, r: RuntimeId) {
    match call
    case Started(_, own) => own == r
    case RollingBack(_, own, _) => own == r
    case Cleaning(own, _) => own == r
    case Draining(pending) => r in pending
    case _ => false
  }

  ghost predicate Held(calls: map<CallId, Call>, r: RuntimeId) {
    exists c :: c in calls && Holding(calls[c], r)
  }

  ghost predicate Covered(s: State, r: RuntimeId) {
    r in s.stopped || r in s.lost || IsRegistered(s.registry, r) || Held(s.calls, r)
  }

  ghost predicate InsertionsOk(s: State) {
    && (forall i :: 0 <= i < |s.insertions| ==> s.insertions[i].runtime < |s.owners|)
    && (forall i, j :: 0 <= i < j < |s.insertions| ==> s.insertions[i].runtime != s.insertions[j].runtime)
  }

  ghost predicate Inv(s: State) {
    && (forall sid, l, e :: At(s.registry, sid, l, e) ==> EntryOk(s, sid, l, e))
    && InsertionsOk(s)
    && (forall r :: r in s.stopped || r in s.lost ==> r < |s.owners|)
    && (forall c :: CallOk(s, c))
    && DrainedOk(s)
    && (forall r: RuntimeId :: r < |s.owners| ==> Covered(s, r))
  }

  // ---------------------------------------------------------------------------------------
  // Every step keeps it
  // ---------------------------------------------------------------------------------------

  /** A runtime is registered at most once, under the name and the generation of its own insertion. */
  lemma RegisteredOnce(s: State, sid: SessionId, l: LaneId, e: LaneRuntime, sid': SessionId, l': LaneId,
      e': LaneRuntime)
    requires Inv(s) && At(s.registry, sid, l, e) && At(s.registry, sid', l', e')
    requires e.runtime == e'.runtime || e.generation == e'.generation
    ensures sid == sid' && l == l' && e == e'
  {
    assert EntryOk(s, sid, l, e) && EntryOk(s, sid', l', e');
  }

  /** The same registry and the same books, with one call moved on. */
  lemma CallMoves(s: State, t: State, c: CallId)
    requires Inv(s) && t == s.(calls := t.calls)
    requires c in t.calls && t.calls == s.calls[c := t.calls[c]] && CallOk(t, c)
    requires forall r: RuntimeId :: c in s.calls && Holding(s.calls[c], r) ==> Covered(t, r)
    ensures Inv(t)
  {
    forall d ensures CallOk(t, d) { assert CallOk(s, d); }
    forall r: RuntimeId | r < |t.owners| ensures Covered(t, r) {
      assert Covered(s, r);
      if Held(s.calls, r) {
        var d :| d in s.calls && Holding(s.calls[d], r);
        if d != c { assert Holding(t.calls[d], r); }
      }
    }
    forall sid, l, e | At(t.registry, sid, l, e) ensures EntryOk(t, sid, l, e) { assert EntryOk(s, sid, l, e); }
  }

  /** A registry with the same entries, sessions apart, serves as well. */
  lemma SameEntries(s: State, registry: Registry)
    requires Inv(s) && forall sid, l, e :: At(registry, sid, l, e) <==> At(s.registry, sid, l, e)
    ensures Inv(s.(registry := registry))
  {
    var t := s.(registry := registry);
    forall r ensures IsRegistered(t.registry, r) <==> IsRegistered(s.registry, r) {
    }
    forall d ensures CallOk(t, d) { assert CallOk(s, d); }
    forall sid, l, e | At(t.registry, sid, l, e) ensures EntryOk(t, sid, l, e) { assert EntryOk(s, sid, l, e); }
    forall r: RuntimeId | r < |t.owners| ensures Covered(t, r) { assert Covered(s, r); }
  }

  lemma StartKeepsInv(s: State, c: CallId)
    requires Inv(s) && Enabled(s, StartRuntime(c))
    ensures Inv(Next(s, StartRuntime(c)))
  {
    var t := Next(s, StartRuntime(c));
    forall d ensures CallOk(t, d) { assert CallOk(s, d); }
    forall r: RuntimeId | r < |t.owners| ensures Covered(t, r) {
      if r == |s.owners| {
        assert Holding(t.calls[c], r);
      } else {
        assert Covered(s, r);
        if Held(s.calls, r) {
          var d :| d in s.calls && Holding(s.calls[d], r);
          assert Holding(t.calls[d], r);
        }
      }
    }
    forall sid, l, e | At(t.registry, sid, l, e) ensures EntryOk(t, sid, l, e) { assert EntryOk(s, sid, l, e); }
  }

  /** After an insertion the registry holds what it held, and the new entry. */
  lemma InsertedAt(registry: Registry, request: Request, entry: LaneRuntime, sid: SessionId, l: LaneId, e: LaneRuntime)
    requires Refusal(registry, request).None?
    ensures At(Inserted(registry, request, entry), sid, l, e)
       <==> At(registry, sid, l, e) || (sid == request.session && l == request.lane && e == entry)
  {
  }

  lemma RegisterKeepsEntries(s: State, c: CallId)
    requires Inv(s) && Enabled(s, Register(c)) && Refusal(s.registry, s.calls[c].request).None?
    ensures var t := AfterRegister(s, c);
      && (forall sid, l, e :: At(t.registry, sid, l, e) ==> EntryOk(t, sid, l, e))
      && InsertionsOk(t)
      && (forall r :: IsRegistered(s.registry, r) || r == s.calls[c].runtime <==> IsRegistered(t.registry, r))
  {
    var t := AfterRegister(s, c);
    var request := s.calls[c].request;
    var entry := LaneRuntime(s.calls[c].runtime, |s.insertions| + 1);
    assert CallOk(s, c);
    assert t.registry == Inserted(s.registry, request, entry);
    forall sid, l, e | At(t.registry, sid, l, e) ensures EntryOk(t, sid, l, e) {
      InsertedAt(s.registry, request, entry, sid, l, e);
      if At(s.registry, sid, l, e) { assert EntryOk(s, sid, l, e); }
    }
    forall r ensures IsRegistered(s.registry, r) || r == s.calls[c].runtime <==> IsRegistered(t.registry, r) {
      hide Inserted, Refusal, At, AfterRegister;
      if IsRegistered(s.registry, r) {
        var sid, l, e :| At(s.registry, sid, l, e) && e.runtime == r;
        InsertedAt(s.registry, request, entry, sid, l, e);
      }
      InsertedAt(s.registry, request, entry, request.session, request.lane, entry);
      if IsRegistered(t.registry, r) {
        var sid, l, e :| At(t.registry, sid, l, e) && e.runtime == r;
        InsertedAt(s.registry, request, entry, sid, l, e);
      }
    }
  }

  lemma InsertionAdds(insertions: seq<Insertion>, x: Insertion, r: RuntimeId)
    ensures WasInserted(insertions + [x], r) <==> WasInserted(insertions, r) || r == x.runtime
  {
    if WasInserted(insertions, r) {
      var i :| 0 <= i < |insertions| && insertions[i].runtime == r;
      assert (insertions + [x])[i].runtime == r;
    }
    assert (insertions + [x])[|insertions|] == x;
  }

  lemma RegisterKeepsInv(s: State, c: CallId)
    requires Inv(s) && Enabled(s, Register(c))
    ensures Inv(Next(s, Register(c)))
  {
    var t := AfterRegister(s, c);
    assert CallOk(s, c);
    if Refusal(s.registry, s.calls[c].request).Some? {
      forall sid, l, e | At(s.registry, sid, l, e) ensures e.runtime != s.calls[c].runtime {
        assert EntryOk(s, sid, l, e);
      }
      assert Holding(t.calls[c], s.calls[c].runtime);
      CallMoves(s, t, c);
    } else {
      RegisterKeepsEntries(s, c);
      hide Inserted, Refusal, At, IsRegistered;
      forall r ensures WasInserted(t.insertions, r) <==> WasInserted(s.insertions, r) || r == s.calls[c].runtime {
        InsertionAdds(s.insertions, t.insertions[|s.insertions|], r);
      }
      hide WasInserted;
      forall d ensures CallOk(t, d) { assert CallOk(s, d); }
      forall r: RuntimeId | r < |t.owners| ensures Covered(t, r) {
        assert Covered(s, r);
        if Held(s.calls, r) {
          var d :| d in s.calls && Holding(s.calls[d], r);
          if d != c { assert Holding(t.calls[d], r); }
        }
      }
    }
  }

  /** Taking an entry out by generation takes out the call's own runtime and no other. */
  lemma RollbackIsExact(s: State, c: CallId, sid: SessionId, l: LaneId, e: LaneRuntime)
    requires Inv(s) && Enabled(s, Rollback(c))
    ensures At(Next(s, Rollback(c)).registry, sid, l, e)
       <==> At(s.registry, sid, l, e) && e.runtime != s.calls[c].runtime
  {
    var call := s.calls[c];
    assert CallOk(s, c);
    if At(s.registry, sid, l, e) { assert EntryOk(s, sid, l, e); }
  }

  lemma RollbackKeepsInv(s: State, c: CallId)
    requires Inv(s) && Enabled(s, Rollback(c))
    ensures Inv(Next(s, Rollback(c)))
  {
    var t := Next(s, Rollback(c));
    var own := s.calls[c].runtime;
    assert CallOk(s, c);
    forall sid, l, e ensures At(t.registry, sid, l, e) <==> At(s.registry, sid, l, e) && e.runtime != own {
      RollbackIsExact(s, c, sid, l, e);
    }
    hide WithoutGeneration, At;
    forall r ensures IsRegistered(t.registry, r) <==> IsRegistered(s.registry, r) && r != own {
    }
    forall sid, l, e | At(t.registry, sid, l, e) ensures EntryOk(t, sid, l, e) { assert EntryOk(s, sid, l, e); }
    hide IsRegistered;
    forall d ensures CallOk(t, d) { assert CallOk(s, d); }
    assert Holding(t.calls[c], own);
    forall r: RuntimeId | r < |t.owners| ensures Covered(t, r) {
      assert Covered(s, r);
      if Held(s.calls, r) {
        var d :| d in s.calls && Holding(s.calls[d], r);
        if d != c { assert Holding(t.calls[d], r); }
      }
    }
  }

  /** Ending runtimes that are not registered and not about to be. */
  lemma EndedKeepsInv(s: State, runtimes: set<RuntimeId>, ok: bool)
    requires Inv(s)
    requires forall r :: r in runtimes ==> r < |s.owners| && !IsRegistered(s.registry, r)
    requires forall c :: c in s.calls && s.calls[c].Started? ==> s.calls[c].runtime !in runtimes
    ensures Inv(Ended(runtimes, ok, s))
  {
    var t := Ended(runtimes, ok, s);
    forall sid, l, e | At(t.registry, sid, l, e) ensures EntryOk(t, sid, l, e) {
      assert EntryOk(s, sid, l, e) && IsRegistered(s.registry, e.runtime);
    }
    forall d ensures CallOk(t, d) { assert CallOk(s, d); }
    forall r: RuntimeId | r < |t.owners| ensures Covered(t, r) { assert Covered(s, r); }
  }

  lemma CleanUpKeepsInv(s: State, c: CallId, ok: bool)
    requires Inv(s) && Enabled(s, CleanUp(c, ok))
    ensures Inv(Next(s, CleanUp(c, ok)))
  {
    var own := s.calls[c].runtime;
    assert CallOk(s, c);
    forall d | d in s.calls && s.calls[d].Started? ensures s.calls[d].runtime != own { assert CallOk(s, d); }
    EndedKeepsInv(s, {own}, ok);
    var u := Ended({own}, ok, s);
    var t := Next(s, CleanUp(c, ok));
    assert t == u.(calls := t.calls);
    CallMoves(u, t, c);
  }

  lemma DrainKeepsInv(s: State, c: CallId, handles: seq<RuntimeId>)
    requires Inv(s) && Enabled(s, Drain(c, handles))
    ensures Inv(Next(s, Drain(c, handles)))
  {
    var t := Next(s, Drain(c, handles));
    forall r | r in handles ensures WasInserted(s.insertions, r) {
      var sid, l, e :| At(s.registry, sid, l, e) && e.runtime == r;
      assert EntryOk(s, sid, l, e);
    }
    forall r ensures !IsRegistered(t.registry, r) {}
    hide WasInserted, IsRegistered;
    forall d ensures CallOk(t, d) { assert CallOk(s, d); }
    forall r: RuntimeId | r < |t.owners| ensures Covered(t, r) {
      assert Covered(s, r);
      if Held(s.calls, r) {
        var d :| d in s.calls && Holding(s.calls[d], r);
        assert Holding(t.calls[d], r);
      } else if IsRegistered(s.registry, r) {
        assert Holding(t.calls[c], r);
      }
    }
  }

  lemma StopKeepsInv(s: State, c: CallId, ok: bool)
    requires Inv(s) && Enabled(s, StopNext(c, ok))
    ensures Inv(Next(s, StopNext(c, ok)))
  {
    var pending := s.calls[c].pending;
    var ending := if ok then {pending[0]} else set r | r in pending;
    assert CallOk(s, c);
    forall d | d in s.calls && s.calls[d].Started? ensures s.calls[d].runtime !in ending { assert CallOk(s, d); }
    forall r | r in ending ensures r < |s.owners| && !IsRegistered(s.registry, r) { assert r in pending; }
    EndedKeepsInv(s, ending, ok);
    var u := Ended(ending, ok, s);
    var t := Next(s, StopNext(c, ok));
    assert t == u.(calls := t.calls);
    forall r: RuntimeId | Holding(s.calls[c], r) ensures Covered(t, r) {
      if r !in ending { assert r in pending[1..]; assert Holding(t.calls[c], r); }
    }
    CallMoves(u, t, c);
  }

  lemma NextKeepsInv(s: State, e: Event)
    requires Inv(s) && Enabled(s, e)
    ensures Inv(Next(s, e))
  {
    match e
    case CreateSession(sid) => SameEntries(s, WithSession(s.registry, sid));
    case RemoveSessionIfEmpty(sid) => SameEntries(s, WithoutEmpty(s.registry, sid));
    case Begin(c, _) => CallMoves(s, Next(s, e), c);
    case StartRuntime(c) => StartKeepsInv(s, c);
    case Register(c) => RegisterKeepsInv(s, c);
    case PersistInitialHead(c, ok) =>
      assert CallOk(s, c);
      CallMoves(s, Next(s, e), c);
    case Rollback(c) => RollbackKeepsInv(s, c);
    case CleanUp(c, ok) => CleanUpKeepsInv(s, c, ok);
    case Drain(c, handles) => DrainKeepsInv(s, c, handles);
    case StopNext(c, ok) => StopKeepsInv(s, c, ok);
    case EndShutdown(c) => CallMoves(s, Next(s, e), c);
  }

  // ---------------------------------------------------------------------------------------
  // Safety over whole runs
  // ---------------------------------------------------------------------------------------

  ghost predicate RunEnabled(s: State, es: seq<Event>)
    decreases |es|
  {
    es == [] || (Enabled(s, es[0]) && RunEnabled(Next(s, es[0]), es[1..]))
  }

  ghost function Run(s: State, es: seq<Event>): State
    requires RunEnabled(s, es)
    decreases |es|
  {
    if es == [] then s else Run(Next(s, es[0]), es[1..])
  }

  lemma {:induction false} RunKeepsInv(s: State, es: seq<Event>)
    requires Inv(s) && RunEnabled(s, es)
    ensures Inv(Run(s, es))
    decreases |es|
  {
    if es != [] {
      NextKeepsInv(s, es[0]);
      RunKeepsInv(Next(s, es[0]), es[1..]);
    }
  }

  lemma ReachableInv(es: seq<Event>)
    requires RunEnabled(Initial, es)
    ensures Inv(Run(Initial, es))
  {
    RunKeepsInv(Initial, es);
  }

  /** The entry was put there by this call. */
  ghost predicate InsertedBy(s: State, c: CallId, e: LaneRuntime) {
    c in s.calls && s.calls[c].RollingBack? && e == LaneRuntime(s.calls[c].runtime, s.calls[c].generation)
  }

  /**
   No step replaces a registered lane. An entry is gone after a step only when that step is the rollback of
   the very call that inserted it, or a server shutdown, which then has its runtime to stop.
   */
  lemma EntriesLeaveOnlyByOwner(es: seq<Event>, step: Event, sid: SessionId, l: LaneId, e: LaneRuntime)
    requires RunEnabled(Initial, es) && Enabled(Run(Initial, es), step)
    requires At(Run(Initial, es).registry, sid, l, e)
    ensures var s := Run(Initial, es);
      var t := Next(s, step);
      || At(t.registry, sid, l, e)
      || (step.Rollback? && InsertedBy(s, step.call, e) && !(sid in t.registry && l in t.registry[sid]))
      || (step.Drain? && Holding(t.calls[step.call], e.runtime) && t.registry == map[])
  {
    ReachableInv(es);
    var s := Run(Initial, es);
    assert EntryOk(s, sid, l, e);
    match step
    case Register(c) =>
      if Refusal(s.registry, s.calls[c].request).None? {
        InsertedAt(s.registry, s.calls[c].request, LaneRuntime(s.calls[c].runtime, |s.insertions| + 1), sid, l, e);
      }
    case Rollback(c) =>
      assert CallOk(s, c);
      RollbackIsExact(s, c, sid, l, e);
    case Drain(c, handles) => assert IsRegistered(s.registry, e.runtime);
    case _ =>
  }

  predicate IsOver(call: Call) {
    call.Spawned? || call.ShutDown? || call.Refused? || call.Undone?
  }

  /**
   Once every call has finished, each runtime ever started is either registered, exactly once, or shut down,
   never both; the exception is a runtime one of whose shutdowns failed or was never reached.
   */
  lemma NoRuntimeIsLeaked(es: seq<Event>, r: RuntimeId)
    requires RunEnabled(Initial, es)
    requires forall c :: c in Run(Initial, es).calls ==> IsOver(Run(Initial, es).calls[c])
    requires r < |Run(Initial, es).owners|
    ensures var s := Run(Initial, es);
      IsRegistered(s.registry, r) <==> r !in s.stopped && r !in s.lost
  {
    ReachableInv(es);
    var s := Run(Initial, es);
    assert Covered(s, r);
    if IsRegistered(s.registry, r) {
      var sid, l, e :| At(s.registry, sid, l, e) && e.runtime == r;
      assert EntryOk(s, sid, l, e);
    }
  }

  lemma RegisteredAtMostOnce(es: seq<Event>, sid: SessionId, l: LaneId, e: LaneRuntime, sid': SessionId, l': LaneId,
      e': LaneRuntime)
    requires RunEnabled(Initial, es)
    requires At(Run(Initial, es).registry, sid, l, e) && At(Run(Initial, es).registry, sid', l', e')
    requires e.runtime == e'.runtime || e.generation == e'.generation
    ensures sid == sid' && l == l' && e == e'
  {
    ReachableInv(es);
    RegisteredOnce(Run(Initial, es), sid, l, e, sid', l', e');
  }

  /** A spawn or fork that ends in an error after starting a runtime leaves nothing of it behind. */
  lemma FailedCallLeavesNothing(es: seq<Event>, c: CallId)
    requires RunEnabled(Initial, es)
    requires c in Run(Initial, es).calls && Run(Initial, es).calls[c].Undone?
    ensures var s := Run(Initial, es);
      && !IsRegistered(s.registry, s.calls[c].runtime)
      && (s.calls[c].runtime in s.stopped || s.calls[c].runtime in s.lost)
      && Owns(s.owners, c, s.calls[c].runtime)
  {
    ReachableInv(es);
    var s := Run(Initial, es);
    assert CallOk(s, c);
    forall sid, l, e | At(s.registry, sid, l, e) ensures e.runtime != s.calls[c].runtime {
      assert EntryOk(s, sid, l, e);
    }
  }

  /**
   A lane whose spawn or fork succeeded stays registered until a server shutdown takes it, and only then can its runtime
   have been stopped: no other call's rollback or clean-up touches it.
   */
  lemma SpawnedStaysUntilShutdown(es: seq<Event>, c: CallId)
    requires RunEnabled(Initial, es)
    requires c in Run(Initial, es).calls && Run(Initial, es).calls[c].Spawned?
    ensures var s := Run(Initial, es);
      var r := s.calls[c].runtime;
      && (IsRegistered(s.registry, r) <==> r !in s.drained)
      && (r in s.stopped || r in s.lost ==> r in s.drained)
  {
    ReachableInv(es);
    var s := Run(Initial, es);
    var r := s.calls[c].runtime;
    assert CallOk(s, c);
    if IsRegistered(s.registry, r) {
      var sid, l, e :| At(s.registry, sid, l, e) && e.runtime == r;
      assert EntryOk(s, sid, l, e);
    }
  }

  // ---------------------------------------------------------------------------------------
  // Calls that nobody disturbs
  // ---------------------------------------------------------------------------------------

  predicate Persists(q: Request) {
    q.ForkLane? || q.persistInitial
  }

  /** A call that is refused at once leaves everything as it was. */
  lemma RefusedCall(s: State, c: CallId, q: Request, error: ServerError)
    requires Enabled(s, Begin(c, q)) && Refuses(s.registry, q, error)
    ensures Next(s, Begin(c, q)) == s.(calls := s.calls[c := Refused(error)])
  {
    AdmittedExactly(s.registry, q);
  }

  lemma RunTwo(s: State, a: Event, b: Event)
    requires Enabled(s, a) && Enabled(Next(s, a), b)
    ensures RunEnabled(s, [a, b]) && Run(s, [a, b]) == Next(Next(s, a), b)
  {
    hide Enabled, Next;
    assert [a, b][1..] == [b] && [b][1..] == [];
    var t := Next(s, a);
    assert RunEnabled(t, [b]) && Run(t, [b]) == Run(Next(t, b), []);
  }

  lemma RunThree(s: State, a: Event, b: Event, c: Event)
    requires Enabled(s, a) && Enabled(Next(s, a), b) && Enabled(Next(Next(s, a), b), c)
    ensures RunEnabled(s, [a, b, c]) && Run(s, [a, b, c]) == Next(Next(Next(s, a), b), c)
  {
    RunTwo(Next(s, a), b, c);
    hide Enabled, Next;
    assert [a, b, c][1..] == [b, c];
  }

  /** The entry that the call is about to make. */
  function EntryOf(s: State): LaneRuntime {
    LaneRuntime(|s.owners|, |s.insertions| + 1)
  }

  /** An admitted call, up to its insertion: it starts one runtime and registers that, and nothing else. */
  lemma AdmittedCall(s: State, c: CallId, q: Request)
    requires Enabled(s, Begin(c, q)) && Admits(s.registry, q)
    ensures RunEnabled(s, [Begin(c, q), StartRuntime(c), Register(c)])
    ensures var t := Run(s, [Begin(c, q), StartRuntime(c), Register(c)]);
      var r, g := EntryOf(s).runtime, EntryOf(s).generation;
      && (forall sid, l, e :: At(t.registry, sid, l, e) <==>
            At(s.registry, sid, l, e) || (sid == q.session && l == q.lane && e == EntryOf(s)))
      && t.registry.Keys == s.registry.Keys && t.stopped == s.stopped && t.lost == s.lost
      && t.calls == s.calls[c := if Persists(q) then Registered(q, r, g) else Spawned(r)]
  {
    AdmittedExactly(s.registry, q);
    var a, b, d := Begin(c, q), StartRuntime(c), Register(c);
    var s2 := Next(Next(s, a), b);
    assert s2.registry == s.registry && s2.calls == s.calls[c := Started(q, |s.owners|)];
    RunThree(s, a, b, d);
    hide RunEnabled, Run;
    assert Next(s2, d) == AfterRegister(s2, c);
    forall sid, l, e
      ensures At(Next(s2, d).registry, sid, l, e) <==>
                At(s.registry, sid, l, e) || (sid == q.session && l == q.lane && e == EntryOf(s))
    {
      InsertedAt(s.registry, q, EntryOf(s), sid, l, e);
    }
  }

  /** When its initial head is persisted the call has succeeded; nothing else changes. */
  lemma PersistedCall(s: State, c: CallId)
    requires Enabled(s, PersistInitialHead(c, true))
    ensures Next(s, PersistInitialHead(c, true)) == s.(calls := s.calls[c := Spawned(s.calls[c].runtime)])
  {
  }

  /**
   When that fails the call takes its own entry out, shuts its runtime down, and ends with the error of the storage.
   */
  lemma RolledBackCall(s: State, c: CallId, q: Request, r: RuntimeId, g: nat, ok: bool)
    requires Enabled(s, PersistInitialHead(c, false)) && s.calls[c] == Registered(q, r, g)
    requires At(s.registry, q.session, q.lane, LaneRuntime(r, g))
    ensures RunEnabled(s, [PersistInitialHead(c, false), Rollback(c), CleanUp(c, ok)])
    ensures var t := Run(s, [PersistInitialHead(c, false), Rollback(c), CleanUp(c, ok)]);
      && (forall sid, l, e :: At(t.registry, sid, l, e) <==>
            At(s.registry, sid, l, e) && !(sid == q.session && l == q.lane))
      && t.registry.Keys == s.registry.Keys && t.calls == s.calls[c := Undone(r, StorageFailed)]
      && (if ok then t.stopped == s.stopped + {r} && t.lost == s.lost
          else t.stopped == s.stopped && t.lost == s.lost + {r})
  {
    var a, b, d := PersistInitialHead(c, false), Rollback(c), CleanUp(c, ok);
    assert Next(s, a) == s.(calls := s.calls[c := RollingBack(q, r, g)]);
    RunThree(s, a, b, d);
    hide RunEnabled, Run;
  }

  /** A call that the second check refuses changes nothing in the registry, shuts its runtime down, and ends so. */
  lemma LateRefusal(s: State, c: CallId, q: Request, r: RuntimeId, error: ServerError, ok: bool)
    requires Enabled(s, Register(c)) && s.calls[c] == Started(q, r) && Refuses(s.registry, q, error)
    ensures RunEnabled(s, [Register(c), CleanUp(c, ok)])
    ensures var t := Run(s, [Register(c), CleanUp(c, ok)]);
      && t.registry == s.registry && t.calls == s.calls[c := Undone(r, error)]
      && (if ok then t.stopped == s.stopped + {r} && t.lost == s.lost
          else t.stopped == s.stopped && t.lost == s.lost + {r})
  {
    AdmittedExactly(s.registry, q);
    var a, b := Register(c), CleanUp(c, ok);
    assert Next(s, a) == s.(calls := s.calls[c := Cleaning(r, error)]);
    RunTwo(s, a, b);
    hide RunEnabled, Run;
  }

  /** Creating a session adds it, empty, unless it is there; removing takes it out only while it has no lane. */
  lemma SessionSteps(s: State, sid: SessionId)
    ensures var t := Next(s, CreateSession(sid));
      && t == s.(registry := t.registry) && t.registry.Keys == s.registry.Keys + {sid}
      && forall k, l, e :: At(t.registry, k, l, e) <==> At(s.registry, k, l, e)
    ensures var t := Next(s, RemoveSessionIfEmpty(sid));
      && t == s.(registry := t.registry)
      && (forall k, l, e :: At(t.registry, k, l, e) <==> At(s.registry, k, l, e))
      && (forall k :: k in t.registry <==> k in s.registry && (k != sid || exists l :: HasLane(s.registry, k, l)))
  {
    var t := Next(s, RemoveSessionIfEmpty(sid));
    if sid in s.registry && s.registry[sid] != map[] {
      var l :| l in s.registry[sid];
      assert At(s.registry, sid, l, s.registry[sid][l]);
      assert HasLane(s.registry, sid, l);
    }
  }

  /** All the steps of a shutdown none of whose runtimes fails to stop. */
  function StopAll(c: CallId, n: nat): seq<Event> {
    if n == 0 then [EndShutdown(c)] else [StopNext(c, true)] + StopAll(c, n - 1)
  }

  lemma {:induction false} AllAreStopped(s: State, c: CallId)
    requires c in s.calls && s.calls[c].Draining?
    ensures var es := StopAll(c, |s.calls[c].pending|);
      && RunEnabled(s, es)
      && Run(s, es) == s.(calls := s.calls[c := ShutDown], stopped := s.stopped + set r | r in s.calls[c].pending)
    decreases |s.calls[c].pending|
  {
    var pending := s.calls[c].pending;
    var es := StopAll(c, |pending|);
    if pending == [] {
      assert es[1..] == [];
      assert (set r | r in pending) == {};
    } else {
      var t := Next(s, StopNext(c, true));
      assert t.calls[c] == Draining(pending[1..]);
      hide Next;
      assert es[1..] == StopAll(c, |pending| - 1);
      assert pending == [pending[0]] + pending[1..];
      AllAreStopped(t, c);
      assert (set r | r in pending) == {pending[0]} + set r | r in pending[1..];
    }
  }

  /**
   A server shutdown that nobody disturbs empties the registry and stops every runtime that was registered; one runtime
   that does not stop ends it with an error, and the rest is given up.
   */
  lemma ShutdownStopsAll(s: State, c: CallId, handles: seq<RuntimeId>)
    requires Enabled(s, Drain(c, handles))
    ensures var t := Next(s, Drain(c, handles));
      && t.registry == map[] && t.calls == s.calls[c := Draining(handles)] && t.stopped == s.stopped && t.lost == s.lost
      && RunEnabled(t, StopAll(c, |handles|))
      && var u := Run(t, StopAll(c, |handles|));
         && u.registry == map[] && u.calls == s.calls[c := ShutDown] && u.lost == s.lost
         && forall r :: r in u.stopped <==> r in s.stopped || IsRegistered(s.registry, r)
    ensures handles != [] ==>
      var u := Next(Next(s, Drain(c, handles)), StopNext(c, false));
      && u.registry == map[] && u.calls == s.calls[c := Refused(AgentFailed)] && u.stopped == s.stopped
      && forall r :: r in u.lost <==> r in s.lost || IsRegistered(s.registry, r)
  {
    AllAreStopped(Next(s, Drain(c, handles)), c);
    hide IsRegistered;
  }

  // ---------------------------------------------------------------------------------------
  // The server object
  // ---------------------------------------------------------------------------------------

  /** A method is one hold of the registry mutex. The runtimes themselves are only named here. */
  class AgentServer {
    var sessions: Registry
    var nextGeneration: nat

    constructor ()
      ensures sessions == map[] && nextGeneration == 1
    {
      sessions := map[];
      nextGeneration := 1;
    }

    method CreateSession(session: SessionId) returns (r: Result<(), ServerError>)
      modifies this`sessions
      ensures sessions == WithSession(old(sessions), session)
      ensures r == if session in old(sessions) then Err(DuplicateSession) else Ok(())
    {
      if session in sessions {
        return Err(DuplicateSession);
      }
      sessions := sessions[session := map[]];
      return Ok(());
    }

    /** The first check of a spawn or fork. */
    method CheckLane(request: Request) returns (refusal: Option<ServerError>)
      ensures refusal == Refusal(sessions, request)
      ensures if refusal.None? then Admits(sessions, request) else Refuses(sessions, request, refusal.value)
    {
      AdmittedExactly(sessions, request);
      if request.session !in sessions {
        return Some(SessionNotFound);
      }
      var lanes := sessions[request.session];
      if request.lane in lanes {
        return Some(LaneAlreadyExists);
      }
      if request.ForkLane? && request.from !in lanes {
        return Some(LaneNotFound);
      }
      return None;
    }

    /** The second check and the insertion, in one hold. */
    method InsertLane(request: Request, runtime: RuntimeId) returns (r: Result<nat, ServerError>)
      modifies this
      ensures Refusal(old(sessions), request).Some? ==>
                r == Err(Refusal(old(sessions), request).value) && sessions == old(sessions)
                    && nextGeneration == old(nextGeneration)
      ensures Refusal(old(sessions), request).None? ==>
                && r == Ok(old(nextGeneration)) && nextGeneration == old(nextGeneration) + 1
                && sessions == Inserted(old(sessions), request, LaneRuntime(runtime, old(nextGeneration)))
      ensures if r.Ok? then Admits(old(sessions), request) else Refuses(old(sessions), request, r.error)
      ensures forall sid, l, e :: At(sessions, sid, l, e) <==>
                || At(old(sessions), sid, l, e)
                || (r.Ok? && sid == request.session && l == request.lane && e == LaneRuntime(runtime, r.value))
    {
      var refusal := CheckLane(request);
      if refusal.Some? {
        return Err(refusal.value);
      }
      var generation := nextGeneration;
      nextGeneration := nextGeneration + 1;
      var lanes := sessions[request.session][request.lane := LaneRuntime(runtime, generation)];
      sessions := sessions[request.session := lanes];
      return Ok(generation);
    }

    method RemoveLaneIfGeneration(session: SessionId, lane: LaneId, generation: nat)
      modifies this`sessions
      ensures sessions == WithoutGeneration(old(sessions), session, lane, generation)
    {
      if session in sessions {
        var lanes := sessions[session];
        if lane in lanes && lanes[lane].generation == generation {
          sessions := sessions[session := lanes - {lane}];
        }
      }
    }

    method RemoveSessionIfEmpty(session: SessionId)
      modifies this`sessions
      ensures sessions == WithoutEmpty(old(sessions), session)
    {
      if session in sessions && |sessions[session]| == 0 {
        sessions := sessions - {session};
      }
    }

    /** Empties the registry and hands every registered runtime to the caller, to be shut down one by one. */
    method Drain() returns (handles: seq<RuntimeId>)
      modifies this`sessions
      ensures sessions == map[]
      ensures forall r :: r in handles <==> IsRegistered(old(sessions), r)
    {
      var drained := sessions;
      sessions := map[];
      handles := [];
      var left := drained.Keys;
      while left != {}
        invariant left <= drained.Keys
        invariant forall r :: r in handles ==> IsRegistered(drained, r)
        invariant forall sid, l, e :: sid !in left && At(drained, sid, l, e) ==> e.runtime in handles
      {
        var sid :| sid in left;
        var lanes := drained[sid];
        var names := lanes.Keys;
        while names != {}
          invariant names <= lanes.Keys
          invariant forall r :: r in handles ==> IsRegistered(drained, r)
          invariant forall k, l, e ::
                      At(drained, k, l, e) && (k !in left || (k == sid && l !in names)) ==> e.runtime in handles
        {
          var l :| l in names;
          assert At(drained, sid, l, lanes[l]);
          handles := handles + [lanes[l].runtime];
          names := names - {l};
        }
        left := left - {sid};
      }
    }
  }
}
