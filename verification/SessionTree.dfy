/**
 The session tree of src/core/session.rs: replaying message entries into a tree, checking
 the tree, listing its leaves and reading the path from the root to a leaf.
 */
module SessionTree {
  import opened Wrappers

  type NodeId = nat

  /** A message in its serialised form; the tree never looks inside it. */
  type Message = string

  datatype SessionEntry = SessionEntry(id: NodeId, parentId: Option<NodeId>, message: Message)

  datatype SessionNode = SessionNode(id: NodeId, parentId: Option<NodeId>, message: Message, children: seq<NodeId>)

  datatype SessionTree = SessionTree(sessionId: string, root: Option<NodeId>, nodes: map<NodeId, SessionNode>)

  datatype SessionError =
    | DuplicateNode(id: NodeId)
    | ParentNotFound(id: NodeId)
    | MultipleRoots
    | Cycle
    | IdExhausted
    | Io

  // ---------------------------------------------------------------------------------------
  // Ascending key order: the iteration order of a BTreeMap
  // ---------------------------------------------------------------------------------------

  ghost predicate StrictlyAscending(s: seq<nat>) {
    forall i, j :: 0 <= i < j < |s| ==> s[i] < s[j]
  }

  predicate IsLeast(s: set<nat>, m: nat) {
    m in s && forall x :: x in s ==> m <= x
  }

  lemma {:induction false} LeastExists(s: set<nat>)
    requires s != {}
    ensures exists m :: m in s && IsLeast(s, m)
  {
    var x :| x in s;
    var rest := s - {x};
    if rest == {} {
      forall y | y in s ensures x <= y { assert y !in rest; }
      assert IsLeast(s, x);
    } else {
      LeastExists(rest);
      var m :| m in rest && IsLeast(rest, m);
      var least := if m < x then m else x;
      forall y | y in s ensures least <= y { assert y == x || y in rest; }
      assert IsLeast(s, least);
    }
  }

  /** The elements of a set in ascending order. */
  function Ascending(s: set<nat>): (r: seq<nat>)
    ensures StrictlyAscending(r)
    ensures forall x :: x in r <==> x in s
  {
    if s == {} then []
    else
      LeastExists(s);
      var m :| m in s && IsLeast(s, m);
      var rest := Ascending(s - {m});
      assert forall k :: 0 <= k < |rest| ==> rest[k] in rest;
      [m] + rest
  }

  /** The keys of an ordered map, in iteration order. */
  method KeysOf<V>(m: map<nat, V>) returns (keys: seq<nat>)
    ensures StrictlyAscending(keys)
    ensures forall x :: x in keys <==> x in m
  {
    keys := Ascending(m.Keys);
  }

  /** An ascending sequence is determined by its elements. */
  lemma {:induction false} AscendingUnique(a: seq<nat>, b: seq<nat>)
    requires StrictlyAscending(a) && StrictlyAscending(b)
    requires forall x :: x in a <==> x in b
    ensures a == b
  {
    assert a == [] <==> b == [] by {
      if a != [] { assert a[0] in a; }
      if b != [] { assert b[0] in b; }
    }
    if a != [] {
      assert a[0] in b && b[0] in a;
      assert a[0] == b[0];
      forall x ensures x in a[1..] <==> x in b[1..] {
        if x in a[1..] { assert x in b; }
        if x in b[1..] { assert x in a; }
      }
      AscendingUnique(a[1..], b[1..]);
    }
  }

  // ---------------------------------------------------------------------------------------
  // The parent relation
  // ---------------------------------------------------------------------------------------

  type Links = map<NodeId, Option<NodeId>>

  /** The node reached from `from` by `steps` parent links; None once past a root. */
  ghost function Climb(links: Links, from: Option<NodeId>, steps: nat): Option<NodeId>
    decreases steps
  {
    if steps == 0 || from.None? then from
    else if from.value in links then Climb(links, links[from.value], steps - 1)
    else None
  }

  /** No node is its own proper ancestor. */
  ghost predicate Acyclic(links: Links) {
    forall id, k: nat :: id in links && 0 < k ==> Climb(links, Some(id), k) != Some(id)
  }

  ghost predicate ParentPresent(links: Links, id: NodeId)
    requires id in links
  {
    links[id].Some? ==> links[id].value in links
  }

  /** Every parent named by a link is itself a node. */
  ghost predicate ParentsPresent(links: Links) {
    forall id {:trigger ParentPresent(links, id)} :: id in links ==> ParentPresent(links, id)
  }

  /** Following parents from `id` runs past a root. */
  ghost predicate Grounded(links: Links, id: NodeId) {
    exists k: nat :: Climb(links, Some(id), k) == None
  }

  ghost predicate MetBefore(links: Links, id: NodeId, steps: nat, x: NodeId) {
    exists i: nat :: i < steps && Climb(links, Some(id), i) == Some(x)
  }

  lemma {:induction false} ClimbAdd(links: Links, from: Option<NodeId>, i: nat, j: nat)
    ensures Climb(links, from, i + j) == Climb(links, Climb(links, from, i), j)
    decreases i
  {
    if i != 0 && from.Some? && from.value in links {
      ClimbAdd(links, links[from.value], i - 1, j);
    }
  }

  /** A node on a cycle is never grounded. */
  lemma {:induction false} CycleNeverGrounded(links: Links, id: NodeId, period: nat, k: nat)
    requires 0 < period && Climb(links, Some(id), period) == Some(id)
    ensures Climb(links, Some(id), k) != None
    decreases k
  {
    if k < period {
      ClimbAdd(links, Some(id), k, period - k);
    } else {
      ClimbAdd(links, Some(id), period, k - period);
      CycleNeverGrounded(links, id, period, k - period);
    }
  }

  /** Climbing visits new nodes until it runs past a root, so it cannot take more steps than there are nodes. */
  lemma {:induction false} GroundedFrom(links: Links, id: NodeId, done: nat, seen: set<NodeId>)
    requires Acyclic(links) && id in links
    requires seen <= links.Keys
    requires forall x :: x in seen ==> MetBefore(links, id, done, x)
    ensures Grounded(links, id)
    decreases links.Keys - seen
  {
    var here := Climb(links, Some(id), done);
    if here.Some? && here.value in links {
      if here.value in seen {
        var i: nat :| i < done && Climb(links, Some(id), i) == here;
        ClimbAdd(links, Some(id), i, done - i);
        assert false;
      }
      forall x | x in seen ensures MetBefore(links, id, done + 1, x) {
        var i: nat :| i < done && Climb(links, Some(id), i) == Some(x);
        assert i < done + 1;
      }
      assert done < done + 1;
      GroundedFrom(links, id, done + 1, seen + {here.value});
    } else if here.Some? {
      ClimbAdd(links, Some(id), done, 1);
      assert Climb(links, Some(id), done + 1) == None;
    }
  }

  /** There is a cycle exactly when some node never climbs past a root. */
  lemma AcyclicIffGrounded(links: Links)
    ensures Acyclic(links) <==> forall id :: id in links ==> Grounded(links, id)
  {
    if Acyclic(links) {
      forall id | id in links ensures Grounded(links, id) {
        GroundedFrom(links, id, 0, {});
      }
    } else {
      var id, k: nat :| id in links && 0 < k && Climb(links, Some(id), k) == Some(id);
      forall n: nat ensures Climb(links, Some(id), n) != None {
        CycleNeverGrounded(links, id, k, n);
      }
      assert !Grounded(links, id);
    }
  }

  // ---------------------------------------------------------------------------------------
  // What a list of entries must satisfy, and the tree it stands for
  // ---------------------------------------------------------------------------------------

  ghost function Ids(es: seq<SessionEntry>): set<NodeId> {
    set e | e in es :: e.id
  }

  ghost predicate UniqueIds(es: seq<SessionEntry>) {
    forall i, j :: 0 <= i < j < |es| ==> es[i].id != es[j].id
  }

  ghost predicate AtMostOneRoot(es: seq<SessionEntry>) {
    forall i, j :: 0 <= i < j < |es| ==> es[i].parentId.Some? || es[j].parentId.Some?
  }

  ghost predicate ParentsExist(es: seq<SessionEntry>) {
    forall e :: e in es && e.parentId.Some? ==> e.parentId.value in Ids(es)
  }

  /** What the first pass over the entries checks. */
  ghost predicate ScanOk(es: seq<SessionEntry>) {
    UniqueIds(es) && AtMostOneRoot(es)
  }

  /** Some entry carrying this id; the only one when ids are unique. */
  ghost function EntryWith(es: seq<SessionEntry>, id: NodeId): (e: SessionEntry)
    requires id in Ids(es)
    ensures e in es && e.id == id
  {
    var e :| e in es && e.id == id;
    e
  }

  ghost function EntryLinks(es: seq<SessionEntry>): Links {
    map id | id in Ids(es) :: EntryWith(es, id).parentId
  }

  ghost predicate WellFormed(es: seq<SessionEntry>) {
    ScanOk(es) && ParentsExist(es) && Acyclic(EntryLinks(es))
  }

  ghost function ChildIds(es: seq<SessionEntry>, id: NodeId): set<NodeId> {
    set e | e in es && e.parentId == Some(id) :: e.id
  }

  /** The tree has exactly the entries as nodes, and its child lists are inverse to the parent links. */
  ghost predicate IsTreeOf(t: SessionTree, es: seq<SessionEntry>, sessionId: string) {
    && t.sessionId == sessionId
    && t.nodes.Keys == Ids(es)
    && (forall e :: e in es ==>
          t.nodes[e.id] == SessionNode(e.id, e.parentId, e.message, Ascending(ChildIds(es, e.id))))
    && (forall e :: e in es && e.parentId.None? ==> t.root == Some(e.id))
    && (t.root.Some? ==> t.root.value in Ids(es) && EntryWith(es, t.root.value).parentId.None?)
  }

  lemma EntryWithUnique(es: seq<SessionEntry>, e: SessionEntry)
    requires UniqueIds(es) && e in es
    ensures EntryWith(es, e.id) == e
  {
    var f := EntryWith(es, e.id);
    var i :| 0 <= i < |es| && es[i] == e;
    var j :| 0 <= j < |es| && es[j] == f;
    assert i == j;
  }

  /** At most one tree stands for a list of entries. */
  lemma TreeUnique(t1: SessionTree, t2: SessionTree, es: seq<SessionEntry>, sessionId: string)
    requires IsTreeOf(t1, es, sessionId) && IsTreeOf(t2, es, sessionId)
    ensures t1 == t2
  {
    forall id | id in t1.nodes ensures t1.nodes[id] == t2.nodes[id] {
      var e := EntryWith(es, id);
    }
    if t1.root.Some? {
      var e := EntryWith(es, t1.root.value);
    }
    if t2.root.Some? {
      var e := EntryWith(es, t2.root.value);
    }
  }

  // ---------------------------------------------------------------------------------------
  // Order of entries does not matter
  // ---------------------------------------------------------------------------------------

  lemma {:induction false} OccursTwice<T>(s: seq<T>, i: nat, j: nat)
    requires i < j < |s| && s[i] == s[j]
    ensures multiset(s)[s[i]] >= 2
  {
    assert s == s[..j] + [s[j]] + s[j + 1..];
    assert s[..j][i] in s[..j];
  }

  lemma {:induction false} PermutationKeepsUniqueIds(a: seq<SessionEntry>, b: seq<SessionEntry>)
    requires multiset(a) == multiset(b) && UniqueIds(a)
    ensures UniqueIds(b)
  {
    forall i, j | 0 <= i < j < |b| ensures b[i].id != b[j].id {
      assert b[i] in multiset(a) && b[j] in multiset(a);
      if b[i] == b[j] {
        OccursTwice(b, i, j);
        OccursOnce(a, b[i]);
        assert false;
      }
      EntryWithUnique(a, b[i]);
      EntryWithUnique(a, b[j]);
    }
  }

  lemma {:induction false} OccursOnce(es: seq<SessionEntry>, e: SessionEntry)
    requires UniqueIds(es)
    ensures multiset(es)[e] <= 1
  {
    if es != [] {
      var rest := es[..|es| - 1];
      assert es == rest + [es[|es| - 1]];
      OccursOnce(rest, e);
      assert e == es[|es| - 1] ==> e !in rest;
    }
  }

  /** Reordering entries changes neither whether they form a tree nor which tree they form. */
  lemma ReduceIgnoresOrder(a: seq<SessionEntry>, b: seq<SessionEntry>, t: SessionTree, sessionId: string)
    requires multiset(a) == multiset(b)
    ensures WellFormed(a) <==> WellFormed(b)
    ensures IsTreeOf(t, a, sessionId) && WellFormed(a) <==> IsTreeOf(t, b, sessionId) && WellFormed(b)
  {
    SameUpToOrder(a, b, t, sessionId);
    SameUpToOrder(b, a, t, sessionId);
  }

  lemma SameUpToOrder(a: seq<SessionEntry>, b: seq<SessionEntry>, t: SessionTree, sessionId: string)
    requires multiset(a) == multiset(b)
    ensures WellFormed(a) ==> WellFormed(b)
    ensures WellFormed(a) && IsTreeOf(t, a, sessionId) ==> IsTreeOf(t, b, sessionId)
  {
    if WellFormed(a) {
      SameMembers(a, b);
      PermutationKeepsUniqueIds(a, b);
      forall id | id in Ids(a) ensures EntryWith(a, id) == EntryWith(b, id) {
        EntryWithUnique(a, EntryWith(b, id));
      }
      assert EntryLinks(a) == EntryLinks(b);
      forall i, j | 0 <= i < j < |b| ensures b[i].parentId.Some? || b[j].parentId.Some? {
        assert b[i] in a && b[j] in a;
        var k :| 0 <= k < |a| && a[k] == b[i];
        var l :| 0 <= l < |a| && a[l] == b[j];
        assert b[i].id != b[j].id;
      }
      forall id ensures ChildIds(a, id) == ChildIds(b, id) {
      }
    }
  }

  lemma SameMembers(a: seq<SessionEntry>, b: seq<SessionEntry>)
    requires multiset(a) == multiset(b)
    ensures forall e :: e in a <==> e in b
    ensures Ids(a) == Ids(b)
  {
    forall e ensures e in a <==> e in b {
      assert e in a <==> e in multiset(a);
      assert e in b <==> e in multiset(b);
    }
  }

  // ---------------------------------------------------------------------------------------
  // reduce_for and check_acyclic
  // ---------------------------------------------------------------------------------------

  ghost function ParentLinks(nodes: map<NodeId, SessionNode>): Links {
    map id | id in nodes :: nodes[id].parentId
  }

  datatype Colour = InProgress | Done

  /** `path` runs from its first node along parent links, and `cursor` is what follows its last node. */
  ghost predicate IsClimb(links: Links, start: NodeId, path: seq<NodeId>, cursor: Option<NodeId>) {
    && (forall i :: 0 <= i < |path| ==> Climb(links, Some(start), i) == Some(path[i]) && path[i] in links)
    && cursor == Climb(links, Some(start), |path|)
  }

  lemma ClimbExtends(links: Links, start: NodeId, path: seq<NodeId>, id: NodeId)
    requires IsClimb(links, start, path, Some(id)) && id in links
    ensures IsClimb(links, start, path + [id], links[id])
  {
    ClimbAdd(links, Some(start), |path|, 1);
  }

  lemma ClimbCloses(links: Links, start: NodeId, path: seq<NodeId>, id: NodeId)
    requires IsClimb(links, start, path, Some(id)) && id in path
    ensures !Acyclic(links)
  {
    var i :| 0 <= i < |path| && path[i] == id;
    ClimbAdd(links, Some(start), i, |path| - i);
    assert Climb(links, Some(id), |path| - i) == Some(id);
  }

  lemma GroundedBelow(links: Links, start: NodeId, steps: nat)
    requires Climb(links, Some(start), steps) == None
      || (Climb(links, Some(start), steps).Some? && Grounded(links, Climb(links, Some(start), steps).value))
    ensures forall i: nat, id :: i <= steps && Climb(links, Some(start), i) == Some(id) ==> Grounded(links, id)
  {
    forall i: nat, id | i <= steps && Climb(links, Some(start), i) == Some(id) ensures Grounded(links, id) {
      ClimbAdd(links, Some(start), i, steps - i);
      if Climb(links, Some(start), steps).Some? {
        var k: nat :| Climb(links, Climb(links, Some(start), steps), k) == None;
        ClimbAdd(links, Some(id), steps - i, k);
        assert Climb(links, Some(id), steps - i + k) == None;
      } else {
        assert Climb(links, Some(id), steps - i) == None;
      }
    }
  }

  /** Between two starting points every coloured node is done, and a done node climbs past a root. */
  ghost predicate Settled(links: Links, state: map<NodeId, Colour>) {
    forall id :: id in state ==> state[id] == Done && id in links && Grounded(links, id)
  }

  lemma AllGroundedIsAcyclic(links: Links, state: map<NodeId, Colour>, keys: seq<NodeId>)
    requires Settled(links, state)
    requires forall id :: id in links ==> id in keys
    requires forall k :: 0 <= k < |keys| ==> keys[k] in state
    ensures Acyclic(links)
  {
    AcyclicIffGrounded(links);
  }

  function MarkDone(state: map<NodeId, Colour>, path: seq<NodeId>): (r: map<NodeId, Colour>)
    ensures r.Keys == state.Keys + (set id | id in path)
    ensures forall id :: id in r ==> r[id] == if id in path then Done else state[id]
    decreases |path|
  {
    if path == [] then state else MarkDone(state[path[0] := Done], path[1..])
  }

  /** Climbs from an uncoloured node, marking the nodes passed, until the chain ends, meets a done node or closes. */
  method MarkChain(nodes: map<NodeId, SessionNode>, before: map<NodeId, Colour>, start: NodeId)
    returns (r: Result<map<NodeId, Colour>, SessionError>)
    requires ParentsPresent(ParentLinks(nodes)) && Settled(ParentLinks(nodes), before)
    requires start in nodes && start !in before
    ensures r.Ok? ==> Settled(ParentLinks(nodes), r.value) && before.Keys + {start} <= r.value.Keys
    ensures r.Err? ==> r.error == Cycle && !Acyclic(ParentLinks(nodes))
  {
    ghost var links := ParentLinks(nodes);
    var state := before;
    var path: seq<NodeId> := [];
    var cursor := Some(start);
    while cursor.Some?
      invariant IsClimb(links, start, path, cursor)
      invariant cursor.Some? ==> cursor.value in nodes
      invariant before.Keys <= state.Keys <= nodes.Keys
      invariant forall id :: id in state ==> state[id] == if id in before then Done else InProgress
      invariant forall id :: id in state && id !in before <==> id in path
      invariant path == [] ==> cursor == Some(start)
      decreases nodes.Keys - state.Keys
    {
      var id := cursor.value;
      if id in state && state[id] == InProgress {
        ClimbCloses(links, start, path, id);
        return Err(Cycle);
      } else if id in state {
        break;
      }
      assert id in nodes.Keys - state.Keys;
      state := state[id := InProgress];
      ClimbExtends(links, start, path, id);
      assert ParentPresent(links, id);
      path := path + [id];
      cursor := nodes[id].parentId;
    }
    assert path[0] in path;
    forall id | id in path ensures Grounded(links, id) {
      GroundedBelow(links, start, |path|);
    }
    r := Ok(MarkDone(state, path));
  }

  /** Walks every parent chain with three colours: unvisited, in progress, done. */
  method CheckAcyclic(nodes: map<NodeId, SessionNode>) returns (r: Result<(), SessionError>)
    requires ParentsPresent(ParentLinks(nodes))
    ensures r.Ok? <==> Acyclic(ParentLinks(nodes))
    ensures r.Err? ==> r.error == Cycle
  {
    ghost var links := ParentLinks(nodes);
    var state: map<NodeId, Colour> := map[];
    var keys := KeysOf(nodes);
    var n := 0;
    while n < |keys|
      invariant 0 <= n <= |keys|
      invariant Settled(links, state)
      invariant forall k :: 0 <= k < n ==> keys[k] in state
    {
      assert keys[n] in keys;
      if keys[n] !in state {
        var marked := MarkChain(nodes, state, keys[n]);
        if marked.Err? {
          return Err(marked.error);
        }
        state := marked.value;
      }
      n := n + 1;
    }
    AllGroundedIsAcyclic(links, state, keys);
    return Ok(());
  }

  type Edge = (NodeId, NodeId)

  ghost predicate IsEdge(nodes: map<NodeId, SessionNode>, edge: Edge) {
    edge.1 in nodes && nodes[edge.1].parentId == Some(edge.0)
  }

  /** All (parent, child) edges, in ascending child order. */
  method CollectEdges(nodes: map<NodeId, SessionNode>) returns (edges: seq<Edge>)
    ensures forall i, j :: 0 <= i < j < |edges| ==> edges[i].1 < edges[j].1
    ensures forall e :: e in edges <==> IsEdge(nodes, e)
  {
    var keys := KeysOf(nodes);
    edges := [];
    var n := 0;
    while n < |keys|
      invariant 0 <= n <= |keys|
      invariant forall i, j :: 0 <= i < j < |edges| ==> edges[i].1 < edges[j].1
      invariant forall i :: 0 <= i < |edges| && n < |keys| ==> edges[i].1 < keys[n]
      invariant forall e :: e in edges ==> IsEdge(nodes, e)
      invariant forall j ::
                  0 <= j < n && nodes[keys[j]].parentId.Some? ==> (nodes[keys[j]].parentId.value, keys[j]) in edges
    {
      assert keys[n] in keys;
      var node := nodes[keys[n]];
      if node.parentId.Some? {
        edges := edges + [(node.parentId.value, keys[n])];
      }
      n := n + 1;
    }
    forall e | IsEdge(nodes, e) ensures e in edges {
      assert e.1 in keys;
    }
  }

  /**
   `children` lists, in ascending order, the child ends of those of the first `done` edges that leave from `parent`.
   */
  ghost predicate Lists(children: seq<NodeId>, edges: seq<Edge>, done: nat, parent: NodeId)
    requires done <= |edges|
  {
    && StrictlyAscending(children)
    && forall c :: c in children <==> (parent, c) in edges[..done]
  }

  lemma ListsGrows(children: seq<NodeId>, edges: seq<Edge>, done: nat, parent: NodeId)
    requires done < |edges| && Lists(children, edges, done, parent)
    requires forall i, j :: 0 <= i < j < |edges| ==> edges[i].1 < edges[j].1
    ensures Lists(if edges[done].0 == parent then children + [edges[done].1] else children, edges, done + 1, parent)
  {
    assert edges[..done + 1] == edges[..done] + [edges[done]];
    forall i | 0 <= i < |children| ensures children[i] < edges[done].1 {
      assert children[i] in children;
      var k :| 0 <= k < done && edges[k] == (parent, children[i]);
    }
  }

  /** Hangs every child under its parent. */
  method FillChildren(bare: map<NodeId, SessionNode>) returns (nodes: map<NodeId, SessionNode>)
    requires forall id :: id in bare ==> bare[id].children == []
    requires ParentsPresent(ParentLinks(bare))
    ensures nodes.Keys == bare.Keys
    ensures forall id :: id in bare ==> nodes[id].(children := []) == bare[id]
    ensures forall id :: id in bare ==> StrictlyAscending(nodes[id].children)
    ensures forall id, c :: id in bare ==> (c in nodes[id].children <==> IsEdge(bare, (id, c)))
  {
    var edges := CollectEdges(bare);
    nodes := bare;
    var n := 0;
    while n < |edges|
      invariant 0 <= n <= |edges|
      invariant nodes.Keys == bare.Keys
      invariant forall id :: id in bare ==> nodes[id].(children := []) == bare[id]
      invariant forall id :: id in bare ==> Lists(nodes[id].children, edges, n, id)
    {
      forall id | id in bare
        ensures Lists(if edges[n].0 == id then nodes[id].children + [edges[n].1] else nodes[id].children, edges,
            n + 1, id)
      {
        ListsGrows(nodes[id].children, edges, n, id);
      }
      var (parent, child) := edges[n];
      assert edges[n] in edges;
      assert ParentPresent(ParentLinks(bare), child);
      if parent in nodes {
        nodes := nodes[parent := nodes[parent].(children := nodes[parent].children + [child])];
      }
      n := n + 1;
    }
    assert edges[..n] == edges;
  }

  /** Entry `n` is the first one that breaks a rule of the scan. */
  ghost predicate FirstRejected(es: seq<SessionEntry>, n: nat)
    requires n < |es|
  {
    ScanOk(es[..n]) && !ScanOk(es[..n + 1])
  }

  lemma FirstRejectedUnique(es: seq<SessionEntry>)
    ensures forall m: nat, n: nat :: m < n <= |es| && ScanOk(es[..n]) ==> ScanOk(es[..m])
    ensures forall m: nat, n: nat :: m < |es| && n < |es| && FirstRejected(es, m) && FirstRejected(es, n) ==> m == n
    ensures forall n: nat :: n < |es| && FirstRejected(es, n) ==> !ScanOk(es)
  {
    assert es[..|es|] == es;
    forall m: nat, n: nat | m < n <= |es| && ScanOk(es[..n]) ensures ScanOk(es[..m]) {
    }
  }

  /** First pass: one bare node per entry, rejecting a repeated id or a second root. */
  method Scan(entries: seq<SessionEntry>)
    returns (r: Result<(), SessionError>, nodes: map<NodeId, SessionNode>, root: Option<NodeId>)
    ensures r.Ok? <==> ScanOk(entries)
    ensures r.Ok? ==> nodes.Keys == Ids(entries)
    ensures r.Ok? ==> forall e :: e in entries ==> nodes[e.id] == SessionNode(e.id, e.parentId, e.message, [])
    ensures r.Ok? ==> forall e :: e in entries && e.parentId.None? ==> root == Some(e.id)
    ensures r.Ok? && root.Some? ==> exists e :: e in entries && e.parentId.None? && root == Some(e.id)
    ensures r.Err? ==> exists n: nat :: n < |entries| && FirstRejected(entries, n) && r.error == RejectionOf(entries, n)
  {
    nodes := map[];
    root := None;
    var n := 0;
    while n < |entries|
      invariant 0 <= n <= |entries|
      invariant ScanOk(entries[..n])
      invariant nodes.Keys == Ids(entries[..n])
      invariant forall e :: e in entries[..n] ==> nodes[e.id] == SessionNode(e.id, e.parentId, e.message, [])
      invariant forall e :: e in entries[..n] && e.parentId.None? ==> root == Some(e.id)
      invariant root.Some? ==> exists e :: e in entries[..n] && e.parentId.None? && root == Some(e.id)
    {
      var entry := entries[n];
      assert entries[..n + 1] == entries[..n] + [entry];
      if entry.id in nodes {
        var e :| e in entries[..n] && e.id == entry.id;
        assert FirstRejected(entries, n);
        FirstRejectedUnique(entries);
        return Err(DuplicateNode(entry.id)), nodes, root;
      }
      if entry.parentId.None? {
        if root.Some? {
          assert FirstRejected(entries, n);
          FirstRejectedUnique(entries);
          return Err(MultipleRoots), nodes, root;
        }
        root := Some(entry.id);
      }
      nodes := nodes[entry.id := SessionNode(entry.id, entry.parentId, entry.message, [])];
      n := n + 1;
    }
    assert entries[..n] == entries;
    r := Ok(());
  }

  /** `id` names the missing parent, and no smaller id misses its own. */
  ghost predicate IsFirstOrphan(nodes: map<NodeId, SessionNode>, id: NodeId, parent: Option<NodeId>) {
    && id in nodes && nodes[id].parentId == parent
    && forall c :: c in nodes && c < id && nodes[c].parentId.Some? ==> nodes[c].parentId.value in nodes
  }

  /** Second pass, in ascending id order: the first parent that is not a node. */
  method FindMissingParent(nodes: map<NodeId, SessionNode>) returns (missing: Option<NodeId>)
    ensures missing.None? <==> ParentsPresent(ParentLinks(nodes))
    ensures missing.Some? ==> missing.value !in nodes && exists id :: id in nodes && IsFirstOrphan(nodes, id, missing)
  {
    var keys := KeysOf(nodes);
    var k := 0;
    while k < |keys|
      invariant 0 <= k <= |keys|
      invariant forall j :: 0 <= j < k ==> nodes[keys[j]].parentId.Some? ==> nodes[keys[j]].parentId.value in nodes
    {
      var node := nodes[keys[k]];
      if node.parentId.Some? && node.parentId.value !in nodes {
        assert keys[k] in keys;
        assert !ParentPresent(ParentLinks(nodes), keys[k]);
        forall c | c in nodes && c < keys[k] && nodes[c].parentId.Some? ensures nodes[c].parentId.value in nodes {
          assert c in keys;
        }
        assert IsFirstOrphan(nodes, keys[k], node.parentId);
        return node.parentId;
      }
      k := k + 1;
    }
    forall id | id in nodes ensures ParentPresent(ParentLinks(nodes), id) {
      assert id in keys;
    }
    return None;
  }

  /** The error the scan gives at the first rejected entry. */
  ghost function RejectionOf(es: seq<SessionEntry>, n: nat): SessionError
    requires n < |es|
  {
    if es[n].id in Ids(es[..n]) then DuplicateNode(es[n].id) else MultipleRoots
  }

  /** Rebuilds the tree from entries in any order, or reports the first violated rule. */
  method ReduceFor(entries: seq<SessionEntry>, sessionId: string) returns (r: Result<SessionTree, SessionError>)
    ensures r.Ok? <==> WellFormed(entries)
    ensures r.Ok? ==> IsTreeOf(r.value, entries, sessionId)
    ensures forall n: nat :: n < |entries| && FirstRejected(entries, n) ==> r == Err(RejectionOf(entries, n))
    ensures ScanOk(entries) && !ParentsExist(entries) ==>
              && r.Err? && r.error.ParentNotFound? && r.error.id !in Ids(entries)
              && exists e :: e in entries && e.parentId == Some(r.error.id)
    ensures ScanOk(entries) && ParentsExist(entries) && !Acyclic(EntryLinks(entries)) ==> r == Err(Cycle)
  {
    FirstRejectedUnique(entries);
    var scanned, nodes, root := Scan(entries);
    if scanned.Err? {
      return Err(scanned.error);
    }
    forall e | e in entries ensures EntryWith(entries, e.id) == e { EntryWithUnique(entries, e); }
    assert ParentLinks(nodes) == EntryLinks(entries);
    var missing := FindMissingParent(nodes);
    if missing.Some? {
      ghost var id :| id in nodes && IsFirstOrphan(nodes, id, missing);
      assert EntryWith(entries, id).parentId == missing;
      return Err(ParentNotFound(missing.value));
    }
    forall e | e in entries && e.parentId.Some? ensures e.parentId.value in Ids(entries) {
      assert ParentPresent(ParentLinks(nodes), e.id);
    }
    var acyclic := CheckAcyclic(nodes);
    if acyclic.Err? {
      return Err(acyclic.error);
    }
    var linked := FillChildren(nodes);
    forall e | e in entries
        ensures linked[e.id] == SessionNode(e.id, e.parentId, e.message, Ascending(ChildIds(entries, e.id))) {
      assert linked[e.id].(children := []) == nodes[e.id];
      forall c ensures c in linked[e.id].children <==> c in ChildIds(entries, e.id) {
        assert IsEdge(nodes, (e.id, c)) <==> c in Ids(entries) && EntryWith(entries, c).parentId == Some(e.id);
      }
      AscendingUnique(linked[e.id].children, Ascending(ChildIds(entries, e.id)));
    }
    r := Ok(SessionTree(sessionId, root, linked));
  }

  // ---------------------------------------------------------------------------------------
  // Reading the tree
  // ---------------------------------------------------------------------------------------

  ghost predicate IsLeaf(nodes: map<NodeId, SessionNode>, id: NodeId) {
    id in nodes && nodes[id].children == []
  }

  /**
   In the tree itself: child lists invert the parent links, in ascending order, and the root is what has no parent.
   */
  lemma ChildrenInvert(t: SessionTree, es: seq<SessionEntry>, sessionId: string)
    requires WellFormed(es) && IsTreeOf(t, es, sessionId)
    ensures forall p :: p in t.nodes ==> StrictlyAscending(t.nodes[p].children)
    ensures forall p, c :: p in t.nodes ==>
              (c in t.nodes[p].children <==> c in t.nodes && t.nodes[c].parentId == Some(p))
    ensures forall id :: id in t.nodes ==> (t.nodes[id].parentId.None? <==> t.root == Some(id))
    ensures forall e :: e in es <==>
              e.id in t.nodes && t.nodes[e.id].parentId == e.parentId && t.nodes[e.id].message == e.message
  {
    hide Acyclic, EntryLinks, ParentsExist;
    forall p | p in t.nodes ensures t.nodes[p].children == Ascending(ChildIds(es, p)) {
      var e := EntryWith(es, p);
    }
    forall id | id in t.nodes
      ensures t.nodes[id].parentId == EntryWith(es, id).parentId && t.nodes[id].message == EntryWith(es, id).message
    {
      var e := EntryWith(es, id);
    }
    forall e | e in es ensures EntryWith(es, e.id) == e {
      EntryWithUnique(es, e);
    }
  }

  /** The ids of all leaves, in ascending order. */
  method Leaves(tree: SessionTree) returns (leaves: seq<NodeId>)
    requires forall id :: id in tree.nodes ==> tree.nodes[id].id == id
    ensures StrictlyAscending(leaves)
    ensures forall id :: id in leaves <==> IsLeaf(tree.nodes, id)
  {
    var keys := KeysOf(tree.nodes);
    leaves := [];
    var n := 0;
    while n < |keys|
      invariant 0 <= n <= |keys|
      invariant StrictlyAscending(leaves)
      invariant forall k :: 0 <= k < |leaves| && n < |keys| ==> leaves[k] < keys[n]
      invariant forall id :: id in leaves ==> IsLeaf(tree.nodes, id)
      invariant forall k :: 0 <= k < n && IsLeaf(tree.nodes, keys[k]) ==> keys[k] in leaves
    {
      assert keys[n] in keys;
      if tree.nodes[keys[n]].children == [] {
        leaves := leaves + [tree.nodes[keys[n]].id];
      }
      n := n + 1;
    }
    forall id | IsLeaf(tree.nodes, id) ensures id in leaves {
      assert id in keys;
    }
  }

  /** The i-th node is there, and its parent is the one before it. */
  ghost predicate StepsDown(nodes: map<NodeId, SessionNode>, ids: seq<NodeId>, i: nat)
    requires i < |ids|
  {
    ids[i] in nodes && nodes[ids[i]].parentId == if i == 0 then None else Some(ids[i - 1])
  }

  /** `ids` runs from a root down to `last`, each node being the parent of the next. */
  ghost predicate IsRootPath(nodes: map<NodeId, SessionNode>, last: NodeId, ids: seq<NodeId>) {
    && ids != []
    && ids[|ids| - 1] == last
    && forall i :: 0 <= i < |ids| ==> StepsDown(nodes, ids, i)
  }

  ghost function MessagesAlong(nodes: map<NodeId, SessionNode>, ids: seq<NodeId>): seq<Message>
    requires forall i :: 0 <= i < |ids| ==> StepsDown(nodes, ids, i)
  {
    seq(|ids|, i requires 0 <= i < |ids| && StepsDown(nodes, ids, i) => nodes[ids[i]].message)
  }

  lemma {:induction false} RootPathClimbs(nodes: map<NodeId, SessionNode>, last: NodeId, ids: seq<NodeId>, k: nat)
    requires IsRootPath(nodes, last, ids) && k <= |ids|
    ensures Climb(ParentLinks(nodes), Some(last), k) == if k == |ids| then None else Some(ids[|ids| - 1 - k])
  {
    if k > 0 {
      RootPathClimbs(nodes, last, ids, k - 1);
      ClimbAdd(ParentLinks(nodes), Some(last), k - 1, 1);
      var i := |ids| - k;
      assert StepsDown(nodes, ids, i);
      assert Climb(ParentLinks(nodes), Some(ids[i]), 1) == nodes[ids[i]].parentId;
    }
  }

  lemma RootPathStaysInside(nodes: map<NodeId, SessionNode>, last: NodeId, ids: seq<NodeId>, k: nat, id: NodeId)
    requires IsRootPath(nodes, last, ids) && Climb(ParentLinks(nodes), Some(last), k) == Some(id)
    ensures id in nodes
  {
    if k <= |ids| {
      RootPathClimbs(nodes, last, ids, k);
      assert StepsDown(nodes, ids, |ids| - 1 - k);
    } else {
      RootPathClimbs(nodes, last, ids, |ids|);
      ClimbAdd(ParentLinks(nodes), Some(last), |ids|, k - |ids|);
    }
  }

  /** A node has at most one path from a root. */
  lemma RootPathUnique(nodes: map<NodeId, SessionNode>, last: NodeId, a: seq<NodeId>, b: seq<NodeId>)
    requires IsRootPath(nodes, last, a) && IsRootPath(nodes, last, b)
    ensures a == b
  {
    RootPathClimbs(nodes, last, a, |a|);
    RootPathClimbs(nodes, last, b, |b|);
    if |a| < |b| { RootPathClimbs(nodes, last, b, |a|); }
    if |b| < |a| { RootPathClimbs(nodes, last, a, |b|); }
    forall i | 0 <= i < |a| ensures a[i] == b[i] {
      RootPathClimbs(nodes, last, a, |a| - 1 - i);
      RootPathClimbs(nodes, last, b, |a| - 1 - i);
    }
  }

  /** The messages from the root to a leaf; None for an unknown id, an internal node or a dangling parent. */
  method PathTo(tree: SessionTree, leaf: NodeId) returns (r: Option<seq<Message>>)
    requires Acyclic(ParentLinks(tree.nodes))
    ensures r.Some? <==> IsLeaf(tree.nodes, leaf) && exists ids :: IsRootPath(tree.nodes, leaf, ids)
    ensures forall ids :: r.Some? && IsRootPath(tree.nodes, leaf, ids) ==> r.value == MessagesAlong(tree.nodes, ids)
  {
    if leaf !in tree.nodes || tree.nodes[leaf].children != [] {
      return None;
    }
    ghost var nodes, links := tree.nodes, ParentLinks(tree.nodes);
    ghost var ids: seq<NodeId> := [];
    var path: seq<Message> := [];
    var cursor := Some(leaf);
    while cursor.Some?
      invariant IsClimb(links, leaf, ids, cursor)
      invariant ids == [] ==> cursor == Some(leaf)
      invariant |path| == |ids| && forall i :: 0 <= i < |path| ==> path[i] == nodes[ids[i]].message
      decreases links.Keys - set id | id in ids
    {
      var id := cursor.value;
      if id !in tree.nodes {
        forall up ensures !IsRootPath(nodes, leaf, up) {
          if IsRootPath(nodes, leaf, up) { RootPathStaysInside(nodes, leaf, up, |ids|, id); }
        }
        return None;
      }
      if id in ids { ClimbCloses(links, leaf, ids, id); }
      ClimbExtends(links, leaf, ids, id);
      assert id in links.Keys - set x | x in ids;
      path := path + [tree.nodes[id].message];
      ids := ids + [id];
      cursor := tree.nodes[id].parentId;
    }
    var top := Reversed(path);
    ghost var down := Reversed(ids);
    forall i | 0 <= i < |down| ensures StepsDown(nodes, down, i) {
      ClimbAdd(links, Some(leaf), |ids| - 1 - i, 1);
    }
    assert IsRootPath(nodes, leaf, down);
    forall up | IsRootPath(nodes, leaf, up) ensures top == MessagesAlong(nodes, up) {
      RootPathUnique(nodes, leaf, up, down);
    }
    r := Some(top);
  }

  function Reversed<T>(s: seq<T>): (r: seq<T>)
    ensures |r| == |s| && forall i :: 0 <= i < |s| ==> r[i] == s[|s| - 1 - i]
  {
    if s == [] then [] else Reversed(s[1..]) + [s[0]]
  }
}
