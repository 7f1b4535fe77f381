/**
 The id cursor of a storage under any number of concurrent claimants (claim_next_id of src/core/session/jsonl.rs). A
 claimant loads the cursor and then tries to exchange it for its successor; the exchange fails when another claimant
 was faster, and may fail for no reason. In between, loads of the file may raise the cursor.
 */
module IdCursor {
  import opened RecordCodec

  type Claimant = nat

  datatype Claim = Trying(seen: nat) | Claimed(id: nat) | Exhausted

  datatype State = State(cursor: nat, claims: map<Claimant, Claim>)

  datatype Event =
    | LoadCursor(claimant: Claimant)
    | Exchange(claimant: Claimant, spurious: bool)
    | Raise(floor: nat)

  predicate Enabled(s: State, e: Event) {
    match e
    case LoadCursor(c) => c !in s.claims
    case Exchange(c, _) => c in s.claims && s.claims[c].Trying?
    case Raise(floor) => floor <= U64_MAX
  }

  /**
   One turn of the loop: gives up at the last u64, else exchanges if the cursor is still what was seen, else looks
   again.
   */
  function AfterExchange(s: State, c: Claimant, spurious: bool): State
    requires c in s.claims && s.claims[c].Trying?
  {
    var seen := s.claims[c].seen;
    if seen == U64_MAX then s.(claims := s.claims[c := Exhausted])
    else if s.cursor == seen && !spurious then State(seen + 1, s.claims[c := Claimed(seen)])
    else s.(claims := s.claims[c := Trying(s.cursor)])
  }

  function Next(s: State, e: Event): State
    requires Enabled(s, e)
  {
    match e
    case LoadCursor(c) => s.(claims := s.claims[c := Trying(s.cursor)])
    case Exchange(c, spurious) => AfterExchange(s, c, spurious)
    case Raise(floor) => if s.cursor < floor then s.(cursor := floor) else s
  }

  predicate RunEnabled(s: State, es: seq<Event>)
    decreases |es|
  {
    es == [] || (Enabled(s, es[0]) && RunEnabled(Next(s, es[0]), es[1..]))
  }

  function Run(s: State, es: seq<Event>): State
    requires RunEnabled(s, es)
    decreases |es|
  {
    if es == [] then s else Run(Next(s, es[0]), es[1..])
  }

  /** Claimed ids lie from `from` up to the cursor, each claimed once; nobody has seen more than the cursor. */
  ghost predicate Inv(s: State, from: nat) {
    && from <= s.cursor <= U64_MAX
    && (forall c :: c in s.claims ==>
          match s.claims[c]
          case Trying(seen) => from <= seen <= s.cursor
          case Claimed(id) => from <= id < s.cursor
          case Exhausted => s.cursor == U64_MAX)
    && (forall c, d :: c in s.claims && d in s.claims && s.claims[c].Claimed? && s.claims[c] == s.claims[d] ==> c == d)
  }

  lemma NextKeepsInv(s: State, e: Event, from: nat)
    requires Inv(s, from) && Enabled(s, e)
    ensures Inv(Next(s, e), from) && s.cursor <= Next(s, e).cursor
  {
  }

  lemma {:induction false} RunKeepsInv(s: State, es: seq<Event>, from: nat)
    requires Inv(s, from) && RunEnabled(s, es)
    ensures Inv(Run(s, es), from) && s.cursor <= Run(s, es).cursor
    decreases |es|
  {
    if es != [] {
      NextKeepsInv(s, es[0], from);
      RunKeepsInv(Next(s, es[0]), es[1..], from);
    }
  }

  /**
   However claimants and raises interleave: no two claims get one id, every claimed id was free when the run began, the
   cursor never goes down nor past the last u64, and a claim is refused only once the cursor has reached that.
   */
  lemma ClaimsAreDistinct(start: nat, es: seq<Event>, c: Claimant, d: Claimant)
    requires start <= U64_MAX && RunEnabled(State(start, map[]), es)
    requires c in Run(State(start, map[]), es).claims && d in Run(State(start, map[]), es).claims
    ensures var s := Run(State(start, map[]), es);
      && start <= s.cursor <= U64_MAX
      && (s.claims[c].Claimed? ==> start <= s.claims[c].id < s.cursor)
      && (s.claims[c].Claimed? && s.claims[d].Claimed? && c != d ==> s.claims[c].id != s.claims[d].id)
      && (s.claims[c].Exhausted? ==> s.cursor == U64_MAX)
  {
    RunKeepsInv(State(start, map[]), es, start);
  }

  /**
   A turn that ends without a claim although the exchange was not spurious means that the cursor moved, or is used up.
   */
  lemma SomebodyMakesProgress(start: nat, es: seq<Event>, c: Claimant)
    requires start <= U64_MAX && RunEnabled(State(start, map[]), es)
        && Enabled(Run(State(start, map[]), es), Exchange(c, false))
    ensures var s := Run(State(start, map[]), es);
      var t := Next(s, Exchange(c, false));
      || (t.claims[c] == Claimed(s.cursor) && t.cursor == s.cursor + 1)
      || (t.claims[c] == Trying(s.cursor) && s.claims[c].seen < s.cursor)
      || (t.claims[c] == Exhausted && s.cursor == U64_MAX)
  {
    RunKeepsInv(State(start, map[]), es, start);
  }

  /** A raise lifts the cursor just to the floor it is given, if it lies below; what is claimed stays claimed. */
  lemma RaiseLiftsToFloor(s: State, floor: nat)
    requires floor <= U64_MAX
    ensures Enabled(s, Raise(floor))
    ensures var t := Next(s, Raise(floor));
      && s.cursor <= t.cursor && floor <= t.cursor && (t.cursor == s.cursor || t.cursor == floor)
      && t.claims == s.claims
  {
  }

  /** A claim that nobody disturbs takes the cursor and leaves it one higher. */
  lemma UndisturbedClaim(s: State, c: Claimant)
    requires s.cursor < U64_MAX && c !in s.claims
    ensures Enabled(s, LoadCursor(c))
    ensures var t := Next(s, LoadCursor(c));
      Enabled(t, Exchange(c, false))
          && Next(t, Exchange(c, false)) == State(s.cursor + 1, s.claims[c := Claimed(s.cursor)])
  {
  }
}
